/** The owner's panel: a selection of match ids to resolve, a withdrawal
    amount, and the two handlers that send them to the contract. The list
    updaters are pure; the panel's own state is a class the handlers update. */
module OwnerPanel {
  import opened Types
  import opened Seqs
  import ContractHook

  /** The filter callback `id => id !== matchId`. */
  function OtherId(matchId: nat): nat -> bool
  {
    (id: nat) => id != matchId
  }

  /** `prev.filter(id => id !== matchId)`. */
  function Unselect(selection: seq<nat>, matchId: nat): seq<nat>
  {
    Filter<nat>(selection, OtherId(matchId))
  }

  /** `toggleMatchSelection`'s updater: drop every occurrence of a selected id,
      append an unselected one. */
  function Toggle(selection: seq<nat>, matchId: nat): seq<nat>
  {
    if matchId in selection then Unselect(selection, matchId) else selection + [matchId]
  }

  /** `selectAllMatches`'s updater: the ids of the unplayed matches, in order. */
  function SelectAll(unplayed: seq<Match>): seq<nat>
  {
    seq(|unplayed|, k requires 0 <= k < |unplayed| => unplayed[k].id)
  }

  /** Toggling an unselected id appends it at the end. */
  lemma ToggleAbsentAppends(selection: seq<nat>, matchId: nat)
    requires matchId !in selection
    ensures Toggle(selection, matchId) == selection + [matchId]
  {
  }

  /** Dropping one id leaves every other id exactly as often as before. */
  lemma {:induction false} UnselectKeepsOthers(selection: seq<nat>, matchId: nat, other: nat)
    requires other != matchId
    ensures multiset(Unselect(selection, matchId))[other] == multiset(selection)[other]
  {
    if selection != [] {
      UnselectKeepsOthers(selection[1..], matchId, other);
      assert selection == [selection[0]] + selection[1..];
    }
  }

  /** Toggling a selected id removes every occurrence of it and keeps every
      other id as often as before. */
  lemma TogglePresentRemoves(selection: seq<nat>, matchId: nat)
    requires matchId in selection
    ensures matchId !in Toggle(selection, matchId)
    ensures forall other :: other != matchId ==>
      multiset(Toggle(selection, matchId))[other] == multiset(selection)[other]
  {
    var r := Toggle(selection, matchId);
    forall other | other != matchId
      ensures multiset(r)[other] == multiset(selection)[other]
    {
      UnselectKeepsOthers(selection, matchId, other);
    }
  }

  /** Removing a selected id keeps the other ids in their order: the ids before
      it and the ids after it stay where they were relative to each other. */
  lemma TogglePresentKeepsOrder(front: seq<nat>, matchId: nat, back: seq<nat>)
    ensures Toggle(front + [matchId] + back, matchId) == Unselect(front, matchId) + Unselect(back, matchId)
  {
    var keep := OtherId(matchId);
    var selection := front + [matchId] + back;
    assert selection[|front|] == matchId;
    assert Toggle(selection, matchId) == Filter(selection, keep);
    assert Filter([matchId], keep) == [] by {
      assert [matchId][1..] == [];
    }
    calc {
      Filter(selection, keep);
      { FilterConcat(front + [matchId], back, keep); }
      Filter(front + [matchId], keep) + Filter(back, keep);
      { FilterConcat(front, [matchId], keep); }
      Filter(front, keep) + Filter([matchId], keep) + Filter(back, keep);
    }
  }

  /** Toggling the same unselected id twice gives back the selection. */
  lemma ToggleTwiceRestores(selection: seq<nat>, matchId: nat)
    requires matchId !in selection
    ensures Toggle(Toggle(selection, matchId), matchId) == selection
  {
    var keep := OtherId(matchId);
    assert (selection + [matchId])[|selection|] == matchId;
    FilterConcat(selection, [matchId], keep);
    FilterKeepsAll(selection, keep);
    assert Filter([matchId], keep) == [] by {
      assert [matchId][1..] == [];
    }
  }

  /** Selecting all gives exactly the unplayed matches' ids, in the order listed. */
  lemma SelectAllIsUnplayedIds(all: seq<Match>)
    ensures var ids := SelectAll(ContractHook.UnplayedMatches(all));
      |ids| == |ContractHook.UnplayedMatches(all)|
      && forall k :: 0 <= k < |ids| ==>
        ids[k] == ContractHook.UnplayedMatches(all)[k].id
        && exists m :: m in all && m.id == ids[k] && !m.played
  {
    var u := ContractHook.UnplayedMatches(all);
    ContractHook.PartitionCovers(all);
    forall k | 0 <= k < |u| ensures exists m :: m in all && m.id == u[k].id && !m.played {
      assert u[k] in all;
    }
  }

  /** The panel is drawn only for the contract's owner. */
  predicate PanelRendered(address: Option<string>, owner: Option<string>)
  {
    ContractHook.IsOwner(address, owner)
  }

  lemma NonOwnerSeesNothing(address: Option<string>, owner: Option<string>)
    ensures address.None? || owner.None? ==> !PanelRendered(address, owner)
    ensures PanelRendered(address, owner) ==> ContractHook.Lower(address.value) == ContractHook.Lower(owner.value)
  {
  }

  /** The panel's React state. */
  class OwnerPanelState {
    var selectedMatches: seq<nat>
    var withdrawAmount: string

    constructor ()
      ensures selectedMatches == [] && withdrawAmount == ""
    {
      selectedMatches := [];
      withdrawAmount := "";
    }

    method ToggleMatchSelection(matchId: nat)
      modifies this
      ensures selectedMatches == Toggle(old(selectedMatches), matchId)
      ensures withdrawAmount == old(withdrawAmount)
    {
      selectedMatches := Toggle(selectedMatches, matchId);
    }

    method SelectAllMatches(unplayed: seq<Match>)
      modifies this
      ensures selectedMatches == SelectAll(unplayed)
      ensures withdrawAmount == old(withdrawAmount)
    {
      selectedMatches := SelectAll(unplayed);
    }

    method ClearSelection()
      modifies this
      ensures selectedMatches == []
      ensures withdrawAmount == old(withdrawAmount)
    {
      selectedMatches := [];
    }

    /** `handlePlayMatches`: nothing is sent for an empty selection; otherwise the
        selection is sent and cleared. The `playMatches` wrapper only hands the
        call to `writeContract`, which reports failures through the hook's state
        and does not throw, so the selection is cleared even when the transaction
        later reverts. Returns what was sent. */
    method HandlePlayMatches() returns (sent: Option<seq<nat>>)
      modifies this
      ensures old(selectedMatches) == [] ==> sent.None? && selectedMatches == old(selectedMatches)
      ensures old(selectedMatches) != [] ==> sent == Some(old(selectedMatches)) && selectedMatches == []
      ensures withdrawAmount == old(withdrawAmount)
    {
      if |selectedMatches| == 0 {
        return None;
      }
      sent := Some(selectedMatches);
      selectedMatches := [];
    }

    /** `handleWithdraw`: nothing is sent for an empty amount. Otherwise the
        wrapper evaluates `parseEther(amount)` before it calls `writeContract`,
        which does not throw: when `parseEther` accepts the amount (`amountParses`)
        the amount is sent and the field cleared; when it throws, nothing is sent
        and the field keeps the amount. */
    method HandleWithdraw(amountParses: bool) returns (sent: Option<string>)
      modifies this
      ensures old(withdrawAmount) == "" ==> sent.None? && withdrawAmount == old(withdrawAmount)
      ensures old(withdrawAmount) != "" && amountParses ==> sent == Some(old(withdrawAmount)) && withdrawAmount == ""
      ensures old(withdrawAmount) != "" && !amountParses ==> sent.None? && withdrawAmount == old(withdrawAmount)
      ensures selectedMatches == old(selectedMatches)
    {
      if withdrawAmount == "" {
        return None;
      }
      if !amountParses {
        return None;
      }
      sent := Some(withdrawAmount);
      withdrawAmount := "";
    }
  }
}
