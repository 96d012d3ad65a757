/** The home page's own state: the betting slip of (match, prediction) picks,
    the countdown to the next round, and the `m:ss` rendering of that countdown. */
module Page {
  import opened Types
  import opened Seqs
  import opened Decimal

  /** The countdown's starting value and reset value, five minutes in seconds. */
  const CountdownStart: nat := 300

  datatype SlipEntry = SlipEntry(matchId: nat, prediction: Result)

  predicate OnSlip(slip: seq<SlipEntry>, matchId: nat)
  {
    exists k :: 0 <= k < |slip| && slip[k].matchId == matchId
  }

  /** At most one entry per match. */
  predicate UniqueIds(slip: seq<SlipEntry>)
  {
    forall i, j :: 0 <= i < j < |slip| ==> slip[i].matchId != slip[j].matchId
  }

  /** `selectedBets.find(bet => bet.matchId === matchId)`: the first entry for the match. */
  function FindEntry(slip: seq<SlipEntry>, matchId: nat): (r: Option<SlipEntry>)
    ensures r.None? <==> !OnSlip(slip, matchId)
    ensures r.Some? ==> r.value.matchId == matchId && r.value in slip
    ensures r.Some? ==> exists k :: (0 <= k < |slip| && slip[k] == r.value
      && forall j :: 0 <= j < k ==> slip[j].matchId != matchId)
  {
    if slip == [] then None
    else if slip[0].matchId == matchId then Some(slip[0])
    else
      var rest := FindEntry(slip[1..], matchId);
      assert OnSlip(slip[1..], matchId) ==> OnSlip(slip, matchId) by {
        if OnSlip(slip[1..], matchId) {
          var k :| 0 <= k < |slip[1..]| && slip[1..][k].matchId == matchId;
          assert slip[k + 1].matchId == matchId;
        }
      }
      if rest.Some? then
        var k :| 0 <= k < |slip[1..]| && slip[1..][k] == rest.value
          && forall j :: 0 <= j < k ==> slip[1..][j].matchId != matchId;
        assert slip[k + 1] == rest.value;
        rest
      else rest
  }

  /** `addToBettingSlip`: a match already on the slip gets the new prediction
      where it stands; a new match is appended. */
  function AddToBettingSlip(slip: seq<SlipEntry>, matchId: nat, prediction: Result): seq<SlipEntry>
  {
    if FindEntry(slip, matchId).Some? then
      seq(|slip|, k requires 0 <= k < |slip| =>
        if slip[k].matchId == matchId then SlipEntry(matchId, prediction) else slip[k])
    else slip + [SlipEntry(matchId, prediction)]
  }

  /** The filter callback `bet => bet.matchId !== matchId`. */
  function OtherMatch(matchId: nat): SlipEntry -> bool
  {
    (e: SlipEntry) => e.matchId != matchId
  }

  /** `removeFromBettingSlip`. */
  function RemoveFromBettingSlip(slip: seq<SlipEntry>, matchId: nat): seq<SlipEntry>
  {
    Filter(slip, OtherMatch(matchId))
  }

  /** Re-picking a match already on the slip changes only that entry's
      prediction: the length, the order and every other entry stay. */
  lemma AddExistingReplaces(slip: seq<SlipEntry>, matchId: nat, prediction: Result)
    requires OnSlip(slip, matchId)
    ensures |AddToBettingSlip(slip, matchId, prediction)| == |slip|
    ensures forall k :: 0 <= k < |slip| && slip[k].matchId != matchId ==>
      AddToBettingSlip(slip, matchId, prediction)[k] == slip[k]
    ensures forall k :: 0 <= k < |slip| && slip[k].matchId == matchId ==>
      AddToBettingSlip(slip, matchId, prediction)[k] == SlipEntry(matchId, prediction)
  {
  }

  /** Picking a match not on the slip appends it at the end. */
  lemma AddNewAppends(slip: seq<SlipEntry>, matchId: nat, prediction: Result)
    requires !OnSlip(slip, matchId)
    ensures AddToBettingSlip(slip, matchId, prediction) == slip + [SlipEntry(matchId, prediction)]
  {
  }

  /** Adding keeps the slip at one entry per match. */
  lemma AddKeepsUniqueIds(slip: seq<SlipEntry>, matchId: nat, prediction: Result)
    requires UniqueIds(slip)
    ensures UniqueIds(AddToBettingSlip(slip, matchId, prediction))
  {
  }

  /** After an add the match is on the slip, and every entry for it carries the new prediction. */
  lemma AddPlacesPick(slip: seq<SlipEntry>, matchId: nat, prediction: Result)
    ensures OnSlip(AddToBettingSlip(slip, matchId, prediction), matchId)
    ensures var r := AddToBettingSlip(slip, matchId, prediction);
      forall k :: 0 <= k < |r| && r[k].matchId == matchId ==> r[k] == SlipEntry(matchId, prediction)
  {
    var r := AddToBettingSlip(slip, matchId, prediction);
    if OnSlip(slip, matchId) {
      var j :| 0 <= j < |slip| && slip[j].matchId == matchId;
      assert r[j].matchId == matchId;
    } else {
      assert r[|r| - 1].matchId == matchId;
    }
  }

  /** After an add, looking the match up yields the new prediction. */
  lemma FindAfterAdd(slip: seq<SlipEntry>, matchId: nat, prediction: Result)
    ensures FindEntry(AddToBettingSlip(slip, matchId, prediction), matchId) == Some(SlipEntry(matchId, prediction))
  {
    var r := AddToBettingSlip(slip, matchId, prediction);
    AddPlacesPick(slip, matchId, prediction);
    var found := FindEntry(r, matchId);
    var k :| 0 <= k < |r| && r[k] == found.value;
  }

  /** Adding the same pick twice is the same as adding it once. */
  lemma AddIdempotent(slip: seq<SlipEntry>, matchId: nat, prediction: Result)
    ensures AddToBettingSlip(AddToBettingSlip(slip, matchId, prediction), matchId, prediction)
      == AddToBettingSlip(slip, matchId, prediction)
  {
    var once := AddToBettingSlip(slip, matchId, prediction);
    AddPlacesPick(slip, matchId, prediction);
    var twice := AddToBettingSlip(once, matchId, prediction);
    assert |twice| == |once|;
    assert forall k :: 0 <= k < |once| ==> twice[k] == once[k];
  }

  /** Removing drops every entry for the match and keeps the others in order. */
  lemma RemoveDropsMatch(slip: seq<SlipEntry>, matchId: nat, before: seq<SlipEntry>, after: seq<SlipEntry>, e: SlipEntry)
    requires slip == before + [e] + after
    ensures forall k :: 0 <= k < |RemoveFromBettingSlip(slip, matchId)| ==>
      RemoveFromBettingSlip(slip, matchId)[k].matchId != matchId
    ensures RemoveFromBettingSlip(slip, matchId) ==
      RemoveFromBettingSlip(before, matchId) + (if e.matchId == matchId then [] else [e]) + RemoveFromBettingSlip(after, matchId)
  {
    var keep := OtherMatch(matchId);
    FilterConcat(before + [e], after, keep);
    FilterConcat(before, [e], keep);
    assert Filter([e], keep) == (if e.matchId == matchId then [] else [e]) by {
      assert [e][1..] == [];
    }
    var r := RemoveFromBettingSlip(slip, matchId);
    forall k | 0 <= k < |r| ensures r[k].matchId != matchId {
      assert keep(r[k]);
    }
  }

  /** After a remove, looking the match up finds nothing. */
  lemma FindAfterRemove(slip: seq<SlipEntry>, matchId: nat)
    ensures FindEntry(RemoveFromBettingSlip(slip, matchId), matchId).None?
  {
  }

  /** Removing a match that was just added as new gives back the original slip. */
  lemma RemoveUndoesNewAdd(slip: seq<SlipEntry>, matchId: nat, prediction: Result)
    requires !OnSlip(slip, matchId)
    ensures RemoveFromBettingSlip(AddToBettingSlip(slip, matchId, prediction), matchId) == slip
  {
    var keep := OtherMatch(matchId);
    FilterConcat(slip, [SlipEntry(matchId, prediction)], keep);
    FilterKeepsAll(slip, keep);
    assert Filter([SlipEntry(matchId, prediction)], keep) == [] by {
      assert [SlipEntry(matchId, prediction)][1..] == [];
    }
  }

  /** The once-a-second countdown update `prev => prev > 0 ? prev - 1 : 300`. */
  function Tick(prev: int): int
  {
    if prev > 0 then prev - 1 else CountdownStart
  }

  /** The countdown after `n` ticks. */
  function Ticks(start: int, n: nat): int
  {
    if n == 0 then start else Tick(Ticks(start, n - 1))
  }

  /** A tick keeps the countdown within [0, 300]. */
  lemma TickInRange(prev: int)
    requires 0 <= prev <= CountdownStart
    ensures 0 <= Tick(prev) <= CountdownStart
    ensures Tick(prev) == (if prev == 0 then CountdownStart else prev - 1)
  {
  }

  /** Starting from 300 the countdown runs down to 0 and wraps to 300: after `n`
      ticks it shows 300 - n mod 301, always within [0, 300]. */
  lemma {:induction false} TicksFromStart(n: nat)
    ensures Ticks(CountdownStart, n) == CountdownStart - n % (CountdownStart + 1)
    ensures 0 <= Ticks(CountdownStart, n) <= CountdownStart
  {
    if n > 0 {
      TicksFromStart(n - 1);
    }
  }

  /** `padStart(2, '0')`. */
  function Pad2(s: string): (r: string)
    ensures |r| == if |s| >= 2 then |s| else 2
    ensures |s| >= 2 ==> r == s
    ensures |s| < 2 ==> r[2 - |s|..] == s && forall k :: 0 <= k < 2 - |s| ==> r[k] == '0'
  {
    if |s| == 0 then "00" else if |s| == 1 then "0" + s else s
  }

  /** `formatTime`: whole minutes, a colon, then the seconds as two digits. */
  function FormatTime(seconds: nat): string
  {
    NatToString(seconds / 60) + ":" + Pad2(NatToString(seconds % 60))
  }

  /** The minutes part of a rendered time: everything before the colon. */
  function MinutesPart(t: string): string
    requires |t| >= 3
  {
    t[..|t| - 3]
  }

  /** The seconds part of a rendered time: the two characters after the colon. */
  function SecondsPart(t: string): string
    requires |t| >= 2
  {
    t[|t| - 2..]
  }

  /** Reading a rendered time back: the colon sits before exactly two digits of
      seconds, the minutes before it read as `seconds / 60`, the two digits as
      `seconds % 60`, and together they give back the number of seconds. */
  lemma FormatTimeReadsBack(seconds: nat)
    ensures var t := FormatTime(seconds);
      |t| >= 4 && t[|t| - 3] == ':'
      && AllDigits(MinutesPart(t)) && AllDigits(SecondsPart(t))
      && ParseDigits(MinutesPart(t)) == seconds / 60
      && ParseDigits(SecondsPart(t)) == seconds % 60
      && ParseDigits(MinutesPart(t)) * 60 + ParseDigits(SecondsPart(t)) == seconds
  {
    var m := NatToString(seconds / 60);
    var d := NatToString(seconds % 60);
    var t := FormatTime(seconds);
    assert t == m + ":" + Pad2(d);
    assert MinutesPart(t) == m;
    assert SecondsPart(t) == Pad2(d);
    ParseNatToString(seconds / 60);
    ParseNatToString(seconds % 60);
    if |d| == 1 {
      LeadingZero(d);
    }
  }

  /** What the page reacts to. */
  datatype Event =
    | Pick(matchId: nat, prediction: Result)   // a prediction button on a match card
    | Unpick(matchId: nat)                     // the remove button on a slip entry
    | TimerTick                                // the one-second interval
    | GenerateClicked                          // the "Generate Matches" button
    | BetPlaced                                // the slip's place-bet callback

  datatype PageState = PageState(slip: seq<SlipEntry>, timeUntilNext: int)

  const InitialPage: PageState := PageState([], CountdownStart)

  /** The generate button is disabled while the countdown is above zero. */
  predicate GenerateEnabled(p: PageState)
  {
    p.timeUntilNext <= 0
  }

  function Step(p: PageState, e: Event): PageState
  {
    match e
    case Pick(id, prediction) => p.(slip := AddToBettingSlip(p.slip, id, prediction))
    case Unpick(id) => p.(slip := RemoveFromBettingSlip(p.slip, id))
    case TimerTick => p.(timeUntilNext := Tick(p.timeUntilNext))
    case GenerateClicked => if GenerateEnabled(p) then p.(timeUntilNext := CountdownStart) else p
    case BetPlaced => p.(slip := [])
  }

  function Run(p: PageState, events: seq<Event>): PageState
    decreases |events|
  {
    if events == [] then p else Run(Step(p, events[0]), events[1..])
  }

  /** What every reachable page state satisfies. */
  predicate PageInv(p: PageState)
  {
    UniqueIds(p.slip) && 0 <= p.timeUntilNext <= CountdownStart
  }

  /** Placing a bet empties the slip and leaves the countdown alone. */
  lemma BetPlacedClearsSlip(p: PageState)
    ensures Step(p, BetPlaced).slip == []
    ensures Step(p, BetPlaced).timeUntilNext == p.timeUntilNext
  {
  }

  /** An enabled generate resets the countdown to 300 and keeps the slip; while
      the countdown runs the button is disabled and nothing happens. */
  lemma GenerateResetsCountdown(p: PageState)
    ensures GenerateEnabled(p) ==> Step(p, GenerateClicked) == p.(timeUntilNext := CountdownStart)
    ensures !GenerateEnabled(p) ==> Step(p, GenerateClicked) == p
  {
  }

  lemma StepPreservesInv(p: PageState, e: Event)
    requires PageInv(p)
    ensures PageInv(Step(p, e))
  {
    match e {
      case Pick(id, prediction) => AddKeepsUniqueIds(p.slip, id, prediction);
      case Unpick(id) =>
        var r := RemoveFromBettingSlip(p.slip, id);
        RemoveKeepsUniqueIds(p.slip, id);
      case TimerTick =>
      case GenerateClicked =>
      case BetPlaced =>
    }
  }

  /** Removing keeps the slip at one entry per match. */
  lemma {:induction false} RemoveKeepsUniqueIds(slip: seq<SlipEntry>, matchId: nat)
    requires UniqueIds(slip)
    ensures UniqueIds(RemoveFromBettingSlip(slip, matchId))
  {
    if slip != [] {
      RemoveKeepsUniqueIds(slip[1..], matchId);
      var rest := RemoveFromBettingSlip(slip[1..], matchId);
      forall k | 0 <= k < |rest| ensures rest[k].matchId != slip[0].matchId {
        assert rest[k] in slip[1..];
      }
    }
  }

  /** Every state the page reaches from its initial state keeps one entry per
      match on the slip and a countdown within [0, 300]. */
  lemma {:induction false} RunPreservesInv(p: PageState, events: seq<Event>)
    requires PageInv(p)
    ensures PageInv(Run(p, events))
    decreases |events|
  {
    if events != [] {
      StepPreservesInv(p, events[0]);
      RunPreservesInv(Step(p, events[0]), events[1..]);
    }
  }

  lemma ReachableStatesKeepInv(events: seq<Event>)
    ensures PageInv(Run(InitialPage, events))
  {
    RunPreservesInv(InitialPage, events);
  }
}
