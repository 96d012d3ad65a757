/** The bettor's dashboard: client-side evaluation of each bet against the
    matches the client has loaded, the per-leg marks, the claim button and the
    potential win. */
module UserDashboard {
  import opened Types
  import Ledger

  datatype BetStatus = Pending | Winning | Losing

  /** `matches.find(m => m.id === id)`: the first match with that id. */
  function GetMatchById(matches: seq<Match>, id: nat): (r: Option<Match>)
    ensures r.None? <==> forall k :: 0 <= k < |matches| ==> matches[k].id != id
    ensures r.Some? ==> r.value.id == id
    ensures r.Some? ==> exists k :: (0 <= k < |matches| && matches[k] == r.value
      && forall j :: 0 <= j < k ==> matches[j].id != id)
  {
    if matches == [] then None
    else if matches[0].id == id then Some(matches[0])
    else
      var rest := GetMatchById(matches[1..], id);
      if rest.Some? then
        var k :| 0 <= k < |matches[1..]| && matches[1..][k] == rest.value
          && forall j :: 0 <= j < k ==> matches[1..][j].id != id;
        assert matches[k + 1] == rest.value;
        rest
      else rest
  }

  /** `bet.predictions[index]`, which is undefined past the end of the array. */
  function PredictionAt(bet: Bet, index: nat): Option<Result>
  {
    if index < |bet.predictions| then Some(bet.predictions[index]) else None
  }

  /** `getMatchById(id)?.played`. */
  predicate LegPlayed(matches: seq<Match>, id: nat)
  {
    var m := GetMatchById(matches, id);
    m.Some? && m.value.played
  }

  /** `getMatchById(matchId)?.result === bet.predictions[index]`, where the match exists. */
  predicate LegMatches(matches: seq<Match>, bet: Bet, index: nat)
    requires index < |bet.matchIds|
  {
    var m := GetMatchById(matches, bet.matchIds[index]);
    m.Some? && PredictionAt(bet, index) == Some(m.value.result)
  }

  /** `checkBetStatus`: pending until every leg's match is known and played, then
      winning if every leg's prediction is the result and losing otherwise. */
  function CheckBetStatus(bet: Bet, matches: seq<Match>): BetStatus
  {
    if !(forall i :: 0 <= i < |bet.matchIds| ==> LegPlayed(matches, bet.matchIds[i])) then Pending
    else if forall i :: 0 <= i < |bet.matchIds| ==> LegMatches(matches, bet, i) then Winning
    else Losing
  }

  /** `isCorrect` for one rendered leg: the match is played and its result is the prediction. */
  predicate IsCorrect(m: Match, prediction: Option<Result>)
  {
    m.played && prediction == Some(m.result)
  }

  /** A leg is marked correct exactly when its match is played and the ledger
      counts the leg as won; a missing prediction is never correct. */
  lemma IsCorrectMeansLegWins(ledger: map<nat, Match>, id: nat, prediction: Result)
    requires id in ledger
    ensures IsCorrect(ledger[id], Some(prediction)) <==> ledger[id].played && Ledger.LegWins(ledger, id, prediction)
    ensures !IsCorrect(ledger[id], None)
  {
  }

  /** The bet is pending exactly when some leg's match is missing or not yet played. */
  lemma PendingIffLegUnresolved(bet: Bet, matches: seq<Match>)
    ensures CheckBetStatus(bet, matches) == Pending <==>
      exists i :: 0 <= i < |bet.matchIds| && (GetMatchById(matches, bet.matchIds[i]).None? || !GetMatchById(matches, bet.matchIds[i]).value.played)
  {
  }

  /** A bet is winning exactly when every leg's match is there and that leg is
      marked correct; this is the every-leg rule, with no partial credit. */
  lemma WinningIffEveryLegCorrect(bet: Bet, matches: seq<Match>)
    ensures CheckBetStatus(bet, matches) == Winning <==>
      forall i :: 0 <= i < |bet.matchIds| ==>
        GetMatchById(matches, bet.matchIds[i]).Some? && IsCorrect(GetMatchById(matches, bet.matchIds[i]).value, PredictionAt(bet, i))
  {
    if CheckBetStatus(bet, matches) == Winning {
      forall i | 0 <= i < |bet.matchIds|
        ensures GetMatchById(matches, bet.matchIds[i]).Some? && IsCorrect(GetMatchById(matches, bet.matchIds[i]).value, PredictionAt(bet, i))
      {
        assert LegPlayed(matches, bet.matchIds[i]) && LegMatches(matches, bet, i);
      }
    }
  }

  /** Once every leg is played, one wrong leg makes the whole bet losing. */
  lemma OneWrongLegLoses(bet: Bet, matches: seq<Match>, i: nat)
    requires forall k :: 0 <= k < |bet.matchIds| ==> LegPlayed(matches, bet.matchIds[k])
    requires i < |bet.matchIds|
    requires var m := GetMatchById(matches, bet.matchIds[i]); m.Some? && PredictionAt(bet, i) != Some(m.value.result)
    ensures CheckBetStatus(bet, matches) == Losing
  {
    assert !LegMatches(matches, bet, i);
  }

  /** A bet with no legs is winning: `every` over an empty array is true. */
  lemma EmptyBetWins(bet: Bet, matches: seq<Match>)
    requires bet.matchIds == []
    ensures CheckBetStatus(bet, matches) == Winning
  {
  }

  /** The client's status agrees with the ledger's payout rule when the loaded
      matches are the ledger's: every played bet is winning or losing, and it is
      winning exactly when the ledger would pay it. */
  lemma StatusAgreesWithLedger(bet: Bet, matches: seq<Match>, ledger: map<nat, Match>)
    requires |bet.matchIds| == |bet.predictions|
    requires forall i :: 0 <= i < |bet.matchIds| ==>
      bet.matchIds[i] in ledger && GetMatchById(matches, bet.matchIds[i]) == Some(ledger[bet.matchIds[i]])
    requires Ledger.AllLegsPlayed(ledger, bet.matchIds)
    ensures CheckBetStatus(bet, matches) != Pending
    ensures CheckBetStatus(bet, matches) == Winning <==> Ledger.LegsWin(ledger, bet.matchIds, bet.predictions)
  {
    assert forall i :: 0 <= i < |bet.matchIds| ==> LegPlayed(matches, bet.matchIds[i]);
    assert forall i :: 0 <= i < |bet.matchIds| ==>
      (LegMatches(matches, bet, i) <==> Ledger.LegWins(ledger, bet.matchIds[i], bet.predictions[i]));
  }

  /** The claim button is offered exactly for a winning bet not yet claimed. */
  function ShowClaimButton(bet: Bet, matches: seq<Match>): (show: bool)
    ensures show ==> forall i :: 0 <= i < |bet.matchIds| ==> LegPlayed(matches, bet.matchIds[i])
    ensures show <==> CheckBetStatus(bet, matches) == Winning && !bet.claimed
  {
    CheckBetStatus(bet, matches) == Winning && !bet.claimed
  }

  /** `bet.amount * 2`. */
  function PotentialWin(amount: nat): nat
  {
    amount * 2
  }

  /** The dashboard's potential win is what the ledger pays for the bet if it wins. */
  lemma PotentialWinIsLedgerPayout(matches: map<nat, Match>, b: Ledger.StoredBet)
    requires Ledger.LegsWin(matches, b.matchIds, b.predictions)
    ensures Ledger.Payout(matches, b) == PotentialWin(b.amount)
    ensures PotentialWin(b.amount) == Ledger.PayoutMultiplier * b.amount
  {
  }
}
