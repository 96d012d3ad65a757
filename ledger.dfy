/** The VirtualAutoFootball betting contract, as its Hardhat tests and its ABI
    pin it down: a cooldown-gated fixture generator, the resolution of fixtures,
    multi-leg bets paid at a fixed 2x when every leg is right, and an owner-only
    withdrawal from the same pooled balance.

    Pseudo-random choices of the contract (which teams meet, the final scores) are
    parameters of the operations that make them; a revert is a `Reverted` result
    after which nothing has changed. */
module Ledger {
  import opened Types

  /** Seconds between two fixture generations ("Wait 5 minutes"). */
  const CooldownSeconds: nat := 300

  /** A winning bet returns its stake times this. */
  const PayoutMultiplier: nat := 2

  /** Why a transaction reverted. Only CooldownActive ("Wait 5 minutes") and
      OnlyOwner ("Only owner") are asserted by the tests; the others are
      modelling assumptions about checks the contract is expected to make. */
  datatype Reason =
    | CooldownActive
    | OnlyOwner
    | UnknownMatch
    | MatchAlreadyPlayed
    | MalformedBet
    | UnknownBet
    | NotBettor
    | AlreadyClaimed
    | MatchesNotPlayed
    | InsufficientBalance

  datatype TxResult = Ok | Reverted(reason: Reason)

  /** One pseudo-random fixture pick: a league and two roster positions. */
  datatype Pick = Pick(league: League, home: nat, away: nat)

  /** One pseudo-random final score. */
  datatype Score = Score(goalsA: Uint8, goalsB: Uint8, result: Result)

  /** A bet as the contract stores it. */
  datatype StoredBet = StoredBet(
    bettor: Address,
    amount: nat,
    matchIds: seq<nat>,
    predictions: seq<Result>,
    claimed: bool)

  /** What the public `bets(id)` getter returns (the arrays are not part of it). */
  datatype BetView = BetView(bettor: Address, amount: nat, claimed: bool)

  predicate RosterValid(roster: seq<string>)
  {
    |roster| >= 2 && forall t :: 0 <= t < |roster| ==> roster[t] != ""
  }

  /** One roster per league, indexed by the league's code. */
  predicate RostersValid(rosters: seq<seq<string>>)
  {
    |rosters| == 3 && forall l :: 0 <= l < 3 ==> RosterValid(rosters[l])
  }

  predicate PickValid(rosters: seq<seq<string>>, d: Pick)
    requires RostersValid(rosters)
  {
    var roster := rosters[LeagueCode(d.league)];
    d.home < |roster| && d.away < |roster| && d.home != d.away
  }

  predicate CooldownElapsed(last: int, now: int)
  {
    now >= last + CooldownSeconds
  }

  /** A freshly generated fixture. */
  function Fixture(id: nat, d: Pick, rosters: seq<seq<string>>, now: int): (m: Match)
    requires RostersValid(rosters) && PickValid(rosters, d)
    ensures m.id == id && !m.played && m.result == NotSet && m.startTime == now
    ensures m.teamA != "" && m.teamB != ""
  {
    var roster := rosters[LeagueCode(d.league)];
    Match(id, d.league, roster[d.home], roster[d.away], 0, 0, NotSet, now, false)
  }

  /** A fixture after it has been played with the given score. */
  function PlayedWith(m: Match, s: Score): (p: Match)
    ensures p.played && p.result == s.result
    ensures p.id == m.id && p.teamA == m.teamA && p.teamB == m.teamB && p.league == m.league
  {
    m.(goalsA := s.goalsA, goalsB := s.goalsB, result := s.result, played := true)
  }

  predicate MatchWellFormed(m: Match)
  {
    && (m.played <==> m.result != NotSet)
    && (!m.played ==> m.goalsA == 0 && m.goalsB == 0)
    && m.goalsA < 256 && m.goalsB < 256
    && m.teamA != "" && m.teamB != ""
  }

  predicate LegsExist(matches: map<nat, Match>, ids: seq<nat>)
  {
    forall i :: 0 <= i < |ids| ==> ids[i] in matches
  }

  predicate BetWellFormed(matches: map<nat, Match>, b: StoredBet)
  {
    |b.matchIds| == |b.predictions| && |b.matchIds| > 0 && b.amount > 0 && LegsExist(matches, b.matchIds)
  }

  /** A batch playMatches accepts: every id names an unplayed match, and no id repeats. */
  predicate PlayableBatch(matches: map<nat, Match>, ids: seq<nat>)
  {
    && (forall k :: 0 <= k < |ids| ==> ids[k] in matches && !matches[ids[k]].played)
    && (forall j, k :: 0 <= j < k < |ids| ==> ids[j] != ids[k])
  }

  predicate AllLegsPlayed(matches: map<nat, Match>, ids: seq<nat>)
  {
    forall i :: 0 <= i < |ids| ==> ids[i] in matches && matches[ids[i]].played
  }

  predicate LegWins(matches: map<nat, Match>, id: nat, prediction: Result)
  {
    id in matches && matches[id].result == prediction
  }

  /** The accumulator rule: the bet wins only if every leg's prediction is the result. */
  predicate LegsWin(matches: map<nat, Match>, ids: seq<nat>, predictions: seq<Result>)
  {
    |ids| == |predictions| && forall i :: 0 <= i < |ids| ==> LegWins(matches, ids[i], predictions[i])
  }

  /** What claiming the bet pays: twice the stake for a win, nothing otherwise. */
  function Payout(matches: map<nat, Match>, b: StoredBet): nat
  {
    if LegsWin(matches, b.matchIds, b.predictions) then b.amount * PayoutMultiplier else 0
  }

  /** The checks claimBet makes, in order, and the first one that fails. */
  function ClaimCheck(matches: map<nat, Match>, bets: map<nat, StoredBet>, balance: nat, caller: Address, betId: nat): TxResult
  {
    if betId !in bets then Reverted(UnknownBet)
    else if bets[betId].bettor != caller then Reverted(NotBettor)
    else if bets[betId].claimed then Reverted(AlreadyClaimed)
    else if !AllLegsPlayed(matches, bets[betId].matchIds) then Reverted(MatchesNotPlayed)
    else if Payout(matches, bets[betId]) > balance then Reverted(InsufficientBalance)
    else Ok
  }

  /** A single wrong leg loses the whole bet: there is no partial credit. */
  lemma OneWrongLegLoses(matches: map<nat, Match>, b: StoredBet, i: nat)
    requires i < |b.matchIds| && i < |b.predictions|
    requires b.matchIds[i] in matches && matches[b.matchIds[i]].result != b.predictions[i]
    ensures Payout(matches, b) == 0
  {
  }

  /** A played match never has result NotSet, so predicting NotSet never wins. */
  lemma NotSetNeverWins(matches: map<nat, Match>, b: StoredBet, i: nat)
    requires forall id :: id in matches ==> MatchWellFormed(matches[id])
    requires AllLegsPlayed(matches, b.matchIds)
    requires i < |b.matchIds| && i < |b.predictions| && b.predictions[i] == NotSet
    ensures Payout(matches, b) == 0
  {
    assert !LegWins(matches, b.matchIds[i], b.predictions[i]);
  }

  class VirtualAutoFootball {
    const owner: Address
    /** `leagueTeams(league, index)`: the fixed rosters, by league code. */
    const leagueTeams: seq<seq<string>>
    var matchCounter: nat
    var betCounter: nat
    var lastGeneratedTime: int
    /** The contract's ether balance, in wei. */
    var balance: nat
    var matches: map<nat, Match>
    var bets: map<nat, StoredBet>
    /** Running totals of the value that came in and went out. */
    ghost var totalStaked: nat
    ghost var totalPaidOut: nat
    ghost var totalWithdrawn: nat

    ghost predicate Valid()
      reads this
    {
      && RostersValid(leagueTeams)
      && (forall id :: id in matches <==> 1 <= id <= matchCounter)
      && (forall id :: id in matches ==> matches[id].id == id && MatchWellFormed(matches[id]))
      && (forall id :: id in bets <==> 1 <= id <= betCounter)
      && (forall id :: id in bets ==> BetWellFormed(matches, bets[id]))
      && balance + totalPaidOut + totalWithdrawn == totalStaked
    }

    /** Deployment: the deployer becomes the owner and the deployment time counts
        as the last generation, so the first createMatches must wait too. */
    constructor (deployer: Address, now: int, rosters: seq<seq<string>>)
      requires RostersValid(rosters)
      ensures Valid()
      ensures owner == deployer && leagueTeams == rosters && lastGeneratedTime == now
      ensures matchCounter == 0 && betCounter == 0 && balance == 0
      ensures matches == map[] && bets == map[]
    {
      owner := deployer;
      leagueTeams := rosters;
      matchCounter, betCounter := 0, 0;
      lastGeneratedTime := now;
      balance := 0;
      matches, bets := map[], map[];
      totalStaked, totalPaidOut, totalWithdrawn := 0, 0, 0;
    }

    /** `leagueTeams(league, index)`; an index outside the arrays reverts (None). */
    method LeagueTeam(league: nat, index: nat) returns (r: Option<string>)
      requires Valid()
      ensures r.Some? <==> league < 3 && index < |leagueTeams[league]|
      ensures r.Some? ==> r.value == leagueTeams[league][index] && r.value != ""
    {
      if league < 3 && index < |leagueTeams[league]| {
        r := Some(leagueTeams[league][index]);
      } else {
        r := None;
      }
    }

    /** `createMatches()`: once the cooldown has passed, appends one fixture per draw
        with ids matchCounter+1, matchCounter+2, ... and restarts the cooldown. */
    method CreateMatches(now: int, picks: seq<Pick>) returns (r: TxResult)
      requires Valid()
      requires |picks| > 0 && forall k :: 0 <= k < |picks| ==> PickValid(leagueTeams, picks[k])
      modifies this
      ensures Valid()
      ensures r == if CooldownElapsed(old(lastGeneratedTime), now) then Ok else Reverted(CooldownActive)
      ensures r.Ok? ==> matchCounter == old(matchCounter) + |picks| && lastGeneratedTime == now
      ensures r.Ok? ==> forall k :: 0 <= k < |picks| ==>
        matches[old(matchCounter) + 1 + k] == Fixture(old(matchCounter) + 1 + k, picks[k], leagueTeams, now)
      ensures r.Reverted? ==> matchCounter == old(matchCounter) && matches == old(matches)
      ensures r.Reverted? ==> lastGeneratedTime == old(lastGeneratedTime)
      ensures forall id :: id in old(matches) ==> id in matches && matches[id] == old(matches)[id]
      ensures bets == old(bets) && betCounter == old(betCounter) && balance == old(balance)
      ensures totalStaked == old(totalStaked) && totalPaidOut == old(totalPaidOut)
      ensures totalWithdrawn == old(totalWithdrawn)
    {
      if !CooldownElapsed(lastGeneratedTime, now) {
        return Reverted(CooldownActive);
      }
      var i := 0;
      while i < |picks|
        invariant 0 <= i <= |picks|
        invariant matchCounter == old(matchCounter) + i
        invariant forall id :: id in matches <==> 1 <= id <= matchCounter
        invariant forall id :: id in matches ==> matches[id].id == id && MatchWellFormed(matches[id])
        invariant forall id :: id in old(matches) ==> id in matches && matches[id] == old(matches)[id]
        invariant forall k :: 0 <= k < i ==>
          matches[old(matchCounter) + 1 + k] == Fixture(old(matchCounter) + 1 + k, picks[k], leagueTeams, now)
        invariant bets == old(bets) && betCounter == old(betCounter) && balance == old(balance)
        invariant lastGeneratedTime == old(lastGeneratedTime)
        invariant totalStaked == old(totalStaked) && totalPaidOut == old(totalPaidOut)
        invariant totalWithdrawn == old(totalWithdrawn)
      {
        matchCounter := matchCounter + 1;
        matches := matches[matchCounter := Fixture(matchCounter, picks[i], leagueTeams, now)];
        i := i + 1;
      }
      lastGeneratedTime := now;
      forall id | id in bets
        ensures BetWellFormed(matches, bets[id])
      {
        assert BetWellFormed(old(matches), bets[id]);
      }
      r := Ok;
    }

    /** The checks playMatches makes before it plays anything: every id must name
        an existing match that is not yet played, and none may repeat (a repeated
        id would find its match already played). */
    method CheckBatch(ids: seq<nat>) returns (r: TxResult)
      requires Valid()
      ensures r.Ok? <==> PlayableBatch(matches, ids)
      ensures r.Reverted? ==> r.reason == UnknownMatch || r.reason == MatchAlreadyPlayed
    {
      var i := 0;
      while i < |ids|
        invariant 0 <= i <= |ids|
        invariant PlayableBatch(matches, ids[..i])
      {
        var id := ids[i];
        if id !in matches {
          return Reverted(UnknownMatch);
        }
        if matches[id].played || id in ids[..i] {
          if id in ids[..i] {
            var j :| 0 <= j < i && ids[j] == id;
            assert ids[j] == ids[i];
          }
          return Reverted(MatchAlreadyPlayed);
        }
        assert ids[..i + 1] == ids[..i] + [id];
        i := i + 1;
      }
      assert ids[..i] == ids;
      r := Ok;
    }

    /** `playMatches(ids)`: plays every listed match with its score. Whole-batch
        failure on an unknown or already played id (including a repeated id) is a
        modelling assumption. */
    method PlayMatches(ids: seq<nat>, scores: seq<Score>) returns (r: TxResult)
      requires Valid()
      requires |scores| == |ids| && forall k :: 0 <= k < |scores| ==> scores[k].result != NotSet
      modifies this
      ensures Valid()
      ensures r.Ok? <==> PlayableBatch(old(matches), ids)
      ensures r.Reverted? ==> r.reason == UnknownMatch || r.reason == MatchAlreadyPlayed
      ensures r.Ok? ==> forall k :: 0 <= k < |ids| ==>
        ids[k] in matches && matches[ids[k]] == PlayedWith(old(matches)[ids[k]], scores[k])
      ensures r.Ok? ==> forall id :: id in old(matches) && id !in ids ==> id in matches && matches[id] == old(matches)[id]
      ensures r.Reverted? ==> matches == old(matches)
      ensures matches.Keys == old(matches).Keys
      ensures forall id :: id in old(matches) && old(matches)[id].played ==> matches[id] == old(matches)[id]
      ensures matchCounter == old(matchCounter) && lastGeneratedTime == old(lastGeneratedTime)
      ensures bets == old(bets) && betCounter == old(betCounter) && balance == old(balance)
      ensures totalStaked == old(totalStaked) && totalPaidOut == old(totalPaidOut)
      ensures totalWithdrawn == old(totalWithdrawn)
    {
      r := CheckBatch(ids);
      if r.Reverted? {
        return;
      }
      var pending := matches;
      var i := 0;
      while i < |ids|
        invariant 0 <= i <= |ids|
        invariant pending.Keys == matches.Keys
        invariant forall k :: 0 <= k < i ==> pending[ids[k]] == PlayedWith(matches[ids[k]], scores[k])
        invariant forall x :: x in matches && x !in ids[..i] ==> pending[x] == matches[x]
        invariant forall x :: x in pending ==> pending[x].id == x && MatchWellFormed(pending[x])
      {
        var id := ids[i];
        pending := pending[id := PlayedWith(pending[id], scores[i])];
        assert ids[..i + 1] == ids[..i] + [id];
        i := i + 1;
      }
      assert ids[..i] == ids;
      matches := pending;
      forall bid | bid in bets
        ensures BetWellFormed(matches, bets[bid])
      {
        assert BetWellFormed(old(matches), bets[bid]);
      }
      r := Ok;
    }

    /** `placeBet(matchIds, predictions)` with `value` wei attached. Played matches
        are accepted, as the tests require. The shape checks (equal lengths, at
        least one leg, a non-zero stake, existing matches) are modelling assumptions. */
    method PlaceBet(caller: Address, value: nat, matchIds: seq<nat>, predictions: seq<Result>)
      returns (r: TxResult, betId: nat)
      requires Valid()
      modifies this
      ensures Valid()
      ensures r == if |matchIds| != |predictions| || |matchIds| == 0 || value == 0 then Reverted(MalformedBet)
                   else if !LegsExist(old(matches), matchIds) then Reverted(UnknownMatch)
                   else Ok
      ensures r.Ok? ==> betId == old(betCounter) + 1 && betCounter == betId
      ensures r.Ok? ==> bets == old(bets)[betId := StoredBet(caller, value, matchIds, predictions, false)]
      ensures r.Ok? ==> balance == old(balance) + value && totalStaked == old(totalStaked) + value
      ensures r.Reverted? ==> betId == 0 && bets == old(bets) && betCounter == old(betCounter)
      ensures r.Reverted? ==> balance == old(balance) && totalStaked == old(totalStaked)
      ensures matches == old(matches) && matchCounter == old(matchCounter)
      ensures lastGeneratedTime == old(lastGeneratedTime)
      ensures totalPaidOut == old(totalPaidOut) && totalWithdrawn == old(totalWithdrawn)
    {
      if |matchIds| != |predictions| || |matchIds| == 0 || value == 0 {
        return Reverted(MalformedBet), 0;
      }
      var i := 0;
      while i < |matchIds|
        invariant 0 <= i <= |matchIds|
        invariant forall k :: 0 <= k < i ==> matchIds[k] in matches
      {
        if matchIds[i] !in matches {
          return Reverted(UnknownMatch), 0;
        }
        i := i + 1;
      }
      betCounter := betCounter + 1;
      betId := betCounter;
      bets := bets[betId := StoredBet(caller, value, matchIds, predictions, false)];
      balance := balance + value;
      totalStaked := totalStaked + value;
      r := Ok;
    }

    /** `claimBet(betId)`: marks the bet claimed and pays twice the stake if every
        leg is right, nothing if one is wrong. Which claims revert (unknown bet,
        another caller, a second claim, an unplayed leg) is a modelling assumption;
        a payout larger than the balance reverts because the transfer fails. The
        claimed flag is written before the value leaves. */
    method ClaimBet(caller: Address, betId: nat) returns (r: TxResult, paid: nat)
      requires Valid()
      modifies this
      ensures Valid()
      ensures r == ClaimCheck(old(matches), old(bets), old(balance), caller, betId)
      ensures r.Ok? ==> paid == Payout(old(matches), old(bets)[betId])
      ensures r.Ok? ==> bets == old(bets)[betId := old(bets)[betId].(claimed := true)]
      ensures r.Ok? ==> balance == old(balance) - paid && totalPaidOut == old(totalPaidOut) + paid
      ensures r.Reverted? ==> paid == 0 && bets == old(bets) && balance == old(balance)
      ensures r.Reverted? ==> totalPaidOut == old(totalPaidOut)
      ensures matches == old(matches) && matchCounter == old(matchCounter) && betCounter == old(betCounter)
      ensures lastGeneratedTime == old(lastGeneratedTime)
      ensures totalStaked == old(totalStaked) && totalWithdrawn == old(totalWithdrawn)
    {
      if betId !in bets {
        return Reverted(UnknownBet), 0;
      }
      var bet := bets[betId];
      if bet.bettor != caller {
        return Reverted(NotBettor), 0;
      }
      if bet.claimed {
        return Reverted(AlreadyClaimed), 0;
      }
      var won := true;
      var i := 0;
      while i < |bet.matchIds|
        invariant 0 <= i <= |bet.matchIds|
        invariant AllLegsPlayed(matches, bet.matchIds[..i])
        invariant won <==> forall k :: 0 <= k < i ==> LegWins(matches, bet.matchIds[k], bet.predictions[k])
      {
        var m := matches[bet.matchIds[i]];
        if !m.played {
          assert !AllLegsPlayed(matches, bet.matchIds);
          return Reverted(MatchesNotPlayed), 0;
        }
        if m.result != bet.predictions[i] {
          won := false;
        }
        assert bet.matchIds[..i + 1] == bet.matchIds[..i] + [bet.matchIds[i]];
        i := i + 1;
      }
      assert bet.matchIds[..i] == bet.matchIds;
      var payout := if won then bet.amount * PayoutMultiplier else 0;
      if payout > balance {
        return Reverted(InsufficientBalance), 0;
      }
      bets := bets[betId := bet.(claimed := true)];
      balance := balance - payout;
      totalPaidOut := totalPaidOut + payout;
      paid := payout;
      r := Ok;
    }

    /** `ownerWithdraw(amount)`: only the owner; sends exactly `amount` wei. An amount
        above the balance reverts because the transfer fails. */
    method OwnerWithdraw(caller: Address, amount: nat) returns (r: TxResult, sent: nat)
      requires Valid()
      modifies this
      ensures Valid()
      ensures r == if caller != owner then Reverted(OnlyOwner)
                   else if amount > old(balance) then Reverted(InsufficientBalance)
                   else Ok
      ensures r.Ok? ==> sent == amount && balance == old(balance) - amount
      ensures r.Ok? ==> totalWithdrawn == old(totalWithdrawn) + amount
      ensures r.Reverted? ==> sent == 0 && balance == old(balance) && totalWithdrawn == old(totalWithdrawn)
      ensures matches == old(matches) && bets == old(bets)
      ensures matchCounter == old(matchCounter) && betCounter == old(betCounter)
      ensures lastGeneratedTime == old(lastGeneratedTime)
      ensures totalStaked == old(totalStaked) && totalPaidOut == old(totalPaidOut)
    {
      if caller != owner {
        return Reverted(OnlyOwner), 0;
      }
      if amount > balance {
        return Reverted(InsufficientBalance), 0;
      }
      balance := balance - amount;
      totalWithdrawn := totalWithdrawn + amount;
      sent := amount;
      r := Ok;
    }

    /** `getLatestMatches(count)`: the last matches. Only "at most `count`" and the
        bound on the first id are asserted by the tests; the exact length
        min(count, matchCounter), the oldest-first order and the empty result with
        no matches yet are modelling assumptions. */
    method GetLatestMatches(count: nat) returns (r: seq<Match>)
      requires Valid()
      ensures |r| == Min(count, matchCounter)
      ensures forall k :: 0 <= k < |r| ==>
        matchCounter - |r| + 1 + k in matches && r[k] == matches[matchCounter - |r| + 1 + k]
      ensures forall k :: 0 <= k < |r| ==> r[k].id == matchCounter - |r| + 1 + k && r[k].teamA != ""
      ensures |r| <= count
      ensures |r| > 0 ==> r[0].id >= Max(1, matchCounter - count + 1)
    {
      var start := if matchCounter > count then matchCounter - count + 1 else 1;
      r := [];
      var id := start;
      while id <= matchCounter
        invariant start <= id <= Max(start, matchCounter + 1)
        invariant |r| == id - start
        invariant forall k :: 0 <= k < |r| ==> start + k in matches && r[k] == matches[start + k]
      {
        r := r + [matches[id]];
        id := id + 1;
      }
    }

    /** The public `bets(id)` getter; a missing id reads as the zero record. */
    function BetInfo(id: nat): (v: BetView)
      reads this
      requires Valid()
      ensures id in bets ==> v == BetView(bets[id].bettor, bets[id].amount, bets[id].claimed)
      ensures id !in bets ==> v == BetView(ZeroAddress, 0, false)
      ensures v.amount > 0 <==> 1 <= id <= betCounter
    {
      if id in bets then BetView(bets[id].bettor, bets[id].amount, bets[id].claimed)
      else BetView(ZeroAddress, 0, false)
    }
  }
}
