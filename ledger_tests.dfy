/** The Hardhat test suite of the contract, as verified scenarios over the ledger
    model. Every pseudo-random choice (rosters, fixture picks, scores) stays an
    arbitrary input, so each scenario holds for all of them. */
module LedgerTests {
  import opened Types
  import opened Ledger

  /** One ether in wei (`ethers.parseEther("1.0")`). */
  const Ether: nat := 1_000_000_000_000_000_000

  /** Everything the contract's randomness may pick for one round: valid rosters,
      at least three fixtures (the tests bet on matches 1, 2 and 3) and one
      non-NotSet score per fixture. */
  predicate ValidRound(rosters: seq<seq<string>>, picks: seq<Pick>, scores: seq<Score>)
  {
    && RostersValid(rosters)
    && |picks| >= 3
    && (forall k :: 0 <= k < |picks| ==> PickValid(rosters, picks[k]))
    && |scores| == |picks|
    && (forall k :: 0 <= k < |scores| ==> scores[k].result != NotSet)
  }

  /** The tests' `for (let i = 1; i <= matchCounter; i++) createdMatchIds.push(i)`. */
  method CreatedIds(matchCounter: nat) returns (ids: seq<nat>)
    ensures |ids| == matchCounter
    ensures forall k :: 0 <= k < |ids| ==> ids[k] == k + 1
  {
    ids := [];
    var i := 1;
    while i <= matchCounter
      invariant 1 <= i <= matchCounter + 1
      invariant |ids| == i - 1
      invariant forall k :: 0 <= k < |ids| ==> ids[k] == k + 1
    {
      ids := ids + [i];
      i := i + 1;
    }
  }

  /** "Should deploy with all leagues populated": `leagueTeams(l, 0)` is a non-empty
      name for each of the three leagues. */
  method DeployPopulatesLeagues(deployer: Address, t0: int, rosters: seq<seq<string>>)
    returns (laLiga: Option<string>, premierLeague: Option<string>, serieA: Option<string>)
    requires RostersValid(rosters)
    ensures laLiga.Some? && laLiga.value != ""
    ensures premierLeague.Some? && premierLeague.value != ""
    ensures serieA.Some? && serieA.value != ""
  {
    var c := new VirtualAutoFootball(deployer, t0, rosters);
    laLiga := c.LeagueTeam(0, 0);
    premierLeague := c.LeagueTeam(1, 0);
    serieA := c.LeagueTeam(2, 0);
  }

  /** "Should revert if createMatches called before 5 minutes": deployment counts
      as the last generation, so any call within 300 seconds of it reverts and
      creates nothing. */
  method CreateBeforeCooldown(deployer: Address, t0: int, now: int, rosters: seq<seq<string>>, picks: seq<Pick>)
    returns (r: TxResult, matchCounter: nat)
    requires RostersValid(rosters)
    requires |picks| > 0 && forall k :: 0 <= k < |picks| ==> PickValid(rosters, picks[k])
    requires now < t0 + CooldownSeconds
    ensures r == Reverted(CooldownActive) && matchCounter == 0
  {
    var c := new VirtualAutoFootball(deployer, t0, rosters);
    r := c.CreateMatches(now, picks);
    matchCounter := c.matchCounter;
  }

  /** Deploy at t0, wait out the cooldown, create a round and play all of it. */
  method DeployCreateAndPlay(owner: Address, t0: int, now: int, rosters: seq<seq<string>>, picks: seq<Pick>, scores: seq<Score>)
    returns (c: VirtualAutoFootball)
    requires ValidRound(rosters, picks, scores)
    requires now >= t0 + CooldownSeconds
    ensures fresh(c) && c.Valid()
    ensures c.owner == owner && c.matchCounter == |picks|
    ensures c.betCounter == 0 && c.bets == map[] && c.balance == 0
    ensures forall id :: 1 <= id <= |picks| ==>
      id in c.matches && c.matches[id].played && c.matches[id].result == scores[id - 1].result
    ensures forall id :: id in c.matches ==> c.matches[id].teamA != "" && c.matches[id].teamB != ""
  {
    c := new VirtualAutoFootball(owner, t0, rosters);
    var r := c.CreateMatches(now, picks);
    var ids := CreatedIds(c.matchCounter);
    assert PlayableBatch(c.matches, ids) by {
      forall k | 0 <= k < |ids|
        ensures ids[k] in c.matches && !c.matches[ids[k]].played
      {
        assert c.matches[0 + 1 + k] == Fixture(0 + 1 + k, picks[k], rosters, now);
      }
    }
    r := c.PlayMatches(ids, scores);
    forall id | 1 <= id <= |picks|
      ensures id in c.matches && c.matches[id].played && c.matches[id].result == scores[id - 1].result
    {
      assert ids[id - 1] == id;
    }
  }

  /** "Should create matches and then play them after 5 minutes": matchCounter is
      positive and match 1 is played, has a result other than NotSet and two
      named teams. */
  method CreateAndPlay(owner: Address, t0: int, now: int, rosters: seq<seq<string>>, picks: seq<Pick>, scores: seq<Score>)
    returns (matchCounter: nat, match1: Match)
    requires ValidRound(rosters, picks, scores)
    requires now >= t0 + CooldownSeconds
    ensures matchCounter > 0
    ensures match1.id == 1 && match1.played && match1.result != NotSet
    ensures match1.teamA != "" && match1.teamB != ""
  {
    var c := DeployCreateAndPlay(owner, t0, now, rosters, picks, scores);
    matchCounter := c.matchCounter;
    match1 := c.matches[1];
  }

  /** "Should place and store a bet": the first bet gets id 1 and records the
      caller, the attached value and both arrays at their input lengths. */
  method PlaceAndStore(owner: Address, user: Address, t0: int, now: int, rosters: seq<seq<string>>, picks: seq<Pick>)
    returns (betId: nat, view: BetView, stored: StoredBet)
    requires RostersValid(rosters)
    requires |picks| >= 3 && forall k :: 0 <= k < |picks| ==> PickValid(rosters, picks[k])
    requires now >= t0 + CooldownSeconds
    ensures betId == 1
    ensures view == BetView(user, Ether, false)
    ensures stored.matchIds == [1, 2, 3] && stored.predictions == [TeamAWin, TeamBWin, Draw]
  {
    var c := new VirtualAutoFootball(owner, t0, rosters);
    var r := c.CreateMatches(now, picks);
    var placed;
    placed, betId := c.PlaceBet(user, Ether, [1, 2, 3], [TeamAWin, TeamBWin, Draw]);
    view := c.BetInfo(1);
    stored := c.bets[1];
  }

  /** "Should claim a correct bet with payout", as written: the only ether in the
      contract is the 1 ETH stake, so the 2 ETH payout the test expects cannot be
      sent and the claim reverts. */
  method WinningClaimAsTested(owner: Address, user: Address, t0: int, now: int, rosters: seq<seq<string>>, picks: seq<Pick>, scores: seq<Score>)
    returns (r: TxResult, paid: nat, claimed: bool)
    requires ValidRound(rosters, picks, scores)
    requires now >= t0 + CooldownSeconds
    ensures r == Reverted(InsufficientBalance) && paid == 0 && !claimed
  {
    var c := DeployCreateAndPlay(owner, t0, now, rosters, picks, scores);
    var predictions := [c.matches[1].result, c.matches[2].result, c.matches[3].result];
    var placed, betId := c.PlaceBet(user, Ether, [1, 2, 3], predictions);
    assert LegsWin(c.matches, [1, 2, 3], predictions);
    r, paid := c.ClaimBet(user, 1);
    claimed := c.BetInfo(1).claimed;
  }

  /** The winning claim once the pool can cover it: another bettor's 1 ETH stake is
      in the contract, and the claim pays exactly twice the stake and marks the
      bet claimed. */
  method WinningClaimFunded(owner: Address, user: Address, other: Address, t0: int, now: int, rosters: seq<seq<string>>, picks: seq<Pick>, scores: seq<Score>)
    returns (r: TxResult, paid: nat, claimed: bool, balanceAfter: nat)
    requires ValidRound(rosters, picks, scores)
    requires now >= t0 + CooldownSeconds
    ensures r == Ok && paid == 2 * Ether && claimed && balanceAfter == 0
  {
    var c := DeployCreateAndPlay(owner, t0, now, rosters, picks, scores);
    var predictions := [c.matches[1].result, c.matches[2].result, c.matches[3].result];
    var placed, betId := c.PlaceBet(user, Ether, [1, 2, 3], predictions);
    placed, betId := c.PlaceBet(other, Ether, [1], [c.matches[1].result]);
    assert LegsWin(c.matches, [1, 2, 3], predictions);
    r, paid := c.ClaimBet(user, 1);
    claimed := c.BetInfo(1).claimed;
    balanceAfter := c.balance;
  }

  /** A JavaScript value as the tests compare it: ethers v6 reads every uint8 as a
      bigint, while literals such as `1` are numbers. */
  datatype JsValue = JsNumber(n: int) | JsBigInt(b: int)

  /** `===`: a bigint is never strictly equal to a number. */
  predicate StrictEquals(a: JsValue, b: JsValue)
  {
    a == b
  }

  /** `(match1.result === 1) ? 2 : 1`, as written: the comparison is between a
      bigint and a number, so it always yields 1 (TeamAWin). */
  function IncorrectPredictionAsWritten(result: Result): (code: int)
    ensures code == ResultCode(TeamAWin)
  {
    if StrictEquals(JsBigInt(ResultCode(result)), JsNumber(1)) then 2 else 1
  }

  /** When match 1 ends in a home win, the "incorrect" prediction is the result. */
  lemma IncorrectPredictionAsWrittenCanBeRight()
    ensures ResultFromCode(IncorrectPredictionAsWritten(TeamAWin)) == Some(TeamAWin)
  {
  }

  /** What the test means: TeamBWin after a home win, TeamAWin otherwise; never the
      actual result and never NotSet. */
  function IncorrectPrediction(result: Result): (p: Result)
    ensures p != result && p != NotSet
  {
    if result == TeamAWin then TeamBWin else TeamAWin
  }

  /** "Should not payout on an incorrect bet and mark as claimed", as written: when
      match 1 is a home win the bet it places is right, wins 2 ETH, and the claim
      reverts because the contract holds only the 1 ETH stake. The withdrawal test
      sets up its lost bet with the same expression, stake and claim, so as written
      it stops at this revert before the owner withdraws anything. */
  method LosingClaimAsTested(owner: Address, user: Address, t0: int, now: int, rosters: seq<seq<string>>, picks: seq<Pick>, scores: seq<Score>)
    returns (r: TxResult, claimed: bool)
    requires ValidRound(rosters, picks, scores)
    requires now >= t0 + CooldownSeconds
    requires scores[0].result == TeamAWin
    ensures r == Reverted(InsufficientBalance) && !claimed
  {
    var c := DeployCreateAndPlay(owner, t0, now, rosters, picks, scores);
    var prediction := ResultFromCode(IncorrectPredictionAsWritten(c.matches[1].result)).value;
    var placed, betId := c.PlaceBet(user, Ether, [1], [prediction]);
    assert LegsWin(c.matches, [1], [prediction]);
    var paid;
    r, paid := c.ClaimBet(user, 1);
    claimed := c.BetInfo(1).claimed;
  }

  /** Deploy, play a round, and let `user` lose a 1 ETH single on match 1. The
      prediction is the intended wrong one (`IncorrectPrediction`), not the
      always-TeamAWin pick the tests compute. */
  method LoseOneBet(owner: Address, user: Address, t0: int, now: int, rosters: seq<seq<string>>, picks: seq<Pick>, scores: seq<Score>)
    returns (c: VirtualAutoFootball, r: TxResult, paid: nat)
    requires ValidRound(rosters, picks, scores)
    requires now >= t0 + CooldownSeconds
    ensures fresh(c) && c.Valid() && c.owner == owner
    ensures r == Ok && paid == 0
    ensures 1 in c.bets && c.bets[1].claimed && c.balance == Ether
  {
    c := DeployCreateAndPlay(owner, t0, now, rosters, picks, scores);
    var prediction := IncorrectPrediction(c.matches[1].result);
    var legs: seq<nat> := [1];
    var placed, betId := c.PlaceBet(user, Ether, legs, [prediction]);
    assert !LegWins(c.matches, legs[0], [prediction][0]);
    r, paid := c.ClaimBet(user, 1);
  }

  /** "Should not payout on an incorrect bet and mark as claimed", with a prediction
      that is really wrong: the claim succeeds, pays nothing and marks the bet. */
  method LosingClaim(owner: Address, user: Address, t0: int, now: int, rosters: seq<seq<string>>, picks: seq<Pick>, scores: seq<Score>)
    returns (r: TxResult, paid: nat, claimed: bool)
    requires ValidRound(rosters, picks, scores)
    requires now >= t0 + CooldownSeconds
    ensures r == Ok && paid == 0 && claimed
  {
    var c;
    c, r, paid := LoseOneBet(owner, user, t0, now, rosters, picks, scores);
    claimed := c.BetInfo(1).claimed;
  }

  /** "Should allow owner to withdraw funds", with the intended lost bet of
      `LoseOneBet` (as written see `LosingClaimAsTested`): the contract holds a
      positive balance; withdrawing 0.5 ETH sends exactly that to the owner and
      lowers the balance by exactly that. */
  method OwnerWithdrawsHalf(owner: Address, user: Address, t0: int, now: int, rosters: seq<seq<string>>, picks: seq<Pick>, scores: seq<Score>)
    returns (balanceBefore: nat, r: TxResult, sent: nat, balanceAfter: nat)
    requires ValidRound(rosters, picks, scores)
    requires now >= t0 + CooldownSeconds
    ensures balanceBefore > 0
    ensures r == Ok && sent == Ether / 2 && balanceAfter == balanceBefore - Ether / 2
  {
    var c, claim, paid := LoseOneBet(owner, user, t0, now, rosters, picks, scores);
    balanceBefore := c.balance;
    r, sent := c.OwnerWithdraw(owner, Ether / 2);
    balanceAfter := c.balance;
  }

  /** "Should revert if non-owner tries to withdraw funds". */
  method NonOwnerWithdraw(owner: Address, user: Address, t0: int, rosters: seq<seq<string>>)
    returns (r: TxResult, sent: nat)
    requires RostersValid(rosters) && user != owner
    ensures r == Reverted(OnlyOwner) && sent == 0
  {
    var c := new VirtualAutoFootball(owner, t0, rosters);
    r, sent := c.OwnerWithdraw(user, Ether);
  }

  /** "Should return latest matches": at most 5, the first no older than
      max(1, matchCounter - 5 + 1), with a named home team. */
  method LatestMatches(owner: Address, t0: int, now: int, rosters: seq<seq<string>>, picks: seq<Pick>)
    returns (latest: seq<Match>, matchCounter: nat)
    requires RostersValid(rosters)
    requires |picks| > 0 && forall k :: 0 <= k < |picks| ==> PickValid(rosters, picks[k])
    requires now >= t0 + CooldownSeconds
    ensures matchCounter == |picks| && |latest| == Min(5, |picks|)
    ensures |latest| <= 5
    ensures latest[0].id >= Max(1, matchCounter - 5 + 1) && latest[0].teamA != ""
  {
    var c := new VirtualAutoFootball(owner, t0, rosters);
    var r := c.CreateMatches(now, picks);
    latest := c.GetLatestMatches(5);
    matchCounter := c.matchCounter;
  }
}
