/** Shared records of the betting app: the on-chain enums, the match and bet
    records the client works with, and a few small value helpers. */
module Types {

  datatype Option<+T> = None | Some(value: T)

  /** An account address as the client sees it: a hex string such as "0xAbC…". */
  type Address = string

  /** Solidity's uint8, used for goal counts. */
  type Uint8 = x: int | 0 <= x < 256

  /** The address every Solidity mapping returns for a missing entry. */
  const ZeroAddress: Address := "0x0000000000000000000000000000000000000000"

  /** The three leagues, in the order of their on-chain codes 0, 1, 2. */
  datatype League = LaLiga | PremierLeague | SerieA

  /** Match outcomes, in the order of their on-chain codes 0..3; NotSet marks an unplayed match. */
  datatype Result = NotSet | TeamAWin | TeamBWin | Draw

  function LeagueCode(l: League): (c: nat)
    ensures c < 3
    ensures l == LaLiga <==> c == 0
    ensures l == SerieA <==> c == 2
  {
    match l
    case LaLiga => 0
    case PremierLeague => 1
    case SerieA => 2
  }

  /** The number a Result enum value is encoded as in a transaction (`Number(p)`). */
  function ResultCode(r: Result): (c: nat)
    ensures c < 4
    ensures r == NotSet <==> c == 0
  {
    match r
    case NotSet => 0
    case TeamAWin => 1
    case TeamBWin => 2
    case Draw => 3
  }

  /** Decoding of a uint8 enum code; codes beyond the enum are rejected, as the ABI decoder does. */
  function ResultFromCode(c: nat): (r: Option<Result>)
    ensures r.Some? <==> c < 4
  {
    if c == 0 then Some(NotSet)
    else if c == 1 then Some(TeamAWin)
    else if c == 2 then Some(TeamBWin)
    else if c == 3 then Some(Draw)
    else None
  }

  lemma ResultCodeRoundTrip(r: Result)
    ensures ResultFromCode(ResultCode(r)) == Some(r)
    ensures forall c: nat :: ResultFromCode(c) == Some(r) ==> ResultCode(r) == c
  {
  }

  /** A match as both the contract's `matches`/`getLatestMatches` views and the client's
      `Match` interface lay it out; the client's startTime is in milliseconds, the
      contract's in seconds. */
  datatype Match = Match(
    id: nat,
    league: League,
    teamA: string,
    teamB: string,
    goalsA: nat,
    goalsB: nat,
    result: Result,
    startTime: int,
    played: bool)

  /** The client's view of a bet (the id is optional on the client). */
  datatype Bet = Bet(
    id: Option<nat>,
    matchIds: seq<nat>,
    predictions: seq<Result>,
    bettor: Address,
    amount: nat,
    claimed: bool)

  /** What the betting slip hands to its parent: parallel arrays and the parsed amount
      in wei (None stands for the NaN that parseFloat gives for a non-number). */
  datatype BetData = BetData(matchIds: seq<nat>, predictions: seq<Result>, amount: Option<nat>)

  function Max(a: int, b: int): int { if a >= b then a else b }
  function Min(a: int, b: int): int { if a <= b then a else b }
}
