/** The client's contract hook: the helpers it derives from what it has read
    from the chain (cooldown countdown, generation gate, owner test, counters),
    the conversion of the contract's match records to the client's, the
    played/unplayed split, and the argument conversion of the placeBet call. */
module ContractHook {
  import opened Types
  import opened Seqs
  import Ledger

  /** The client's own `5 * 60`. */
  const GenerationInterval: nat := 5 * 60

  /** `getTimeUntilNextGeneration`: nothing to wait for when the last generation
      time has not been read or reads as zero; otherwise the seconds left until
      `last + 300`, never below zero. `nowSeconds` is `Math.floor(Date.now() / 1000)`. */
  function TimeUntilNextGeneration(lastGenerated: Option<nat>, nowSeconds: int): nat
  {
    if lastGenerated.None? || lastGenerated.value == 0 then 0
    else if lastGenerated.value + GenerationInterval - nowSeconds > 0 then lastGenerated.value + GenerationInterval - nowSeconds
    else 0
  }

  /** The countdown is `max(0, last + 300 - now)`, and at most 300 once the
      clock has reached the last generation time. */
  lemma TimeUntilIsClampedGap(last: nat, nowSeconds: int)
    requires last > 0
    ensures TimeUntilNextGeneration(Some(last), nowSeconds) == Max(0, last + GenerationInterval - nowSeconds)
    ensures nowSeconds >= last ==> TimeUntilNextGeneration(Some(last), nowSeconds) <= GenerationInterval
  {
  }

  lemma TimeUntilWithoutLastIsZero(nowSeconds: int)
    ensures TimeUntilNextGeneration(None, nowSeconds) == 0
    ensures TimeUntilNextGeneration(Some(0), nowSeconds) == 0
  {
  }

  /** `canGenerateMatches`. */
  predicate CanGenerateMatches(lastGenerated: Option<nat>, nowSeconds: int)
  {
    TimeUntilNextGeneration(lastGenerated, nowSeconds) == 0
  }

  /** The client's gate agrees with the contract's cooldown: with a known,
      non-zero last generation time it opens exactly when `createMatches` would
      not revert with "Wait 5 minutes". */
  lemma CanGenerateAgreesWithLedger(last: nat, nowSeconds: int)
    requires last > 0
    ensures GenerationInterval == Ledger.CooldownSeconds
    ensures CanGenerateMatches(Some(last), nowSeconds) <==> Ledger.CooldownElapsed(last, nowSeconds)
  {
  }

  /** `toLowerCase` on the ASCII letters an address is written in. */
  function LowerChar(c: char): (l: char)
    ensures !('A' <= l <= 'Z')
    ensures !('A' <= c <= 'Z') ==> l == c
  {
    if 'A' <= c <= 'Z' then (c as int + 32) as char else c
  }

  function Lower(s: string): (r: string)
    ensures |r| == |s|
    ensures forall k :: 0 <= k < |s| ==> r[k] == LowerChar(s[k])
  {
    seq(|s|, k requires 0 <= k < |s| => LowerChar(s[k]))
  }

  /** Lower-casing twice is lower-casing once. */
  lemma LowerIdempotent(s: string)
    ensures Lower(Lower(s)) == Lower(s)
  {
    assert forall k :: 0 <= k < |s| ==> LowerChar(LowerChar(s[k])) == LowerChar(s[k]);
  }

  /** A JavaScript string is truthy when it is not empty. */
  predicate Present(s: Option<string>)
  {
    s.Some? && s.value != ""
  }

  /** `isOwner`: the connected address and the owner read from the chain are both
      present and equal ignoring case. */
  predicate IsOwner(address: Option<string>, owner: Option<string>)
  {
    Present(address) && Present(owner) && Lower(address.value) == Lower(owner.value)
  }

  /** The owner test does not depend on how either address is capitalised, is
      symmetric, and fails whenever either side is missing. */
  lemma IsOwnerIgnoresCase(address: string, owner: string)
    ensures IsOwner(Some(Lower(address)), Some(owner)) == IsOwner(Some(address), Some(owner))
    ensures IsOwner(Some(address), Some(owner)) == IsOwner(Some(owner), Some(address))
    ensures !IsOwner(None, Some(owner)) && !IsOwner(Some(address), None)
  {
    LowerIdempotent(address);
  }

  /** An address is the owner's, in any capitalisation. */
  lemma OwnerRecognisesItself(owner: string)
    requires owner != ""
    ensures IsOwner(Some(owner), Some(owner))
    ensures IsOwner(Some(Lower(owner)), Some(owner))
  {
    LowerIdempotent(owner);
  }

  /** One contract match record in the client's form: `startTime` goes from
      seconds to milliseconds, every other field is copied. */
  function TransformMatch(m: Match): Match
  {
    m.(startTime := m.startTime * 1000)
  }

  /** `transformMatches`: nothing read gives no matches. */
  function TransformMatches(contractMatches: Option<seq<Match>>): (r: seq<Match>)
    ensures contractMatches.None? ==> r == []
    ensures contractMatches.Some? ==> |r| == |contractMatches.value|
  {
    if contractMatches.None? then []
    else seq(|contractMatches.value|, k requires 0 <= k < |contractMatches.value| => TransformMatch(contractMatches.value[k]))
  }

  /** The contract's form of a client match, `startTime` back in seconds. */
  function ToContractMatch(m: Match): Match
  {
    m.(startTime := m.startTime / 1000)
  }

  /** transformMatches keeps the length and the order, scales the start time by
      1000 and copies every other field, so converting back gives the records read. */
  lemma TransformMatchesRoundTrip(ms: seq<Match>)
    ensures |TransformMatches(Some(ms))| == |ms|
    ensures forall k :: 0 <= k < |ms| ==>
      var t := TransformMatches(Some(ms))[k];
      t.startTime == ms[k].startTime * 1000
      && t.id == ms[k].id && t.league == ms[k].league && t.teamA == ms[k].teamA && t.teamB == ms[k].teamB
      && t.goalsA == ms[k].goalsA && t.goalsB == ms[k].goalsB && t.result == ms[k].result && t.played == ms[k].played
    ensures forall k :: 0 <= k < |ms| ==> ToContractMatch(TransformMatches(Some(ms))[k]) == ms[k]
  {
    forall k | 0 <= k < |ms| ensures ToContractMatch(TransformMatches(Some(ms))[k]) == ms[k] {
      assert (ms[k].startTime * 1000) / 1000 == ms[k].startTime;
    }
  }

  function IsPlayed(m: Match): bool { m.played }

  function IsUnplayed(m: Match): bool { !m.played }

  /** `allMatches.filter(match => match.played)`. */
  function PlayedMatches(all: seq<Match>): seq<Match>
  {
    Filter(all, IsPlayed)
  }

  /** `allMatches.filter(match => !match.played)`. */
  function UnplayedMatches(all: seq<Match>): seq<Match>
  {
    Filter(all, IsUnplayed)
  }

  /** The split is a partition: each side holds only its kind, no record is on
      both sides, and together they hold every record as often as the list does. */
  lemma PartitionCovers(all: seq<Match>)
    ensures forall k :: 0 <= k < |PlayedMatches(all)| ==> PlayedMatches(all)[k].played
    ensures forall k :: 0 <= k < |UnplayedMatches(all)| ==> !UnplayedMatches(all)[k].played
    ensures forall k :: 0 <= k < |PlayedMatches(all)| ==> PlayedMatches(all)[k] !in UnplayedMatches(all)
    ensures multiset(PlayedMatches(all)) + multiset(UnplayedMatches(all)) == multiset(all)
    ensures |PlayedMatches(all)| + |UnplayedMatches(all)| == |all|
  {
    FilterSplits(all, IsPlayed, IsUnplayed);
    var p := PlayedMatches(all);
    var u := UnplayedMatches(all);
    forall k | 0 <= k < |p| ensures p[k] !in u {
      assert IsPlayed(p[k]);
    }
  }

  /** Each side keeps the original order: splitting a list in two and splitting
      the halves gives the same sides, in the same order. */
  lemma PartitionKeepsOrder(front: seq<Match>, back: seq<Match>)
    ensures PlayedMatches(front + back) == PlayedMatches(front) + PlayedMatches(back)
    ensures UnplayedMatches(front + back) == UnplayedMatches(front) + UnplayedMatches(back)
  {
    FilterConcat(front, back, IsPlayed);
    FilterConcat(front, back, IsUnplayed);
  }

  /** The arguments the placeBet wrapper sends: the match ids unchanged and
      every prediction as its enum number. */
  datatype PlaceBetArgs = PlaceBetArgs(matchIds: seq<nat>, predictions: seq<nat>)

  function ToPlaceBetArgs(matchIds: seq<nat>, predictions: seq<Result>): (a: PlaceBetArgs)
    ensures |a.matchIds| == |matchIds| && |a.predictions| == |predictions|
  {
    PlaceBetArgs(matchIds, seq(|predictions|, k requires 0 <= k < |predictions| => ResultCode(predictions[k])))
  }

  /** Decoding what the wrapper sends gives back the client's predictions, each
      a valid enum number, element by element. */
  lemma PlaceBetArgsDecode(matchIds: seq<nat>, predictions: seq<Result>)
    ensures var a := ToPlaceBetArgs(matchIds, predictions);
      a.matchIds == matchIds
      && forall k :: 0 <= k < |predictions| ==> a.predictions[k] < 4 && ResultFromCode(a.predictions[k]) == Some(predictions[k])
  {
    forall k | 0 <= k < |predictions| ensures ResultFromCode(ResultCode(predictions[k])) == Some(predictions[k]) {
      ResultCodeRoundTrip(predictions[k]);
    }
  }

  /** `matchCounter ? Number(matchCounter) : 0`, and likewise for betCounter:
      zero until the counter has been read. */
  function CounterOrZero(counter: Option<nat>): (n: nat)
    ensures counter.None? ==> n == 0
    ensures counter.Some? ==> n == counter.value
  {
    if counter.Some? && counter.value != 0 then counter.value else 0
  }
}
