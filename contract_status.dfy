/** The contract status card: a warning while the configured address is the
    zero address, a warning while no wallet is connected, and otherwise the
    counters and the time until the next fixture generation. */
module ContractStatus {
  import opened Types
  import Page
  import Decimal
  import ContractHook

  /** `CONTRACT_ADDRESS` as shipped: the placeholder zero address. */
  const ContractAddress: Address := ZeroAddress

  /** `isContractDeployed`. */
  predicate IsContractDeployed(contractAddress: Address)
  {
    contractAddress != ZeroAddress
  }

  /** What the card shows. */
  datatype StatusView =
    | NotDeployed
    | WalletNotConnected
    | Stats(matchCounter: nat, betCounter: nat, nextGeneration: string)

  /** The value the "Next Generation" condition tests, with JavaScript truthiness:
      a function value is always truthy. */
  datatype Condition = FunctionValue | BooleanValue(b: bool)

  predicate Truthy(c: Condition)
  {
    c.FunctionValue? || c.b
  }

  /** `condition ? 'Ready' : formatTime(timeUntilNext)`. */
  function NextGenerationLabel(condition: Condition, timeUntilNext: nat): string
  {
    if Truthy(condition) then "Ready" else Page.FormatTime(timeUntilNext)
  }

  /** The label as written: the condition is the hook's `canGenerateMatches`
      function itself, not its result. */
  function NextGenerationLabelAsWritten(lastGenerated: Option<nat>, nowSeconds: int): string
  {
    NextGenerationLabel(FunctionValue, ContractHook.TimeUntilNextGeneration(lastGenerated, nowSeconds))
  }

  /** The label as intended: the condition is `canGenerateMatches()`. */
  function NextGenerationLabelCorrected(lastGenerated: Option<nat>, nowSeconds: int): string
  {
    NextGenerationLabel(BooleanValue(ContractHook.CanGenerateMatches(lastGenerated, nowSeconds)),
      ContractHook.TimeUntilNextGeneration(lastGenerated, nowSeconds))
  }

  /** As written, the card says "Ready" whatever the cooldown: one second after a
      generation, with 299 seconds still to wait, it already says "Ready". */
  lemma AsWrittenAlwaysReady(lastGenerated: Option<nat>, nowSeconds: int)
    ensures NextGenerationLabelAsWritten(lastGenerated, nowSeconds) == "Ready"
    ensures ContractHook.TimeUntilNextGeneration(Some(1000), 1001) == 299
    ensures NextGenerationLabelAsWritten(Some(1000), 1001) == "Ready"
    ensures !ContractHook.CanGenerateMatches(Some(1000), 1001)
  {
  }

  /** A rendered countdown is never the word "Ready". */
  lemma CountdownIsNotReady(seconds: nat)
    ensures Page.FormatTime(seconds) != "Ready"
  {
    Page.FormatTimeReadsBack(seconds);
    var t := Page.FormatTime(seconds);
    if |t| == 5 {
      assert t[2] == ':';
      assert "Ready"[2] == 'a';
    }
  }

  /** Corrected, the card says "Ready" exactly when generation is open, and
      otherwise shows the remaining time as `m:ss`. */
  lemma CorrectedLabelShowsCooldown(lastGenerated: Option<nat>, nowSeconds: int)
    ensures NextGenerationLabelCorrected(lastGenerated, nowSeconds) == "Ready"
      <==> ContractHook.CanGenerateMatches(lastGenerated, nowSeconds)
    ensures !ContractHook.CanGenerateMatches(lastGenerated, nowSeconds) ==>
      NextGenerationLabelCorrected(lastGenerated, nowSeconds)
        == Page.FormatTime(ContractHook.TimeUntilNextGeneration(lastGenerated, nowSeconds))
  {
    CountdownIsNotReady(ContractHook.TimeUntilNextGeneration(lastGenerated, nowSeconds));
  }

  /** The card's countdown (its own copy of `formatTime`, the same rendering as
      the page's) reads back as the seconds until the next generation: minutes
      before the colon, two digits of seconds after it. */
  lemma CountdownReadsBack(lastGenerated: Option<nat>, nowSeconds: int)
    requires !ContractHook.CanGenerateMatches(lastGenerated, nowSeconds)
    ensures var t := NextGenerationLabelCorrected(lastGenerated, nowSeconds);
      var wait := ContractHook.TimeUntilNextGeneration(lastGenerated, nowSeconds);
      |t| >= 4 && t[|t| - 3] == ':'
      && Decimal.AllDigits(Page.MinutesPart(t)) && Decimal.AllDigits(Page.SecondsPart(t))
      && Decimal.ParseDigits(Page.MinutesPart(t)) == wait / 60
      && Decimal.ParseDigits(Page.SecondsPart(t)) == wait % 60
      && Decimal.ParseDigits(Page.MinutesPart(t)) * 60 + Decimal.ParseDigits(Page.SecondsPart(t)) == wait
  {
    Page.FormatTimeReadsBack(ContractHook.TimeUntilNextGeneration(lastGenerated, nowSeconds));
  }

  /** The card as shipped, an early-return chain; the counters are the hook's
      zero-defaulted reads, and the label is the as-written one. */
  function View(contractAddress: Address, isConnected: bool, matchCounter: Option<nat>, betCounter: Option<nat>,
                lastGenerated: Option<nat>, nowSeconds: int): StatusView
  {
    if !IsContractDeployed(contractAddress) then NotDeployed
    else if !isConnected then WalletNotConnected
    else Stats(ContractHook.CounterOrZero(matchCounter), ContractHook.CounterOrZero(betCounter),
               NextGenerationLabelAsWritten(lastGenerated, nowSeconds))
  }

  /** The card with the corrected label. */
  function ViewCorrected(contractAddress: Address, isConnected: bool, matchCounter: Option<nat>, betCounter: Option<nat>,
                         lastGenerated: Option<nat>, nowSeconds: int): StatusView
  {
    if !IsContractDeployed(contractAddress) then NotDeployed
    else if !isConnected then WalletNotConnected
    else Stats(ContractHook.CounterOrZero(matchCounter), ContractHook.CounterOrZero(betCounter),
               NextGenerationLabelCorrected(lastGenerated, nowSeconds))
  }

  /** The shipped card, once deployed and connected, shows the counters (0 when
      unread) and always "Ready": one second after a generation at 1000 s it
      says "Ready" where the corrected card shows "4:59". */
  lemma ViewAsWrittenSaysReady(contractAddress: Address, matchCounter: Option<nat>, betCounter: Option<nat>,
                               lastGenerated: Option<nat>, nowSeconds: int)
    requires IsContractDeployed(contractAddress)
    ensures View(contractAddress, true, matchCounter, betCounter, lastGenerated, nowSeconds)
      == Stats(if matchCounter.Some? then matchCounter.value else 0,
               if betCounter.Some? then betCounter.value else 0, "Ready")
    ensures View(contractAddress, true, matchCounter, betCounter, Some(1000), 1001).nextGeneration == "Ready"
    ensures ViewCorrected(contractAddress, true, matchCounter, betCounter, Some(1000), 1001).nextGeneration == "4:59"
  {
    AsWrittenAlwaysReady(lastGenerated, nowSeconds);
    assert Page.FormatTime(299) == "4:59" by {
      assert Decimal.NatToString(4) == "4";
      assert Decimal.NatToString(59) == Decimal.NatToString(5) + [Decimal.DigitChar(9)];
    }
  }

  /** The corrected card differs from the shipped one only in the label, and
      only while generation is still closed. */
  lemma ViewsDifferOnlyInLabel(contractAddress: Address, isConnected: bool, matchCounter: Option<nat>, betCounter: Option<nat>,
                               lastGenerated: Option<nat>, nowSeconds: int)
    ensures var v := View(contractAddress, isConnected, matchCounter, betCounter, lastGenerated, nowSeconds);
      var w := ViewCorrected(contractAddress, isConnected, matchCounter, betCounter, lastGenerated, nowSeconds);
      (v.Stats? <==> w.Stats?)
      && (!v.Stats? ==> v == w)
      && (v.Stats? ==> v.matchCounter == w.matchCounter && v.betCounter == w.betCounter)
      && (v.Stats? ==> (v == w <==> ContractHook.CanGenerateMatches(lastGenerated, nowSeconds)))
  {
    AsWrittenAlwaysReady(lastGenerated, nowSeconds);
    CorrectedLabelShowsCooldown(lastGenerated, nowSeconds);
  }

  /** The not-deployed warning wins over the wallet warning, which wins over the
      statistics. */
  lemma ViewPrecedence(contractAddress: Address, isConnected: bool, matchCounter: Option<nat>, betCounter: Option<nat>,
                       lastGenerated: Option<nat>, nowSeconds: int)
    ensures var v := View(contractAddress, isConnected, matchCounter, betCounter, lastGenerated, nowSeconds);
      (v.NotDeployed? <==> contractAddress == ZeroAddress)
      && (v.WalletNotConnected? <==> contractAddress != ZeroAddress && !isConnected)
      && (v.Stats? <==> contractAddress != ZeroAddress && isConnected)
  {
  }

  /** With the shipped configuration the card only ever shows the not-deployed warning. */
  lemma ShippedAddressNeverDeployed(isConnected: bool, matchCounter: Option<nat>, betCounter: Option<nat>,
                                    lastGenerated: Option<nat>, nowSeconds: int)
    ensures !IsContractDeployed(ContractAddress)
    ensures View(ContractAddress, isConnected, matchCounter, betCounter, lastGenerated, nowSeconds) == NotDeployed
  {
  }
}
