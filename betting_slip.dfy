/** The betting slip sidebar: the fixed 2x odds, the stake typed by the user,
    the potential win it shows, and the conversion of the slip's picks into
    the parallel arrays of a bet. */
module BettingSlip {
  import opened Types
  import opened Decimal
  import Ledger
  import Page

  /** `calculateTotalOdds`: the contract's fixed payout, whatever the picks. */
  const TotalOdds: nat := 2

  lemma TotalOddsIsLedgerMultiplier()
    ensures TotalOdds == Ledger.PayoutMultiplier
  {
  }

  /** The longest run of digits the text starts with. */
  function LeadingDigits(text: string): (d: string)
    ensures AllDigits(d) && |d| <= |text| && d == text[..|d|]
    ensures |d| < |text| ==> !IsDigit(text[|d|])
  {
    if text == [] || !IsDigit(text[0]) then []
    else [text[0]] + LeadingDigits(text[1..])
  }

  /** Decimal places of an ether amount: one ether is 10^18 wei. */
  const FractionPlaces: nat := 18

  const WeiPerEther: nat := 1_000_000_000_000_000_000

  lemma WeiPerEtherIsPow10()
    ensures WeiPerEther == Pow10(FractionPlaces)
  {
    assert Pow10(3) == 1000 by {
      assert Pow10(1) == 10;
      assert Pow10(2) == 100;
    }
    Pow10Add(3, 3);
    Pow10Add(6, 6);
    Pow10Add(12, 6);
  }

  /** `parseFloat(betAmount)` on a stake written as a decimal number, in wei: the
      leading digits are the whole ether, and a point followed by digits adds the
      fraction. No number (NaN) when the text starts with neither a digit nor a
      point followed by a digit. */
  function ParseAmount(text: string): (a: Option<nat>)
    ensures a.None? <==> (text == [] || !IsDigit(text[0])) && !(|text| >= 2 && text[0] == '.' && IsDigit(text[1]))
  {
    var whole := LeadingDigits(text);
    var fraction := FractionDigits(text);
    if whole == [] && fraction == [] then None
    else Some(ParseDigits(WeiDigits(whole, fraction)))
  }

  /** The digits after a point that follows the leading digits, if any. */
  function FractionDigits(text: string): (d: string)
    ensures AllDigits(d)
  {
    var rest := text[|LeadingDigits(text)|..];
    if rest != [] && rest[0] == '.' then LeadingDigits(rest[1..]) else []
  }

  /** The amount's digits with the point moved 18 places to the right: the
      whole digits, the first 18 fraction digits, and zeros up to 18 places;
      later fraction digits are dropped. */
  function WeiDigits(whole: string, fraction: string): (d: string)
    requires AllDigits(whole) && AllDigits(fraction)
    ensures AllDigits(d) && |d| == |whole| + FractionPlaces && d[..|whole|] == whole
  {
    var kept := fraction[..Min(FractionPlaces, |fraction|)];
    whole + kept + Zeros(FractionPlaces - |kept|)
  }

  /** With at most 18 fraction digits nothing is dropped: the amount is the
      whole ether plus the fraction's tenths, hundredths, ... of an ether. */
  lemma WeiOfDecimal(whole: string, fraction: string)
    requires AllDigits(whole) && AllDigits(fraction) && |fraction| <= FractionPlaces
    ensures ParseDigits(WeiDigits(whole, fraction))
      == ParseDigits(whole) * WeiPerEther + ParseDigits(fraction) * Pow10(FractionPlaces - |fraction|)
  {
    ParseDigitsAppend(whole, fraction);
    var rest := FractionPlaces - |fraction|;
    var shifted, joined := ParseDigits(WeiDigits(whole, fraction)), ParseDigits(whole + fraction);
    var x, p, y, q := ParseDigits(whole), Pow10(|fraction|), ParseDigits(fraction), Pow10(rest);
    assert shifted == joined * q by {
      WeiDigitsOfShort(whole, fraction);
      ShiftByZeros(whole + fraction, rest);
    }
    assert p * q == WeiPerEther by {
      Pow10Add(|fraction|, rest);
      WeiPerEtherIsPow10();
    }
    Combine(shifted, joined, x, p, y, q, WeiPerEther);
  }

  lemma WeiDigitsOfShort(whole: string, fraction: string)
    requires AllDigits(whole) && AllDigits(fraction) && |fraction| <= FractionPlaces
    ensures WeiDigits(whole, fraction) == whole + fraction + Zeros(FractionPlaces - |fraction|)
  {
    assert fraction[..Min(FractionPlaces, |fraction|)] == fraction;
  }

  /** Appending n zeros multiplies by 10^n. */
  lemma ShiftByZeros(s: string, n: nat)
    requires AllDigits(s)
    ensures ParseDigits(s + Zeros(n)) == ParseDigits(s) * Pow10(n)
  {
    ParseDigitsAppend(s, Zeros(n));
    ParseZeros(n);
  }

  lemma Combine(a: nat, b: nat, x: nat, p: nat, y: nat, q: nat, w: nat)
    requires a == b * q && b == x * p + y && p * q == w
    ensures a == x * w + y * q
  {
    assert (x * p + y) * q == x * (p * q) + y * q;
  }

  /** The whole ether of a parsed stake are its leading digits. */
  lemma ParseAmountWholeEther(text: string)
    requires ParseAmount(text).Some?
    ensures ParseAmount(text).value / WeiPerEther == ParseDigits(LeadingDigits(text))
  {
    var whole := LeadingDigits(text);
    var d := WeiDigits(whole, FractionDigits(text));
    var rest := d[|whole|..];
    assert ParseAmount(text).value == ParseDigits(whole) * WeiPerEther + ParseDigits(rest) by {
      assert d == whole + rest;
      ParseDigitsAppend(whole, rest);
      WeiPerEtherIsPow10();
    }
    assert ParseDigits(rest) < WeiPerEther by {
      ParseDigitsBound(rest);
      WeiPerEtherIsPow10();
    }
    DivideOut(ParseDigits(whole), WeiPerEther, ParseDigits(rest));
  }

  /** Scaling by a positive factor keeps a strict order. */
  lemma ScaleBelow(v: nat, p: nat, scale: nat)
    requires v < p && scale >= 1
    ensures v * scale < p * scale
  {
    assert p * scale - v * scale == (p - v) * scale;
  }

  lemma DivideOut(q: nat, d: nat, r: nat)
    requires r < d
    ensures (q * d + r) / d == q
  {
    var x := q * d + r;
    var a, b := x / d, x % d;
    assert a * d + b == q * d + r;
    if a > q {
      assert (a - q) * d == a * d - q * d;
      ScaleBelow(1, a - q, d);
    } else if a < q {
      assert (q - a) * d == q * d - a * d;
      ScaleBelow(1, q - a, d);
    }
  }

  /** A stake written in whole digits is that many ether. */
  lemma ParseAmountOfDigits(s: string)
    requires s != [] && AllDigits(s)
    ensures ParseAmount(s) == Some(ParseDigits(s) * WeiPerEther)
  {
    assert ParseAmount(s) == Some(ParseDigits(WeiDigits(s, []))) by {
      LeadingDigitsStopAt(s, []);
      assert s + [] == s;
      assert FractionDigits(s) == [];
    }
    WeiOfWhole(s);
  }

  /** Whole digits with no fraction are that many ether in wei. */
  lemma WeiOfWhole(s: string)
    requires AllDigits(s)
    ensures ParseDigits(WeiDigits(s, [])) == ParseDigits(s) * WeiPerEther
  {
    assert WeiDigits(s, []) == s + Zeros(FractionPlaces);
    ShiftByZeros(s, FractionPlaces);
    WeiPerEtherIsPow10();
  }

  /** A number's decimal rendering reads back as that many ether. */
  lemma ParseAmountOfNumber(n: nat)
    ensures ParseAmount(NatToString(n)) == Some(n * WeiPerEther)
  {
    ParseAmountOfDigits(NatToString(n));
    ParseNatToString(n);
  }

  /** A stake `whole.fraction` with at most 18 fraction digits reads as exactly
      `whole` ether plus `fraction` tenths, hundredths, ... of an ether. */
  lemma ParseAmountOfDecimal(whole: string, fraction: string)
    requires whole != [] && AllDigits(whole) && AllDigits(fraction) && |fraction| <= FractionPlaces
    ensures ParseAmount(whole + "." + fraction).Some?
    ensures ParseAmount(whole + "." + fraction).value
      == ParseDigits(whole) * WeiPerEther + ParseDigits(fraction) * Pow10(FractionPlaces - |fraction|)
  {
    SplitAtPoint(whole, fraction);
    WeiOfDecimal(whole, fraction);
  }

  /** The leading digits of `whole.fraction` are `whole`, its fraction digits `fraction`. */
  lemma SplitAtPoint(whole: string, fraction: string)
    requires whole != [] && AllDigits(whole) && AllDigits(fraction)
    ensures ParseAmount(whole + "." + fraction) == Some(ParseDigits(WeiDigits(whole, fraction)))
  {
    var tail := "." + fraction;
    var text := whole + tail;
    assert whole + "." + fraction == text;
    assert LeadingDigits(text) == whole by {
      LeadingDigitsStopAt(whole, tail);
    }
    assert FractionDigits(text) == fraction by {
      assert text[|whole|..] == tail;
      assert tail[1..] == fraction;
      LeadingDigitsStopAt(fraction, []);
      assert fraction + [] == fraction;
    }
  }

  /** A stake of "0.5" is half an ether and shows a potential win of one ether. */
  lemma HalfEtherStake()
    ensures ParseAmount("0.5") == Some(WeiPerEther / 2)
    ensures PotentialWin("0.5") == WeiPerEther
  {
    assert "0.5" == "0" + "." + "5";
    ParseAmountOfDecimal("0", "5");
    assert "0"[..0] == [] && "5"[..0] == [];
    assert ParseDigits("0") == 0 && ParseDigits("5") == 5;
    WeiPerEtherIsPow10();
    assert WeiPerEther == 10 * Pow10(FractionPlaces - 1);
  }

  /** The leading digits stop where the digits do. */
  lemma {:induction false} LeadingDigitsStopAt(s: string, rest: string)
    requires AllDigits(s) && (rest == [] || !IsDigit(rest[0]))
    ensures LeadingDigits(s + rest) == s
  {
    if s == [] {
      assert s + rest == rest;
    } else {
      assert (s + rest)[1..] == s[1..] + rest;
      LeadingDigitsStopAt(s[1..], rest);
    }
  }

  /** `parseFloat(betAmount) * totalOdds || 0`. */
  function PotentialWin(text: string): nat
  {
    var a := ParseAmount(text);
    if a.Some? then a.value * TotalOdds else 0
  }

  /** The shown profit, `potentialWin - parseFloat(betAmount)`; no number when
      the stake is not one. */
  function Profit(text: string): Option<int>
  {
    var a := ParseAmount(text);
    if a.Some? then Some(PotentialWin(text) - a.value) else None
  }

  /** The potential win is twice the stake, 0 when the stake is not a number,
      and the profit is the stake itself. */
  lemma PotentialWinDoublesStake(text: string)
    ensures ParseAmount(text).Some? ==> PotentialWin(text) == 2 * ParseAmount(text).value
    ensures ParseAmount(text).Some? ==> Profit(text) == Some(ParseAmount(text).value)
    ensures ParseAmount(text).None? ==> PotentialWin(text) == 0 && Profit(text).None?
  {
  }

  /** `handlePlaceBet`: with an empty stake or an empty slip nothing is emitted
      and the stake stays; otherwise the slip's picks go out as two parallel
      arrays with the parsed stake, and the stake field is cleared. Returns what
      was emitted and the new stake text. */
  function HandlePlaceBet(betAmount: string, slip: seq<Page.SlipEntry>): (r: (Option<BetData>, string))
    ensures betAmount == "" || slip == [] ==> r == (None, betAmount)
    ensures betAmount != "" && slip != [] ==> r.0.Some? && r.1 == ""
  {
    if betAmount == "" || |slip| == 0 then (None, betAmount)
    else
      var ids := seq(|slip|, k requires 0 <= k < |slip| => slip[k].matchId);
      var predictions := seq(|slip|, k requires 0 <= k < |slip| => slip[k].prediction);
      (Some(BetData(ids, predictions, ParseAmount(betAmount))), "")
  }

  /** Pairs the two arrays back into slip entries. */
  function Zip(ids: seq<nat>, predictions: seq<Result>): seq<Page.SlipEntry>
    requires |ids| == |predictions|
  {
    seq(|ids|, k requires 0 <= k < |ids| => Page.SlipEntry(ids[k], predictions[k]))
  }

  /** The emitted arrays have the slip's length, entry `i` of each comes from
      slip entry `i`, and pairing them back gives the slip. */
  lemma EmittedArraysRoundTrip(betAmount: string, slip: seq<Page.SlipEntry>)
    requires betAmount != "" && slip != []
    ensures var bet := HandlePlaceBet(betAmount, slip).0.value;
      |bet.matchIds| == |slip| && |bet.predictions| == |slip|
      && (forall i :: 0 <= i < |slip| ==> bet.matchIds[i] == slip[i].matchId && bet.predictions[i] == slip[i].prediction)
      && Zip(bet.matchIds, bet.predictions) == slip
      && bet.amount == ParseAmount(betAmount)
  {
  }

  /** A slip with one entry per match gives a bet whose legs are distinct matches. */
  lemma EmittedLegsDistinct(betAmount: string, slip: seq<Page.SlipEntry>)
    requires betAmount != "" && slip != [] && Page.UniqueIds(slip)
    ensures var bet := HandlePlaceBet(betAmount, slip).0.value;
      forall i, j :: 0 <= i < j < |bet.matchIds| ==> bet.matchIds[i] != bet.matchIds[j]
  {
  }

  /** The place button is disabled with an empty stake, an empty slip, or a
      placement under way. */
  predicate PlaceButtonDisabled(betAmount: string, slip: seq<Page.SlipEntry>, isPlacing: bool)
  {
    betAmount == "" || |slip| == 0 || isPlacing
  }

  /** Clicking the button when it is enabled always emits a bet, and a stake of
      whole digits emits that many ether. */
  lemma EnabledButtonEmits(betAmount: string, slip: seq<Page.SlipEntry>, isPlacing: bool)
    requires !PlaceButtonDisabled(betAmount, slip, isPlacing)
    ensures HandlePlaceBet(betAmount, slip).0.Some?
    ensures HandlePlaceBet(betAmount, slip).1 == ""
    ensures AllDigits(betAmount) ==>
      HandlePlaceBet(betAmount, slip).0.value.amount == Some(ParseDigits(betAmount) * WeiPerEther)
  {
    if AllDigits(betAmount) {
      ParseAmountOfDigits(betAmount);
    }
  }
}
