/**
 * Ether amounts as exact wei integers: the decimal-to-wei conversion (`parseEther`) and the
 * wei-to-decimal rendering (`formatEther`) the orchestrators rely on, with 18 decimals.
 */
module Units {
  import opened Outcomes
  import opened Decimal

  /** The native currency's decimals. */
  const Decimals: nat := 18

  /** Wei per ether, 10^18. */
  const WeiPerEther: nat := 1_000_000_000_000_000_000

  /** Shifting by the decimals is multiplying by the wei per ether. */
  lemma {:induction false} EtherShift(x: nat)
    ensures Shift(x, Decimals) == x * WeiPerEther
  {
    ShiftIsProduct(x, Decimals);
    assert Shift(1, 1) == 10;
    assert Shift(1, 2) == 100;
    assert Shift(1, 3) == 1000;
    ShiftShift(1, 3, 3);
    ShiftShift(1, 6, 6);
    ShiftShift(1, 12, 6);
  }

  /** `whole` and `fraction` digits joined by a point, or `whole` alone. */
  function DecimalText(whole: string, fraction: string, point: bool): string
  {
    if point then whole + "." + fraction else whole
  }

  /** The wei value of the unsigned decimal `whole.fraction`, rounding half up past the 18th digit. */
  function UnsignedWei(whole: string, fraction: string): nat
    requires AllDigits(whole) && AllDigits(fraction)
  {
    var f := TrimTrailingZeros(fraction);
    if |f| <= Decimals then
      Value(whole) * WeiPerEther + Shift(Value(f), Decimals - |f|)
    else
      Value(whole) * WeiPerEther + Value(f[..Decimals]) + (if f[Decimals] >= '5' then 1 else 0)
  }

  /**
   * `parseEther(text)`: accepts exactly the texts `-?[0-9]*\.?[0-9]*` (so "" and "." denote 0)
   * and gives their value in wei; anything else has no value (the library throws).
   */
  function ParseEther(text: string): Option<int>
  {
    var negative := text != [] && text[0] == '-';
    match ParseUnsignedEther(if negative then text[1..] else text)
    case None => None
    case Some(magnitude) =>
      var wei: int := magnitude;
      Some(if negative then -wei else wei)
  }

  /** The unsigned part of `parseEther`: digits, then optionally a point and more digits. */
  function ParseUnsignedEther(body: string): Option<nat>
  {
    var whole := DigitRun(body);
    var rest := body[|whole|..];
    if rest == [] then Some(UnsignedWei(whole, []))
    else if rest[0] == '.' && AllDigits(rest[1..]) then Some(UnsignedWei(whole, rest[1..]))
    else None
  }

  /** Digits with at most one point among them, described without splitting the text. */
  predicate PointedDigits(s: string)
  {
    && (forall i | 0 <= i < |s| :: IsDigit(s[i]) || s[i] == '.')
    && (forall i, j | 0 <= i < j < |s| && s[i] == '.' :: s[j] != '.')
  }

  /** The texts `parseEther` gives a value for: an optional '-', then digits and at most one point. */
  predicate IsEtherText(text: string)
  {
    PointedDigits(if text != [] && text[0] == '-' then text[1..] else text)
  }

  /** `parseEther` gives a value exactly for the ether texts, and throws for every other text. */
  lemma {:induction false} ParseEtherAccepts(text: string)
    ensures ParseEther(text).Some? <==> IsEtherText(text)
  {
    var body := if text != [] && text[0] == '-' then text[1..] else text;
    UnsignedAccepts(body);
  }

  /** `ParseEtherAccepts` for the text after the sign. */
  lemma {:induction false} UnsignedAccepts(body: string)
    ensures ParseUnsignedEther(body).Some? <==> PointedDigits(body)
  {
    var whole := DigitRun(body);
    var rest := body[|whole|..];
    var n := |whole|;
    assert forall i | 0 <= i < n :: body[i] == whole[i];
    assert forall k | 0 <= k < |rest| :: body[n + k] == rest[k];
    if ParseUnsignedEther(body).Some? {
      if rest != [] {
        assert forall k | 0 < k < |rest| :: IsDigit(rest[k]) by {
          forall k | 0 < k < |rest|
            ensures IsDigit(rest[k])
          {
            assert rest[1..][k - 1] == rest[k];
          }
        }
      }
    } else {
      assert rest != [] && !IsDigit(rest[0]);
      if PointedDigits(body) {
        assert rest[0] == '.';
        assert !AllDigits(rest[1..]);
        var k :| 0 <= k < |rest[1..]| && !IsDigit(rest[1..][k]);
        assert false;
      }
    }
  }

  /** Without rounding, the wei value is the decimal's exact value times 10^18. */
  lemma {:induction false} UnsignedWeiExact(whole: string, fraction: string)
    requires AllDigits(whole) && AllDigits(fraction)
    requires |fraction| <= Decimals
    ensures UnsignedWei(whole, fraction)
         == Value(whole) * WeiPerEther + Shift(Value(fraction), Decimals - |fraction|)
  {
    var f := TrimTrailingZeros(fraction);
    var k := |fraction| - |f|;
    var rest := Decimals - |fraction|;
    assert |f| <= Decimals;
    assert UnsignedWei(whole, fraction) == Value(whole) * WeiPerEther + Shift(Value(f), Decimals - |f|);
    TrimmedValue(fraction);
    assert Value(fraction) == Shift(Value(f), k);
    ShiftShift(Value(f), k, rest);
    assert k + rest == Decimals - |f|;
    assert Shift(Value(fraction), rest) == Shift(Value(f), Decimals - |f|);
    assert UnsignedWei(whole, fraction) == Value(whole) * WeiPerEther + Shift(Value(fraction), rest);
  }

  /** Splitting a decimal text at its point recovers its digit parts. */
  lemma {:induction false} ParseSplits(whole: string, fraction: string, point: bool)
    requires AllDigits(whole) && AllDigits(fraction)
    requires !point ==> fraction == []
    ensures ParseUnsignedEther(DecimalText(whole, fraction, point)) == Some(UnsignedWei(whole, fraction))
  {
    var text := DecimalText(whole, fraction, point);
    var tail := if point then "." + fraction else [];
    assert text == whole + tail;
    DigitRunOf(whole, tail);
    assert text[|whole|..] == tail;
    if point {
      assert tail[1..] == fraction;
    }
  }

  /** An unsigned decimal with at most 18 fractional digits denotes its exact value times 10^18. */
  lemma {:induction false} ParseEtherExact(whole: string, fraction: string, point: bool)
    requires AllDigits(whole) && AllDigits(fraction)
    requires |fraction| <= Decimals
    requires !point ==> fraction == []
    ensures ParseEther(DecimalText(whole, fraction, point))
         == Some(Value(whole) * WeiPerEther + Shift(Value(fraction), Decimals - |fraction|))
  {
    var text := DecimalText(whole, fraction, point);
    ParseSplits(whole, fraction, point);
    UnsignedWeiExact(whole, fraction);
    assert text == [] || text[0] != '-' by {
      if text != [] && whole == [] {
        assert text[0] == '.';
      } else if text != [] {
        assert text[0] == whole[0];
      }
    }
  }

  /** The digits of `wei`, left-padded with zeros to at least 18 of them. */
  function PaddedDigits(wei: nat): (display: string)
    ensures AllDigits(display) && |display| >= Decimals
    ensures Value(display) == wei
  {
    var digits := ToDigits(wei);
    if |digits| < Decimals then
      PaddedValue(Decimals - |digits|, digits);
      Zeros(Decimals - |digits|) + digits
    else digits
  }

  /** The integer digits of `wei` in ether, "0" when it is below one ether. */
  function WholePart(wei: nat): (whole: string)
    ensures AllDigits(whole)
  {
    var display := PaddedDigits(wei);
    var high := display[..|display| - Decimals];
    if high == [] then "0" else high
  }

  /** The 18 fractional digits of `wei` in ether, trailing zeros removed. */
  function FractionPart(wei: nat): (fraction: string)
    ensures AllDigits(fraction) && |fraction| <= Decimals
  {
    var display := PaddedDigits(wei);
    TrimTrailingZeros(display[|display| - Decimals..])
  }

  /** `formatEther(wei)`: the integer part, then a point and the fraction if there is one. */
  function FormatEther(wei: nat): string
  {
    var fraction := FractionPart(wei);
    DecimalText(WholePart(wei), fraction, fraction != [])
  }

  /** A digit string of at least 18 digits, read as ether: integer digits, then 18 fractional ones. */
  lemma {:induction false} SplitAtDecimals(display: string)
    requires AllDigits(display) && |display| >= Decimals
    ensures Value(display)
         == Value(display[..|display| - Decimals]) * WeiPerEther + Value(display[|display| - Decimals..])
  {
    var high := display[..|display| - Decimals];
    var low := display[|display| - Decimals..];
    assert display == high + low;
    ValueAppend(high, low);
    EtherShift(Value(high));
  }

  /** The two parts of the rendering together denote `wei`. */
  lemma {:induction false} FormatEtherParts(wei: nat)
    ensures Value(WholePart(wei)) * WeiPerEther
         + Shift(Value(FractionPart(wei)), Decimals - |FractionPart(wei)|) == wei
  {
    var display := PaddedDigits(wei);
    var high := display[..|display| - Decimals];
    var low := display[|display| - Decimals..];
    SplitAtDecimals(display);
    assert Value(high) * WeiPerEther + Value(low) == wei;
    assert Value(WholePart(wei)) == Value(high) by {
      if high == [] {
        assert Value("0") == 0;
      }
    }
    TrimmedValue(low);
    assert FractionPart(wei) == TrimTrailingZeros(low);
    assert Shift(Value(FractionPart(wei)), Decimals - |FractionPart(wei)|) == Value(low);
  }

  /** Rendering a wei amount and parsing the text back gives the same amount. */
  lemma {:induction false} FormatEtherRoundTrip(wei: nat)
    ensures ParseEther(FormatEther(wei)) == Some(wei)
  {
    var fraction := FractionPart(wei);
    FormatEtherParts(wei);
    ParseEtherExact(WholePart(wei), fraction, fraction != []);
  }
}
