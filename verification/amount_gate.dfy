/**
 * The amount gate shared by the HTTP handlers and the web page:
 * `!amount || parseFloat(amount) < 0.001` rejects with one fixed message.
 */
module AmountGate {
  import opened Outcomes
  import opened Decimal
  import opened Units

  /** The minimum transfer, 0.001 ETH, in wei. */
  const MinimumWei: nat := 1_000_000_000_000_000

  const InvalidAmountMessage := "Please enter a valid amount (min 0.001 ETH)"

  /**
   * What `parseFloat` reads, before JavaScript rounds it to a double: (-1)^negative *
   * mantissa * 10^exponent exactly, an infinity, or NaN.
   */
  datatype FloatReading =
    | Finite(negative: bool, mantissa: nat, exponent: int)
    | Infinite(negative: bool)
    | NotANumber

  /** The unsigned part of a reading. */
  datatype Magnitude = Number(mantissa: nat, exponent: int) | Infinity | NoNumber

  /** The characters JavaScript strips as white space before a number. */
  predicate IsJsSpace(c: char)
  {
    var u := c as int;
    || u == 0x09 || u == 0x0A || u == 0x0B || u == 0x0C || u == 0x0D || u == 0x20
    || u == 0xA0 || u == 0x1680 || 0x2000 <= u <= 0x200A || u == 0x2028 || u == 0x2029
    || u == 0x202F || u == 0x205F || u == 0x3000 || u == 0xFEFF
  }

  function TrimStart(s: string): (t: string)
    ensures |t| <= |s| && t == s[|s| - |t|..]
    ensures t == [] || !IsJsSpace(t[0])
  {
    if s != [] && IsJsSpace(s[0]) then TrimStart(s[1..]) else s
  }

  /** The value of a leading `e`/`E` exponent, 0 when there is none. */
  function ExponentPart(s: string): int
  {
    if |s| >= 2 && (s[0] == 'e' || s[0] == 'E') then
      var signed := s[1] == '+' || s[1] == '-';
      var digits := DigitRun(if signed then s[2..] else s[1..]);
      var magnitude: int := if digits == [] then 0 else Value(digits);
      if s[1] == '-' then -magnitude else magnitude
    else 0
  }

  /**
   * `parseFloat(s)`: skips leading white space and reads the longest prefix that is a signed
   * decimal literal (digits, an optional point and digits, an optional exponent) or `Infinity`.
   */
  function ParseFloat(s: string): FloatReading
  {
    var t := TrimStart(s);
    if t != [] && (t[0] == '-' || t[0] == '+') then WithSign(t[0] == '-', ReadMagnitude(t[1..]))
    else WithSign(false, ReadMagnitude(t))
  }

  function WithSign(negative: bool, m: Magnitude): FloatReading
  {
    match m
    case Number(mantissa, exponent) => Finite(negative, mantissa, exponent)
    case Infinity => Infinite(negative)
    case NoNumber => NotANumber
  }

  function ReadMagnitude(u: string): Magnitude
  {
    if |u| >= 8 && u[..8] == "Infinity" then Infinity else ReadDecimal(u)
  }

  /** Digits, then optionally a point and digits, then optionally an exponent. */
  function ReadDecimal(u: string): Magnitude
  {
    var whole := DigitRun(u);
    ReadAfterWhole(whole, u[|whole|..])
  }

  function ReadAfterWhole(whole: string, rest: string): Magnitude
    requires AllDigits(whole)
  {
    if rest != [] && rest[0] == '.' then
      var fraction := DigitRun(rest[1..]);
      Combine(whole, fraction, rest[1 + |fraction|..])
    else Combine(whole, [], rest)
  }

  /** The number written by integer digits, fractional digits and what follows them. */
  function Combine(whole: string, fraction: string, tail: string): Magnitude
    requires AllDigits(whole) && AllDigits(fraction)
  {
    if whole == [] && fraction == [] then NoNumber
    else Number(Shift(Value(whole), |fraction|) + Value(fraction), ExponentPart(tail) - |fraction|)
  }

  /** `reading < 0.001`, decided exactly; NaN compares false. */
  predicate BelowMinimum(reading: FloatReading)
  {
    match reading
    case NotANumber => false
    case Infinite(negative) => negative
    case Finite(negative, mantissa, exponent) =>
      || negative
      || (if exponent + 3 >= 0 then mantissa == 0 else mantissa < Shift(1, -(exponent + 3)))
  }

  /** `!amount || parseFloat(amount) < 0.001`, for an absent or a string amount. */
  predicate RejectsAmount(amount: Option<string>)
  {
    amount == None || amount.value == "" || BelowMinimum(ParseFloat(amount.value))
  }

  lemma {:induction false} MinimumIsShift()
    ensures Shift(1, 15) == MinimumWei
  {
    assert Shift(1, 3) == 1000;
    ShiftShift(1, 3, 3);
    ShiftShift(1, 6, 6);
    ShiftShift(1, 12, 3);
  }

  /** A text starting with a digit or a point is read without trimming or sign. */
  lemma {:induction false} ReadsUnsigned(text: string)
    requires text != [] && (IsDigit(text[0]) || text[0] == '.')
    ensures ParseFloat(text) == WithSign(false, ReadDecimal(text))
  {
    assert TrimStart(text) == text;
    if |text| >= 8 {
      assert text[..8][0] == text[0];
    }
  }

  /** The integer digits are read up to the point or the end of the text. */
  lemma {:induction false} ReadsWholeDigits(whole: string, tail: string)
    requires AllDigits(whole)
    requires tail == [] || tail[0] == '.'
    ensures ReadDecimal(whole + tail) == ReadAfterWhole(whole, tail)
  {
    DigitRunOf(whole, tail);
    assert (whole + tail)[|whole|..] == tail;
  }

  /** After the point, the fractional digits run to the end of the text. */
  lemma {:induction false} ReadsFractionDigits(whole: string, fraction: string)
    requires AllDigits(whole) && AllDigits(fraction)
    ensures ReadAfterWhole(whole, "." + fraction) == Combine(whole, fraction, [])
  {
    var rest := "." + fraction;
    assert rest[1..] == fraction + [];
    DigitRunOf(fraction, []);
    assert rest[1 + |fraction|..] == [];
  }

  /** Digits with nothing after them carry no exponent. */
  lemma {:induction false} CombineWithoutExponent(whole: string, fraction: string)
    requires AllDigits(whole) && AllDigits(fraction)
    requires |whole| + |fraction| >= 1
    ensures Combine(whole, fraction, []) == Number(Shift(Value(whole), |fraction|) + Value(fraction), -|fraction|)
  {
    assert ExponentPart([]) == 0;
  }

  /** The magnitude of a plain unsigned decimal: its digits over 10 to the number of fractional digits. */
  lemma {:induction false} PlainDecimalMagnitude(whole: string, fraction: string, point: bool)
    requires AllDigits(whole) && AllDigits(fraction)
    requires !point ==> fraction == []
    requires |whole| + |fraction| >= 1
    ensures ReadDecimal(DecimalText(whole, fraction, point))
         == Number(Shift(Value(whole), |fraction|) + Value(fraction), -|fraction|)
  {
    var tail := if point then "." + fraction else [];
    assert DecimalText(whole, fraction, point) == whole + tail;
    ReadsWholeDigits(whole, tail);
    if point {
      ReadsFractionDigits(whole, fraction);
    } else {
      assert ReadAfterWhole(whole, []) == Combine(whole, [], []);
    }
    CombineWithoutExponent(whole, fraction);
  }

  /** A plain unsigned decimal reads as its digits over 10 to the number of fractional digits. */
  lemma {:induction false} PlainDecimalReading(whole: string, fraction: string, point: bool)
    requires AllDigits(whole) && AllDigits(fraction)
    requires !point ==> fraction == []
    requires |whole| + |fraction| >= 1
    ensures ParseFloat(DecimalText(whole, fraction, point))
         == Finite(false, Shift(Value(whole), |fraction|) + Value(fraction), -|fraction|)
  {
    var text := DecimalText(whole, fraction, point);
    assert IsDigit(text[0]) || text[0] == '.' by {
      if whole == [] {
        assert text[0] == '.';
      } else {
        assert text[0] == whole[0];
      }
    }
    ReadsUnsigned(text);
    PlainDecimalMagnitude(whole, fraction, point);
  }

  /** The wei value of a decimal is its digits shifted by the missing fractional digits. */
  lemma {:induction false} ScaledMantissa(x: nat, y: nat, k: nat)
    requires k <= Decimals
    ensures x * WeiPerEther + Shift(y, Decimals - k) == Shift(Shift(x, k) + y, Decimals - k)
  {
    ShiftAdd(Shift(x, k), y, Decimals - k);
    ShiftShift(x, k, Decimals - k);
    EtherShift(x);
  }

  /** A reading m * 10^-k is below 0.001 exactly when m * 10^(18-k) wei is below the minimum. */
  lemma {:induction false} BelowMinimumScaled(m: nat, k: nat)
    requires k <= Decimals
    ensures BelowMinimum(Finite(false, m, -(k as int))) <==> Shift(m, Decimals - k) < MinimumWei
  {
    MinimumIsShift();
    if k <= 3 {
      ShiftShift(m, 3 - k, 15);
      ShiftLess(Shift(m, 3 - k), 1, 15);
      if m == 0 {
        ShiftZero(3 - k);
      }
    } else {
      ShiftShift(1, k - 3, Decimals - k);
      ShiftLess(m, Shift(1, k - 3), Decimals - k);
    }
  }

  /**
   * Over plain decimals with at most 18 fractional digits the gate rejects exactly the
   * amounts whose wei value is below 10^15.
   */
  lemma {:induction false} GateMatchesWei(whole: string, fraction: string, point: bool)
    requires AllDigits(whole) && AllDigits(fraction)
    requires !point ==> fraction == []
    requires |whole| + |fraction| >= 1 && |fraction| <= Decimals
    ensures ParseEther(DecimalText(whole, fraction, point)).Some?
    ensures RejectsAmount(Some(DecimalText(whole, fraction, point)))
        <==> ParseEther(DecimalText(whole, fraction, point)).value < MinimumWei
  {
    var k := |fraction|;
    var text := DecimalText(whole, fraction, point);
    var m := Shift(Value(whole), k) + Value(fraction);
    ParseEtherExact(whole, fraction, point);
    ScaledMantissa(Value(whole), Value(fraction), k);
    var wei := ParseEther(text).value;
    assert wei == Shift(m, Decimals - k);
    PlainDecimalReading(whole, fraction, point);
    assert text != [];
    assert RejectsAmount(Some(text)) == BelowMinimum(Finite(false, m, -k));
    BelowMinimumScaled(m, k);
  }

  /** Half the minimum, "0.0005", is rejected. */
  lemma {:induction false} HalfMinimumRejected()
    ensures RejectsAmount(Some("0.0005"))
  {
    LastDigitValue("0");
    LastDigitValue("0005");
    assert "0.0005" == DecimalText("0", "0005", true);
    PlainDecimalReading("0", "0005", true);
    assert Shift(0, 4) + 5 == 5 by {
      ShiftZero(4);
    }
    assert Shift(1, 1) == 10;
  }

  /** The minimum itself, "0.001", passes the gate. */
  lemma {:induction false} MinimumAccepted()
    ensures !RejectsAmount(Some("0.001"))
  {
    LastDigitValue("0");
    LastDigitValue("001");
    assert "0.001" == DecimalText("0", "001", true);
    PlainDecimalReading("0", "001", true);
    assert Shift(0, 3) + 1 == 1 by {
      ShiftZero(3);
    }
  }

  /** A missing amount, an empty one and a negative one are all rejected. */
  lemma GateRejectsMissingEmptyNegative()
    ensures RejectsAmount(None) && RejectsAmount(Some(""))
    ensures RejectsAmount(Some("-1"))
  {
    assert ParseFloat("-1").Finite? && ParseFloat("-1").negative by {
      assert TrimStart("-1") == "-1";
    }
  }

  /** A text `parseFloat` cannot read at all (NaN) is not rejected. */
  lemma UnreadablePasses(amount: string)
    requires amount != "" && ParseFloat(amount) == NotANumber
    ensures !RejectsAmount(Some(amount))
  {
  }

  /** "." is NaN to `parseFloat`, so it passes the gate, yet `parseEther` reads it as 0 wei. */
  lemma {:induction false} LonePointPasses()
    ensures !RejectsAmount(Some("."))
    ensures ParseEther(".") == Some(0)
  {
    ReadsUnsigned(".");
    DigitRunOf([], ".");
    assert [] + "." == ".";
    assert "."[0..] == ".";
    assert "."[1..] == [];
    assert ReadDecimal(".") == Combine([], [], []);
    ParseEtherExact([], [], true);
    assert DecimalText([], [], true) == ".";
    assert Value([]) == 0;
    ShiftZero(Decimals);
  }
}
