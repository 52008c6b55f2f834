/** Decimal digit strings and their values: the arithmetic under wei conversion and number parsing. */
module Decimal {

  /** `x` followed by `k` decimal zeros, that is x * 10^k. */
  function Shift(x: nat, k: nat): (r: nat)
    ensures x >= 1 ==> r >= 1
  {
    if k == 0 then x else Shift(x, k - 1) * 10
  }

  /** Shifting by `a` and then by `b` is shifting by `a + b`. */
  lemma {:induction false} ShiftShift(x: nat, a: nat, b: nat)
    ensures Shift(Shift(x, a), b) == Shift(x, a + b)
  {
    if b > 0 {
      ShiftShift(x, a, b - 1);
    }
  }

  /** Shifting both sides by the same amount preserves and reflects strict order. */
  lemma {:induction false} ShiftLess(x: nat, y: nat, k: nat)
    ensures Shift(x, k) < Shift(y, k) <==> x < y
  {
    if k > 0 {
      ShiftLess(x, y, k - 1);
    }
  }

  /** Shifting is multiplying by a shifted one. */
  lemma {:induction false} ShiftIsProduct(x: nat, k: nat)
    ensures Shift(x, k) == x * Shift(1, k)
  {
    if k > 0 {
      ShiftIsProduct(x, k - 1);
      assert x * Shift(1, k - 1) * 10 == x * (Shift(1, k - 1) * 10);
    }
  }

  /** Shifting distributes over addition. */
  lemma {:induction false} ShiftAdd(x: nat, y: nat, k: nat)
    ensures Shift(x + y, k) == Shift(x, k) + Shift(y, k)
  {
    if k > 0 {
      ShiftAdd(x, y, k - 1);
    }
  }

  /** Zero stays zero under any shift. */
  lemma {:induction false} ShiftZero(k: nat)
    ensures Shift(0, k) == 0
  {
    if k > 0 {
      ShiftZero(k - 1);
    }
  }

  predicate IsDigit(c: char)
  {
    '0' <= c <= '9'
  }

  predicate AllDigits(s: string)
  {
    forall i | 0 <= i < |s| :: IsDigit(s[i])
  }

  function DigitValue(c: char): (d: nat)
    requires IsDigit(c)
    ensures d < 10
  {
    c as int - '0' as int
  }

  function DigitChar(d: nat): (c: char)
    requires d < 10
    ensures IsDigit(c) && DigitValue(c) == d
  {
    ('0' as int + d) as char
  }

  /** The number a string of decimal digits denotes, most significant digit first; "" denotes 0. */
  function Value(s: string): nat
    requires AllDigits(s)
  {
    if s == [] then 0 else Value(s[..|s| - 1]) * 10 + DigitValue(s[|s| - 1])
  }

  /** `n.toString()` for a non-negative integer: its digits, without leading zeros. */
  function ToDigits(n: nat): (s: string)
    ensures AllDigits(s) && |s| >= 1
    ensures Value(s) == n
    ensures |s| > 1 ==> s[0] != '0'
  {
    if n < 10 then [DigitChar(n)]
    else
      var high := ToDigits(n / 10);
      var s := high + [DigitChar(n % 10)];
      assert s[..|s| - 1] == high;
      s
  }

  /** A run of `k` zero characters. */
  function Zeros(k: nat): (z: string)
    ensures |z| == k && AllDigits(z)
    ensures forall i | 0 <= i < k :: z[i] == '0'
  {
    if k == 0 then [] else Zeros(k - 1) + ['0']
  }

  lemma {:induction false} ZerosValue(k: nat)
    ensures Value(Zeros(k)) == 0
  {
    if k > 0 {
      ZerosValue(k - 1);
      assert Zeros(k)[..k - 1] == Zeros(k - 1);
    }
  }

  /** A run of '0' characters denotes 0. */
  lemma {:induction false} ZeroRunValue(s: string)
    requires forall i | 0 <= i < |s| :: s[i] == '0'
    ensures AllDigits(s) && Value(s) == 0
  {
    if s != [] {
      ZeroRunValue(s[..|s| - 1]);
    }
  }

  /** Digits that are all '0' but the last denote the last digit's value. */
  lemma {:induction false} LastDigitValue(s: string)
    requires |s| >= 1 && IsDigit(s[|s| - 1])
    requires forall i | 0 <= i < |s| - 1 :: s[i] == '0'
    ensures AllDigits(s) && Value(s) == DigitValue(s[|s| - 1])
  {
    ZeroRunValue(s[..|s| - 1]);
  }

  /** Appending digits shifts the value left by their count and adds theirs. */
  lemma {:induction false} ValueAppend(a: string, b: string)
    requires AllDigits(a) && AllDigits(b)
    ensures AllDigits(a + b)
    ensures Value(a + b) == Shift(Value(a), |b|) + Value(b)
  {
    if b == [] {
      assert a + b == a;
    } else {
      var b' := b[..|b| - 1];
      var c := b[|b| - 1];
      ValueAppend(a, b');
      assert a + b == (a + b') + [c];
      AppendDigitValue(a + b', c);
      assert b == b' + [c];
      AppendDigitValue(b', c);
    }
  }

  lemma {:induction false} AppendDigitValue(s: string, c: char)
    requires AllDigits(s) && IsDigit(c)
    ensures AllDigits(s + [c]) && Value(s + [c]) == Value(s) * 10 + DigitValue(c)
  {
    assert (s + [c])[..|s|] == s;
  }

  /** Leading zeros do not change a value. */
  lemma {:induction false} PaddedValue(k: nat, s: string)
    requires AllDigits(s)
    ensures AllDigits(Zeros(k) + s) && Value(Zeros(k) + s) == Value(s)
  {
    ValueAppend(Zeros(k), s);
    ZerosValue(k);
    ShiftZero(|s|);
  }

  /** The longest prefix of `s` made of decimal digits. */
  function DigitRun(s: string): (r: string)
    ensures AllDigits(r) && |r| <= |s| && r == s[..|r|]
    ensures |r| == |s| || !IsDigit(s[|r|])
  {
    if s != [] && IsDigit(s[0]) then [s[0]] + DigitRun(s[1..]) else []
  }

  /** The digit run of digits followed by a non-digit (or by nothing) is exactly those digits. */
  lemma {:induction false} DigitRunOf(a: string, b: string)
    requires AllDigits(a)
    requires b == [] || !IsDigit(b[0])
    ensures DigitRun(a + b) == a
  {
    if a == [] {
      assert a + b == b;
    } else {
      assert (a + b)[1..] == a[1..] + b;
      DigitRunOf(a[1..], b);
    }
  }

  /** `s` with its trailing '0' characters removed. */
  function TrimTrailingZeros(s: string): (t: string)
    ensures |t| <= |s| && t == s[..|t|]
    ensures AllDigits(s) ==> AllDigits(t)
    ensures t == [] || t[|t| - 1] != '0'
    ensures forall i | |t| <= i < |s| :: s[i] == '0'
  {
    if s != [] && s[|s| - 1] == '0' then TrimTrailingZeros(s[..|s| - 1]) else s
  }

  /** Trimming trailing zeros divides the value by 10 per removed zero. */
  lemma {:induction false} TrimmedValue(s: string)
    requires AllDigits(s)
    ensures Value(s) == Shift(Value(TrimTrailingZeros(s)), |s| - |TrimTrailingZeros(s)|)
  {
    var t := TrimTrailingZeros(s);
    var k := |s| - |t|;
    assert s == t + s[|t|..];
    assert s[|t|..] == Zeros(k);
    ValueAppend(t, Zeros(k));
    ZerosValue(k);
  }
}
