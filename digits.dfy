/** Decimal text of non-negative integers, as the helper reads and writes it:
    `str(n)` of a non-negative integer, `str.zfill(width)` of digit text, and
    `int(c)` / `str(d)` between one ASCII digit character and its value. */
module Digits {

  /** The value of one decimal digit. */
  type Digit = d: int | 0 <= d <= 9

  predicate IsDigitChar(c: char) {
    '0' <= c <= '9'
  }

  predicate IsDigitString(s: string) {
    forall i :: 0 <= i < |s| ==> IsDigitChar(s[i])
  }

  function Min(a: int, b: int): int {
    if a <= b then a else b
  }

  function Max(a: int, b: int): int {
    if a <= b then b else a
  }

  function Pow10(e: nat): (p: nat)
    ensures p >= 1
  {
    if e == 0 then 1 else 10 * Pow10(e - 1)
  }

  /** `int(c)` for an ASCII digit character. */
  function DigitValue(c: char): Digit
    requires IsDigitChar(c)
  {
    (c as int) - ('0' as int)
  }

  /** `str(d)` for a single digit. */
  function DigitChar(d: Digit): (c: char)
    ensures IsDigitChar(c) && DigitValue(c) == d
  {
    (('0' as int) + d) as char
  }

  /** `[int(c) for c in s]` */
  function DigitValues(s: string): (ds: seq<Digit>)
    requires IsDigitString(s)
  {
    seq(|s|, i requires 0 <= i < |s| => DigitValue(s[i]))
  }

  /** `"".join(str(d) for d in ds)` */
  function Render(ds: seq<Digit>): (s: string)
    ensures IsDigitString(s)
  {
    seq(|ds|, i requires 0 <= i < |ds| => DigitChar(ds[i]))
  }

  /** `str(n)` for a non-negative integer: most significant digit first, no
      leading zeros (a single "0" for zero). */
  function DecimalString(n: nat): (s: string)
    ensures 1 <= |s| && IsDigitString(s)
    ensures n > 0 ==> s[0] != '0'
  {
    if n < 10 then [DigitChar(n)] else DecimalString(n / 10) + [DigitChar(n % 10)]
  }

  /** The number a string of decimal digits denotes. */
  function DecimalValue(s: string): nat
    requires IsDigitString(s)
  {
    if s == [] then 0 else DecimalValue(s[..|s| - 1]) * 10 + DigitValue(s[|s| - 1])
  }

  /** `s.zfill(width)` for unsigned text: left-pad with '0' up to `width`
      characters, leave longer text as it is. */
  function ZFill(s: string, width: nat): (r: string)
    ensures |r| == Max(|s|, width)
    ensures IsDigitString(s) ==> IsDigitString(r)
    decreases width - |s|
  {
    if |s| < width then ZFill(['0'] + s, width) else s
  }

  /** `zfill` puts only zeros in front and keeps the text itself at the end. */
  lemma {:induction false} ZFillShape(s: string, width: nat)
    ensures ZFill(s, width) == Zeros(Max(|s|, width) - |s|) + s
    decreases width - |s|
  {
    if |s| < width {
      ZFillShape(['0'] + s, width);
      ZerosAppend(width - |s| - 1);
    }
  }

  /** A run of `n` zero characters. */
  function Zeros(n: nat): (z: string)
    ensures |z| == n && forall i :: 0 <= i < n ==> z[i] == '0'
  {
    if n == 0 then [] else ['0'] + Zeros(n - 1)
  }

  lemma {:induction false} ZerosAppend(n: nat)
    ensures Zeros(n) + ['0'] == Zeros(n + 1)
  {
    if n > 0 {
      ZerosAppend(n - 1);
      assert Zeros(n) + ['0'] == ['0'] + (Zeros(n - 1) + ['0']);
    }
  }

  lemma RenderDigitValues(s: string)
    requires IsDigitString(s)
    ensures Render(DigitValues(s)) == s
  {
    var r := Render(DigitValues(s));
    assert |r| == |s|;
    forall i | 0 <= i < |s|
      ensures r[i] == s[i]
    {
      assert DigitValue(r[i]) == DigitValue(s[i]);
    }
  }

  lemma DigitValuesRender(ds: seq<Digit>)
    ensures DigitValues(Render(ds)) == ds
  {
  }

  /** Reading back what `str` writes gives the number again. */
  lemma {:induction false} DecimalStringValue(n: nat)
    ensures DecimalValue(DecimalString(n)) == n
  {
    var s := DecimalString(n);
    if n < 10 {
      assert s[..|s| - 1] == [];
    } else {
      assert s[..|s| - 1] == DecimalString(n / 10);
      DecimalStringValue(n / 10);
    }
  }

  /** `str(n)` has at most `w` characters exactly when `n < 10^w`. */
  lemma {:induction false} DecimalStringLength(n: nat, w: nat)
    requires 1 <= w
    ensures |DecimalString(n)| <= w <==> n < Pow10(w)
  {
    if n >= 10 {
      if w == 1 {
        assert Pow10(1) == 10;
      } else {
        DecimalStringLength(n / 10, w - 1);
        assert n / 10 < Pow10(w - 1) <==> n < 10 * Pow10(w - 1);
      }
    } else {
      PowAtLeastTen(w);
    }
  }

  lemma {:induction false} PowAtLeastTen(w: nat)
    requires 1 <= w
    ensures Pow10(w) >= 10
  {
    if w > 1 {
      PowAtLeastTen(w - 1);
    }
  }

  /** A leading zero does not change the number denoted. */
  lemma {:induction false} LeadingZeroValue(s: string)
    requires IsDigitString(s)
    ensures IsDigitString(['0'] + s) && DecimalValue(['0'] + s) == DecimalValue(s)
  {
    if s != [] {
      var t := ['0'] + s;
      assert t[..|t| - 1] == ['0'] + s[..|s| - 1];
      LeadingZeroValue(s[..|s| - 1]);
    }
  }

  /** Zero-padding keeps digit text digit text and keeps its value. */
  lemma {:induction false} ZFillValue(s: string, width: nat)
    requires IsDigitString(s)
    ensures IsDigitString(ZFill(s, width))
    ensures DecimalValue(ZFill(s, width)) == DecimalValue(s)
    decreases width - |s|
  {
    if |s| < width {
      LeadingZeroValue(s);
      ZFillValue(['0'] + s, width);
    }
  }
}
