/** The rundown generator `apply_rundown` (Pick3_gui.py:18-24): the start
    number as zero-padded digits, emitted ten times, each digit shifted by
    the matching pattern entry modulo 10 between emissions. */
module Sequencer {
  import opened Digits

  /** `for _ in range(10)`: the number of strings emitted. */
  const EMISSIONS := 10
  /** `zfill(3)`: the minimum width of the start number. */
  const WIDTH := 3
  /** `DEFAULT_START_NUMBER` and `DEFAULT_RUNDOWN_PATTERN`, the form's initial input. */
  const DEFAULT_START: nat := 988
  const DEFAULT_PATTERN: seq<int> := [3, 1, 7]

  /** `[int(d) for d in str(start_num).zfill(3)]` */
  function StartDigits(start: nat): seq<Digit> {
    DigitValues(ZFill(DecimalString(start), WIDTH))
  }

  /** `[(d + p) % 10 for d, p in zip(current, pattern)]`: `zip` stops at the
      shorter list, and Python's `% 10` is never negative, and neither is Dafny's. */
  function Shift(current: seq<Digit>, pattern: seq<int>): (next: seq<Digit>)
    ensures |next| == Min(|current|, |pattern|)
  {
    if current == [] || pattern == [] then []
    else [(current[0] + pattern[0]) % 10] + Shift(current[1..], pattern[1..])
  }

  /** Entry `i` of a shift is `(current[i] + pattern[i]) mod 10`. */
  lemma {:induction false} ShiftAt(current: seq<Digit>, pattern: seq<int>)
    ensures forall i :: 0 <= i < |Shift(current, pattern)| ==>
              Shift(current, pattern)[i] == (current[i] + pattern[i]) % 10
  {
    if current != [] && pattern != [] {
      ShiftAt(current[1..], pattern[1..]);
    }
  }

  /** The value of `current` after `k` passes of the loop. */
  function Advance(digits: seq<Digit>, pattern: seq<int>, k: nat): seq<Digit> {
    if k == 0 then digits else Shift(Advance(digits, pattern, k - 1), pattern)
  }

  /** What `apply_rundown(start, pattern)` returns. */
  function Rundown(start: nat, pattern: seq<int>): seq<string> {
    seq(EMISSIONS, k requires 0 <= k < EMISSIONS => Render(Advance(StartDigits(start), pattern, k)))
  }

  /** `apply_rundown`: append the rendered digits, then shift them, ten times. */
  method ApplyRundown(start: nat, pattern: seq<int>) returns (results: seq<string>)
    ensures results == Rundown(start, pattern)
  {
    results := [];
    var digits := StartDigits(start);
    var current := digits;
    for k := 0 to EMISSIONS
      invariant current == Advance(digits, pattern, k)
      invariant |results| == k
      invariant forall j :: 0 <= j < k ==> results[j] == Render(Advance(digits, pattern, j))
    {
      results := results + [Render(current)];
      current := Shift(current, pattern);
    }
    assert |results| == |Rundown(start, pattern)|;
    assert forall j :: 0 <= j < EMISSIONS ==> results[j] == Rundown(start, pattern)[j];
  }

  lemma ModAddLeft(a: int, b: int)
    ensures (a % 10 + b) % 10 == (a + b) % 10
  {
    var q := a / 10;
    assert a == 10 * q + a % 10;
    ShiftByTens(a % 10 + b, q);
  }

  lemma ShiftByTens(x: int, q: int)
    ensures (x + 10 * q) % 10 == x % 10
  {
  }

  /** Below the length of the pattern, digit `i` after `k` shifts is
      `(d_i + k * p_i) mod 10`, and shifting never drops a digit. */
  lemma {:induction false} AdvanceClosedForm(digits: seq<Digit>, pattern: seq<int>, k: nat)
    requires |digits| <= |pattern|
    ensures |Advance(digits, pattern, k)| == |digits|
    ensures forall i :: 0 <= i < |digits| ==> Advance(digits, pattern, k)[i] == (digits[i] + k * pattern[i]) % 10
  {
    if k > 0 {
      AdvanceClosedForm(digits, pattern, k - 1);
      var prev := Advance(digits, pattern, k - 1);
      forall i | 0 <= i < |digits|
        ensures Advance(digits, pattern, k)[i] == (digits[i] + k * pattern[i]) % 10
      {
        ShiftAt(prev, pattern);
        assert Advance(digits, pattern, k)[i] == (prev[i] + pattern[i]) % 10;
        ClosedFormStep(digits[i], pattern[i], k);
      }
    }
  }

  lemma ClosedFormStep(d: int, p: int, k: nat)
    requires 1 <= k
    ensures ((d + (k - 1) * p) % 10 + p) % 10 == (d + k * p) % 10
  {
    var m := (k - 1) * p;
    assert m + p == k * p;
    ModAddLeft(d + m, p);
  }

  /** Once the pattern covers every digit, ten more shifts give back the
      same digits: the rundown has period 10, so a would-be eleventh string
      would repeat the first. */
  lemma AdvancePeriod(digits: seq<Digit>, pattern: seq<int>, k: nat)
    requires |digits| <= |pattern|
    ensures Advance(digits, pattern, k + EMISSIONS) == Advance(digits, pattern, k)
  {
    AdvanceClosedForm(digits, pattern, k);
    AdvanceClosedForm(digits, pattern, k + EMISSIONS);
    forall i | 0 <= i < |digits|
      ensures Advance(digits, pattern, k + EMISSIONS)[i] == Advance(digits, pattern, k)[i]
    {
      assert (k + EMISSIONS) * pattern[i] == k * pattern[i] + 10 * pattern[i];
      ShiftByTens(digits[i] + k * pattern[i], pattern[i]);
    }
  }

  /** After the first shift every string has the length `zip` gives it. */
  lemma {:induction false} AdvanceLength(digits: seq<Digit>, pattern: seq<int>, k: nat)
    requires 1 <= k
    ensures |Advance(digits, pattern, k)| == Min(|digits|, |pattern|)
  {
    if k > 1 {
      AdvanceLength(digits, pattern, k - 1);
    }
  }

  /** Pattern entries beyond the last digit are never read. */
  lemma {:induction false} ShiftIgnoresExtra(current: seq<Digit>, pattern: seq<int>, extra: seq<int>)
    requires |current| <= |pattern|
    ensures Shift(current, pattern + extra) == Shift(current, pattern)
  {
    if current != [] {
      assert (pattern + extra)[1..] == pattern[1..] + extra;
      ShiftIgnoresExtra(current[1..], pattern[1..], extra);
    }
  }

  lemma {:induction false} AdvanceIgnoresExtra(digits: seq<Digit>, pattern: seq<int>, extra: seq<int>, k: nat)
    requires |digits| <= |pattern|
    ensures Advance(digits, pattern + extra, k) == Advance(digits, pattern, k)
  {
    if k > 0 {
      AdvanceIgnoresExtra(digits, pattern, extra, k - 1);
      AdvanceClosedForm(digits, pattern, k - 1);
      ShiftIgnoresExtra(Advance(digits, pattern, k - 1), pattern, extra);
    }
  }

  /** The shape of every rundown: ten digit strings, the first one
      `str(start).zfill(3)` (which reads back as `start`), each later one `zip`
      truncated to the shorter of the start text and the pattern. */
  lemma RundownShape(start: nat, pattern: seq<int>)
    ensures |Rundown(start, pattern)| == EMISSIONS
    ensures Rundown(start, pattern)[0] == ZFill(DecimalString(start), WIDTH)
    ensures DecimalValue(Rundown(start, pattern)[0]) == start
    ensures forall k :: 0 <= k < EMISSIONS ==> IsDigitString(Rundown(start, pattern)[k])
    ensures forall k :: 1 <= k < EMISSIONS ==>
              |Rundown(start, pattern)[k]| == Min(|Rundown(start, pattern)[0]|, |pattern|)
  {
    var text := ZFill(DecimalString(start), WIDTH);
    ZFillValue(DecimalString(start), WIDTH);
    DecimalStringValue(start);
    RenderDigitValues(text);
    forall k | 1 <= k < EMISSIONS
      ensures |Rundown(start, pattern)[k]| == Min(|text|, |pattern|)
    {
      AdvanceLength(StartDigits(start), pattern, k);
    }
  }

  /** Each string after the first is the one before it, read back as
      digits, shifted once (entry i becomes `(digit_i + pattern[i]) mod 10`,
      see `ShiftAt`) and written out again. */
  lemma RundownStep(start: nat, pattern: seq<int>, k: nat)
    requires 1 <= k < EMISSIONS
    ensures Rundown(start, pattern)[k] == Render(Shift(DigitValues(Rundown(start, pattern)[k - 1]), pattern))
  {
    DigitValuesRender(Advance(StartDigits(start), pattern, k - 1));
  }

  /** For a start of at most three digits and a three-entry pattern every
      string has three digits, and digit `i` of string `k` is
      `(d_i + k * p_i) mod 10` where `d` are the digits of the start. */
  lemma RundownClosedForm(start: nat, pattern: seq<int>)
    requires start <= 999 && |pattern| == WIDTH
    ensures forall k :: 0 <= k < EMISSIONS ==>
              |Rundown(start, pattern)[k]| == WIDTH && IsDigitString(Rundown(start, pattern)[k])
    ensures forall k, i :: 0 <= k < EMISSIONS && 0 <= i < WIDTH ==>
              DigitValue(Rundown(start, pattern)[k][i]) == ([start / 100, start / 10 % 10, start % 10][i] + k * pattern[i]) % 10
  {
    var d := StartDigits(start);
    StartDigitsOfThreeDigits(start);
    AdvanceClosedForm(d, pattern, 0);
    forall k | 0 <= k < EMISSIONS
      ensures |Rundown(start, pattern)[k]| == WIDTH
      ensures forall i :: 0 <= i < WIDTH ==>
                DigitValue(Rundown(start, pattern)[k][i]) == (d[i] + k * pattern[i]) % 10
    {
      AdvanceClosedForm(d, pattern, k);
    }
  }

  /** `str(start).zfill(3)` of a number below 1000 is its hundreds, tens and
      units digit. */
  lemma StartDigitsOfThreeDigits(start: nat)
    requires start <= 999
    ensures StartDigits(start) == [start / 100, start / 10 % 10, start % 10]
  {
    var t := ZFill(DecimalString(start), WIDTH);
    assert Pow10(3) == 1000;
    DecimalStringLength(start, WIDTH);
    assert |t| == WIDTH;
    ZFillValue(DecimalString(start), WIDTH);
    DecimalStringValue(start);
    ThreeDigitValue(t);
    PlaceValues(DigitValue(t[0]), DigitValue(t[1]), DigitValue(t[2]));
  }

  lemma ThreeDigitValue(t: string)
    requires |t| == 3 && IsDigitString(t)
    ensures DecimalValue(t) == 100 * DigitValue(t[0]) + 10 * DigitValue(t[1]) + DigitValue(t[2])
  {
    assert t[..2][..1][..0] == [];
    assert DecimalValue(t[..2][..1]) == DigitValue(t[0]);
    assert DecimalValue(t[..2]) == 10 * DigitValue(t[0]) + DigitValue(t[1]);
  }

  lemma PlaceValues(h: Digit, t: Digit, u: Digit)
    ensures (100 * h + 10 * t + u) / 100 == h
    ensures (100 * h + 10 * t + u) / 10 % 10 == t
    ensures (100 * h + 10 * t + u) % 10 == u
  {
    assert (100 * h + 10 * t + u) / 10 == 10 * h + t;
  }

  /** Pattern entries past the length of the start text change nothing. */
  lemma RundownIgnoresExtraPattern(start: nat, pattern: seq<int>, extra: seq<int>)
    requires |ZFill(DecimalString(start), WIDTH)| <= |pattern|
    ensures Rundown(start, pattern + extra) == Rundown(start, pattern)
  {
    forall k | 0 <= k < EMISSIONS
      ensures Rundown(start, pattern + extra)[k] == Rundown(start, pattern)[k]
    {
      AdvanceIgnoresExtra(StartDigits(start), pattern, extra, k);
    }
  }

  /** The default input, 988 with pattern 3, 1, 7, starts "988", "295". */
  lemma DefaultRundownStart(start: nat, pattern: seq<int>)
    requires start == DEFAULT_START && pattern == DEFAULT_PATTERN
    ensures Rundown(start, pattern)[0] == "988"
    ensures Rundown(start, pattern)[1] == "295"
  {
    var d := StartDigits(start);
    assert d == [9, 8, 8] by {
      StartDigitsOfThreeDigits(start);
    }
    var next := Advance(d, pattern, 1);
    assert next == [2, 9, 5] by {
      assert Advance(d, pattern, 0) == d;
      assert next == Shift(d, pattern);
      ShiftAt(d, pattern);
      assert |next| == 3 && next[0] == 2 && next[1] == 9 && next[2] == 5;
    }
    assert Rundown(start, pattern)[0] == "988" by {
      assert Rundown(start, pattern)[0] == Render(d);
      assert DigitChar(8) == '8' && DigitChar(9) == '9';
    }
    assert Rundown(start, pattern)[1] == "295" by {
      assert Rundown(start, pattern)[1] == Render(next);
      assert DigitChar(2) == '2' && DigitChar(5) == '5' && DigitChar(9) == '9';
    }
  }
}
