/** The scorer `digit_sum` / `calculate_score` (Pick3_gui.py:26-35): three
    points when a candidate's digit sum hits the target, one point per
    character that is a key digit. */
module Scoring {
  import opened Digits

  /** `KEY_DIGITS` (Pick3_gui.py:7). */
  const KEY_DIGITS: set<int> := {0, 5, 2, 7}
  /** The points for a digit sum equal to the target. */
  const SUM_MATCH_BONUS := 3

  /** `digit_sum(number)`: the sum of `int(d)` over the characters. */
  function DigitSum(number: string): (r: nat)
    requires IsDigitString(number)
    ensures r <= 9 * |number|
  {
    if number == [] then 0 else DigitValue(number[0]) + DigitSum(number[1..])
  }

  predicate IsKeyChar(c: char)
    requires IsDigitChar(c)
  {
    DigitValue(c) in KEY_DIGITS
  }

  /** `sum(1 for d in str(number) if int(d) in KEY_DIGITS)` */
  function KeyCount(number: string): (r: nat)
    requires IsDigitString(number)
    ensures r <= |number|
  {
    if number == [] then 0 else (if IsKeyChar(number[0]) then 1 else 0) + KeyCount(number[1..])
  }

  /** `calculate_score(number, date_sum)` */
  function Score(number: string, dateSum: int): (r: nat)
    requires IsDigitString(number)
    ensures r <= SUM_MATCH_BONUS + |number|
  {
    (if DigitSum(number) == dateSum then SUM_MATCH_BONUS else 0) + KeyCount(number)
  }

  /** The digit sum read off how often each digit occurs. */
  function BagDigitSum(m: multiset<char>): int {
    m['1'] + 2 * m['2'] + 3 * m['3'] + 4 * m['4'] + 5 * m['5']
    + 6 * m['6'] + 7 * m['7'] + 8 * m['8'] + 9 * m['9']
  }

  /** The key-digit count read off how often each key digit occurs. */
  function BagKeyCount(m: multiset<char>): int {
    m['0'] + m['2'] + m['5'] + m['7']
  }

  /** The score as a function of the candidate's digit multiset alone. */
  function BagScore(m: multiset<char>, dateSum: int): int {
    (if BagDigitSum(m) == dateSum then SUM_MATCH_BONUS else 0) + BagKeyCount(m)
  }

  /** Adding one more digit to the bag adds its value and its key mark. */
  lemma BagAddDigit(c: char, m: multiset<char>)
    requires IsDigitChar(c)
    ensures BagDigitSum(multiset{c} + m) == DigitValue(c) + BagDigitSum(m)
    ensures BagKeyCount(multiset{c} + m) == (if IsKeyChar(c) then 1 else 0) + BagKeyCount(m)
  {
    var v := DigitValue(c);
    assert c == DigitChar(v);
    if v < 5 {
      LowDigitAdded(c, m);
    } else {
      HighDigitAdded(c, m);
    }
  }

  lemma LowDigitAdded(c: char, m: multiset<char>)
    requires '0' <= c <= '4'
    ensures BagDigitSum(multiset{c} + m) == DigitValue(c) + BagDigitSum(m)
    ensures BagKeyCount(multiset{c} + m) == (if IsKeyChar(c) then 1 else 0) + BagKeyCount(m)
  {
    if c == '0' {
    } else if c == '1' {
    } else if c == '2' {
    } else if c == '3' {
    } else {
      assert c == '4';
    }
  }

  lemma HighDigitAdded(c: char, m: multiset<char>)
    requires '5' <= c <= '9'
    ensures BagDigitSum(multiset{c} + m) == DigitValue(c) + BagDigitSum(m)
    ensures BagKeyCount(multiset{c} + m) == (if IsKeyChar(c) then 1 else 0) + BagKeyCount(m)
  {
    if c == '5' {
    } else if c == '6' {
    } else if c == '7' {
    } else if c == '8' {
    } else {
      assert c == '9';
    }
  }

  /** Digit sum and key count depend only on which digits occur how often. */
  lemma {:induction false} CountsByBag(number: string)
    requires IsDigitString(number)
    ensures DigitSum(number) == BagDigitSum(multiset(number))
    ensures KeyCount(number) == BagKeyCount(multiset(number))
  {
    if number != [] {
      var c, rest := number[0], number[1..];
      assert number == [c] + rest;
      assert multiset(number) == multiset{c} + multiset(rest);
      CountsByBag(rest);
      BagAddDigit(c, multiset(rest));
    }
  }

  /** The digit sum of joined text is the sum of the parts' digit sums. */
  lemma DigitSumConcat(a: string, b: string)
    requires IsDigitString(a) && IsDigitString(b)
    ensures IsDigitString(a + b)
    ensures DigitSum(a + b) == DigitSum(a) + DigitSum(b)
  {
    assert multiset(a + b) == multiset(a) + multiset(b);
    CountsByBag(a);
    CountsByBag(b);
    CountsByBag(a + b);
  }

  /** `calculate_score` is its score-of-a-digit-multiset. */
  lemma ScoreByBag(number: string, dateSum: int)
    requires IsDigitString(number)
    ensures Score(number, dateSum) == BagScore(multiset(number), dateSum)
  {
    CountsByBag(number);
  }

  /** Rearranging the characters of a candidate leaves its score unchanged. */
  lemma ScorePermutationInvariant(a: string, b: string, dateSum: int)
    requires IsDigitString(a) && IsDigitString(b)
    requires multiset(a) == multiset(b)
    ensures Score(a, dateSum) == Score(b, dateSum)
  {
    ScoreByBag(a, dateSum);
    ScoreByBag(b, dateSum);
  }

  /** A three-digit candidate scores between 0 and 6. */
  lemma ThreeDigitScoreRange(number: string, dateSum: int)
    requires IsDigitString(number) && |number| == 3
    ensures 0 <= Score(number, dateSum) <= 6
  {
  }

  /** "988" against the target 20: 9 + 8 + 8 = 25 misses, and no key digit. */
  lemma DefaultScoreExample(number: string, dateSum: int)
    requires number == "988" && dateSum == 20
    ensures IsDigitString(number) && Score(number, dateSum) == 0
  {
    assert number[1..] == "88" && number[1..][1..] == "8" && number[1..][1..][1..] == "";
    assert DigitValue('9') == 9 && DigitValue('8') == 8;
    var tail1, tail2 := number[1..], number[1..][1..];
    assert DigitSum(tail2) == 8 && KeyCount(tail2) == 0;
    assert DigitSum(tail1) == 16 && KeyCount(tail1) == 0;
    assert DigitSum(number) == 25 && KeyCount(number) == 0;
  }
}
