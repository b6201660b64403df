# Pick 3 Lotto Helper — arithmetic core in Dafny

The Pick 3 Lotto Helper is a small desktop form. When the user presses
"Generate Numbers", it takes a start number and a digit-shift pattern and
does four things:

- It builds a *rundown* of ten three-digit candidates. The start number is
  zero-padded, and between emissions each digit is shifted by the matching
  pattern entry, modulo 10.
- It derives today's *date sum*: the sum of the eight digits of the date
  written MMDDYYYY.
- It scores each candidate. A candidate gets 3 points when its digit sum
  equals the date sum, and 1 point for each of its digits in the key set
  {0, 2, 5, 7}.
- It ranks the candidates by descending score with Python's stable sort.

This project models that arithmetic core and proves its properties. The
modules follow the program's components:

| module | file | models |
|---|---|---|
| `Digits` | digits.dfy | `str(n)`, `str.zfill`, `int(c)` and `str(d)` on decimal digits |
| `Sequencer` | sequencer.dfy | `apply_rundown` |
| `Scoring` | scoring.dfy | `KEY_DIGITS`, `digit_sum`, `calculate_score` |
| `DateKey` | datekey.dfy | `get_date_sum` and the `'%m%d%Y'` date format |
| `Ranking` | ranking.dfy | the scoring loop and `sort(key=lambda x: -x[1])` |
| `Generate` | generate.dfy | the computing part of `generate_numbers`, including `[:10]` |

The two loops of the source are methods with loop invariants:
`ApplyRundown` and `ScoreCandidates`. Each is proved equal to a
specification function, `Rundown` and `ScoredList` respectively. Lemmas
state the properties of those functions. `digit_sum`, `calculate_score` and
`get_date_sum` are pure functions. Python's sort is modelled by its result,
`StableSort`, a stable insertion sort. `StableSortUnique` proves that every
non-increasing list that keeps the order of equal-score entries is that same
list, so the model does not depend on how the sort is implemented.

Inputs the source reads from outside are parameters:

- the start number is a `nat`, already parsed;
- the pattern is a `seq<int>`, already parsed;
- today's date is a `Date` value instead of a clock read.

The code checks the shape of neither input, and the model follows the code:

- It does not check that the start has three digits or that the pattern has
  three entries. `zfill(3)` only pads, so a start of 1234 gives "1234" as
  its first string.
- `zip` truncates to the shorter list. So every later string has
  `min(len(str(start).zfill(3)), len(pattern))` digits, extra pattern
  entries are ignored, and nothing fails. `RundownShape` and
  `RundownIgnoresExtraPattern` state this.
- The score range of 0 to 6 holds only for three-character candidates. In
  general the bound is 3 plus the length.

## Model

| member | source | states |
|---|---|---|
| `Digits.DecimalString` | Pick3_gui.py:20 | `str(n)` of a non-negative integer is non-empty digit text, and it has no leading zero when n > 0 |
| `Digits.DecimalStringValue` | Pick3_gui.py:20 | reading back the text `str(n)` gives n again |
| `Digits.DecimalStringLength` | Pick3_gui.py:20 | `str(n)` has at most w characters exactly when n < 10^w |
| `Digits.ZFill` | Pick3_gui.py:20 | `zfill(width)` has length max(len, width) and keeps digit text digit text |
| `Digits.ZFillShape` | Pick3_gui.py:20 | `zfill` only puts '0's in front: the result is (width − len) zeros followed by the text |
| `Digits.ZFillValue` | Pick3_gui.py:20 | zero-padding does not change the number the text denotes |
| `Digits.RenderDigitValues` | Pick3_gui.py:20-22 | joining `str(int(c))` over a digit string gives back the same string |
| `Sequencer.Shift` | Pick3_gui.py:23 | one shift has `min(len(current), len(pattern))` entries: `zip` truncates |
| `Sequencer.ShiftAt` | Pick3_gui.py:23 | entry i of a shift is `(current[i] + pattern[i]) mod 10`, a digit even for negative pattern entries |
| `Sequencer.ApplyRundown` | Pick3_gui.py:18-24 | the loop returns exactly `Rundown(start, pattern)`: ten strings, where string k renders the digits after k shifts |
| `Sequencer.AdvanceClosedForm` | Pick3_gui.py:21-23 | if the pattern covers every digit, digit i after k shifts is `(d_i + k*p_i) mod 10` and no digit is lost |
| `Sequencer.AdvancePeriod` | Pick3_gui.py:21-23 | if the pattern covers every digit, ten more shifts give the same digits (period 10) |
| `Sequencer.AdvanceLength` | Pick3_gui.py:23 | after one or more shifts the length is min(digits, pattern) |
| `Sequencer.ShiftIgnoresExtra` | Pick3_gui.py:23 | pattern entries past the last digit do not affect a shift |
| `Sequencer.AdvanceIgnoresExtra` | Pick3_gui.py:21-23 | pattern entries past the last digit do not affect any number of shifts |
| `Sequencer.RundownShape` | Pick3_gui.py:19-24 | ten strings, all digit text; string 0 is `str(start).zfill(3)` and reads back as start; every later string has min(len of string 0, len(pattern)) digits |
| `Sequencer.RundownStep` | Pick3_gui.py:22-23 | each string after the first is the previous string read back as digits, shifted once by the pattern, and written out again |
| `Sequencer.StartDigitsOfThreeDigits` | Pick3_gui.py:20 | for start ≤ 999 the padded digits are [start/100, start/10 mod 10, start mod 10] |
| `Sequencer.RundownClosedForm` | Pick3_gui.py:20-23 | for start ≤ 999 and a three-entry pattern, every string has 3 digits and digit i of string k is `(d_i + k*p_i) mod 10` |
| `Sequencer.RundownIgnoresExtraPattern` | Pick3_gui.py:23 | once the pattern is at least as long as the padded start, appending entries changes nothing |
| `Sequencer.DefaultRundownStart` | Pick3_gui.py:8-9 | the default input 988 with pattern [3, 1, 7] starts "988", "295" |
| `Scoring.DigitSum` | Pick3_gui.py:26-27 | the digit sum of a string is at most 9 per character |
| `Scoring.KeyCount` | Pick3_gui.py:34 | the key-digit count is at most the number of characters |
| `Scoring.Score` | Pick3_gui.py:29-35 | the score is non-negative and at most 3 plus the candidate's length |
| `Scoring.CountsByBag` | Pick3_gui.py:26-34 | digit sum and key-digit count equal their values computed from how often each digit occurs |
| `Scoring.DigitSumConcat` | Pick3_gui.py:26-27 | the digit sum of joined text is the sum of the parts' digit sums |
| `Scoring.ScoreByBag` | Pick3_gui.py:29-35 | `calculate_score` equals the score computed from the candidate's digit multiset: 3 on a digit-sum hit plus the count of 0s, 2s, 5s and 7s |
| `Scoring.ScorePermutationInvariant` | Pick3_gui.py:29-35 | two candidates with the same multiset of characters have the same score |
| `Scoring.ThreeDigitScoreRange` | Pick3_gui.py:29-35 | a three-digit candidate scores between 0 and 6 |
| `Scoring.DefaultScoreExample` | Pick3_gui.py:29-35 | "988" against the target 20 scores 0 |
| `DateKey.TwoDigitText` | Pick3_gui.py:38 | `%m` and `%d` write a value below 100 as its tens digit and its units digit |
| `DateKey.FourDigitText` | Pick3_gui.py:38 | `%Y` writes a four-digit year as its four digits |
| `DateKey.FormatMDYDigits` | Pick3_gui.py:38 | `strftime('%m%d%Y')` is exactly the eight digits MM DD YYYY |
| `DateKey.DateSumDigits` | Pick3_gui.py:37-38 | `get_date_sum` is the sum of the two month digits, the two day digits and the four year digits |
| `DateKey.DateSumRange` | Pick3_gui.py:37-38 | every date sum lies between 3 (01/01/1000) and 56 (09/29/9999) |
| `DateKey.DateSumExample` | Pick3_gui.py:37-38 | 2024-06-15 ("06152024") has date sum 20 |
| `Ranking.ScoreCandidates` | Pick3_gui.py:54-57 | the loop pairs every candidate, in rundown order, with `calculate_score(num, date_sum)` |
| `Ranking.StableSortPermutation` | Pick3_gui.py:59 | the sorted list is a permutation of the input (same multiset, same length) |
| `Ranking.StableSortOrdered` | Pick3_gui.py:59 | sorting ascending by `-score` leaves the scores non-increasing |
| `Ranking.StableSortKeepsTies` | Pick3_gui.py:59 | stability: for every score, the entries with that score keep their input order |
| `Ranking.OrderedTiesDetermine` | Pick3_gui.py:59 | two non-increasing lists with the same entries per score, in the same order, are equal |
| `Ranking.StableSortUnique` | Pick3_gui.py:59 | any non-increasing list that keeps the input's per-score order is the stable sort of the input |
| `Generate.Take` | Pick3_gui.py:60 | `[:n]` gives the first min(n, len) entries |
| `Generate.GenerateNumbers` | Pick3_gui.py:48-60 | date sum of today's date; rundown as `apply_rundown`; the top-10 list has 10 entries, is a permutation of the scored rundown, has non-increasing scores, and keeps equal-score entries in rundown order |

## Left out

- The tkinter window: widget construction and layout, `mainloop`, writing
  to the output panel, and the emoji formatting (Pick3_gui.py:62-71,
  82-120). This is user-interface code.
- `reset_fields` (Pick3_gui.py:73-80). It only rewrites widget contents.
  The default values it restores are modelled as `DEFAULT_START` and
  `DEFAULT_PATTERN`.
- Parsing the entry text with `int()` (Pick3_gui.py:41-46), and the
  `messagebox.showerror` dialog. The model starts from already parsed
  integers. On a parse error the source returns before anything is
  computed or shown, so nothing below that point runs.
- `datetime.date.today()` (Pick3_gui.py:50). Today's date is a parameter.
- The state and draw selections and the `STATES` / `DRAWS` lists
  (Pick3_gui.py:10-15, 48-49). They are only echoed to the output.
- A negative start number. `str(-5).zfill(3)` is "-05", and `int('-')`
  raises outside the `try` block. The model takes `start: nat`.
- Years below 1000, where the padding of `%Y` depends on the platform.
  `DateKey.IsValid` demands a four-digit year.
- `int(d)` on characters other than ASCII digits. The source raises on
  non-digits and also accepts non-ASCII decimal digits such as '٣'. Every
  candidate it scores is ASCII digit text, so `DigitSum`, `KeyCount` and
  `Score` take ASCII digit strings only.
- The algorithm inside `list.sort` (Timsort). Only its result is modelled.
  `StableSortUnique` shows that any stable sort gives the same list.
