/** The ranking step of `generate_numbers` (Pick3_gui.py:54-59): pair each
    candidate with its score, then `sort(key=lambda x: -x[1])`, which is
    Python's stable sort ascending by the negated score. */
module Ranking {
  import opened Digits
  import opened Scoring

  /** One `(num, score)` entry of `scored_numbers`. */
  datatype Scored = Scored(num: string, score: int)

  predicate AllDigitStrings(nums: seq<string>) {
    forall i :: 0 <= i < |nums| ==> IsDigitString(nums[i])
  }

  /** `scored_numbers` once the scoring loop is done: each candidate with its
      score, in rundown order. */
  function ScoredList(nums: seq<string>, dateSum: int): seq<Scored>
    requires AllDigitStrings(nums)
  {
    seq(|nums|, i requires 0 <= i < |nums| => Scored(nums[i], Score(nums[i], dateSum)))
  }

  /** The scoring loop of `generate_numbers` (Pick3_gui.py:54-57). */
  method ScoreCandidates(nums: seq<string>, dateSum: int) returns (scored: seq<Scored>)
    requires AllDigitStrings(nums)
    ensures scored == ScoredList(nums, dateSum)
  {
    scored := [];
    for i := 0 to |nums|
      invariant |scored| == i
      invariant forall j :: 0 <= j < i ==> scored[j] == Scored(nums[j], Score(nums[j], dateSum))
    {
      var score := Score(nums[i], dateSum);
      scored := scored + [Scored(nums[i], score)];
    }
  }

  /** `key=lambda x: -x[1]` */
  function SortKey(p: Scored): int {
    -p.score
  }

  /** Insert `x`, which stood before every element of `ys`, ahead of the
      first element whose key is not smaller than its own. */
  function Insert(x: Scored, ys: seq<Scored>): seq<Scored> {
    if ys == [] || SortKey(x) <= SortKey(ys[0]) then [x] + ys
    else [ys[0]] + Insert(x, ys[1..])
  }

  /** What `list.sort(key=SortKey)` leaves in the list: the elements in
      ascending key order, ties in their original order. */
  function StableSort(s: seq<Scored>): seq<Scored> {
    if s == [] then [] else Insert(s[0], StableSort(s[1..]))
  }

  predicate ScoresNonIncreasing(s: seq<Scored>) {
    forall i, j :: 0 <= i < j < |s| ==> s[i].score >= s[j].score
  }

  /** The entries with score `k`, in the order they appear. */
  function WithScore(s: seq<Scored>, k: int): seq<Scored> {
    if s == [] then [] else (if s[0].score == k then [s[0]] else []) + WithScore(s[1..], k)
  }

  lemma {:induction false} InsertPermutation(x: Scored, ys: seq<Scored>)
    ensures multiset(Insert(x, ys)) == multiset{x} + multiset(ys)
  {
    if ys != [] && SortKey(x) > SortKey(ys[0]) {
      InsertPermutation(x, ys[1..]);
      assert ys == [ys[0]] + ys[1..];
    }
  }

  lemma {:induction false} InsertOrdered(x: Scored, ys: seq<Scored>)
    requires ScoresNonIncreasing(ys)
    ensures ScoresNonIncreasing(Insert(x, ys))
  {
    if ys != [] && SortKey(x) > SortKey(ys[0]) {
      var rest := Insert(x, ys[1..]);
      InsertOrdered(x, ys[1..]);
      InsertPermutation(x, ys[1..]);
      forall j | 0 <= j < |rest|
        ensures ys[0].score >= rest[j].score
      {
        assert rest[j] in multiset(rest);
        if rest[j] != x {
          assert rest[j] in multiset(ys[1..]);
          var m :| 0 <= m < |ys[1..]| && ys[1..][m] == rest[j];
          assert ys[m + 1] == rest[j];
        }
      }
    }
  }

  /** Insertion skips only entries with a higher score than `x`, so among
      entries of any one score `x` lands first. */
  lemma {:induction false} InsertWithScore(x: Scored, ys: seq<Scored>, k: int)
    ensures WithScore(Insert(x, ys), k) == (if x.score == k then [x] else []) + WithScore(ys, k)
  {
    var wx := if x.score == k then [x] else [];
    if ys == [] || SortKey(x) <= SortKey(ys[0]) {
      assert ([x] + ys)[0] == x && ([x] + ys)[1..] == ys;
    } else {
      var y, rest := ys[0], Insert(x, ys[1..]);
      var wy := if y.score == k then [y] else [];
      InsertWithScore(x, ys[1..], k);
      assert ([y] + rest)[0] == y && ([y] + rest)[1..] == rest;
      assert WithScore([y] + rest, k) == wy + (wx + WithScore(ys[1..], k));
      assert wx == [] || wy == [];
      assert WithScore(ys, k) == wy + WithScore(ys[1..], k);
    }
  }

  /** The sorted list is a rearrangement of the input. */
  lemma {:induction false} StableSortPermutation(s: seq<Scored>)
    ensures multiset(StableSort(s)) == multiset(s)
    ensures |StableSort(s)| == |s|
  {
    if s != [] {
      StableSortPermutation(s[1..]);
      InsertPermutation(s[0], StableSort(s[1..]));
      assert s == [s[0]] + s[1..];
    }
  }

  /** Ascending `-score` is non-increasing score. */
  lemma {:induction false} StableSortOrdered(s: seq<Scored>)
    ensures ScoresNonIncreasing(StableSort(s))
  {
    if s != [] {
      StableSortOrdered(s[1..]);
      InsertOrdered(s[0], StableSort(s[1..]));
    }
  }

  /** Stability: for every score, the entries with that score come out in
      the order they went in. */
  lemma {:induction false} StableSortKeepsTies(s: seq<Scored>, k: int)
    ensures WithScore(StableSort(s), k) == WithScore(s, k)
  {
    if s != [] {
      StableSortKeepsTies(s[1..], k);
      InsertWithScore(s[0], StableSort(s[1..]), k);
    }
  }

  lemma HeadScorePresent(s: seq<Scored>)
    ensures s != [] ==> WithScore(s, s[0].score) != []
  {
  }

  lemma {:induction false} WithScoreMember(s: seq<Scored>, k: int)
    requires WithScore(s, k) != []
    ensures exists i :: 0 <= i < |s| && s[i].score == k
  {
    if s[0].score != k {
      WithScoreMember(s[1..], k);
      var i :| 0 <= i < |s[1..]| && s[1..][i].score == k;
      assert s[i + 1].score == k;
    }
  }

  /** A list whose scores do not increase and whose entries of each score
      keep their order is determined by its input alone: it is the stable
      sort. So any sort with Python's guarantees gives this result. */
  lemma {:induction false} StableSortUnique(s: seq<Scored>, t: seq<Scored>)
    requires ScoresNonIncreasing(t)
    requires forall k :: WithScore(t, k) == WithScore(s, k)
    ensures t == StableSort(s)
  {
    StableSortOrdered(s);
    forall k
      ensures WithScore(t, k) == WithScore(StableSort(s), k)
    {
      StableSortKeepsTies(s, k);
    }
    OrderedTiesDetermine(t, StableSort(s));
  }

  lemma {:induction false} OrderedTiesDetermine(a: seq<Scored>, b: seq<Scored>)
    requires ScoresNonIncreasing(a) && ScoresNonIncreasing(b)
    requires forall k :: WithScore(a, k) == WithScore(b, k)
    ensures a == b
    decreases |a|
  {
    EmptyTogether(a, b);
    if a != [] {
      HeadsAgree(a, b);
      TailsAgree(a, b);
      OrderedTiesDetermine(a[1..], b[1..]);
      assert a == [a[0]] + a[1..] && b == [b[0]] + b[1..];
    }
  }

  lemma EmptyTogether(a: seq<Scored>, b: seq<Scored>)
    requires forall k :: WithScore(a, k) == WithScore(b, k)
    ensures a == [] <==> b == []
  {
    HeadScorePresent(a);
    HeadScorePresent(b);
  }

  /** The first entry of a non-increasing list carries its highest score,
      so two such lists with the same per-score entries start alike. */
  lemma HeadsAgree(a: seq<Scored>, b: seq<Scored>)
    requires a != [] && b != []
    requires ScoresNonIncreasing(a) && ScoresNonIncreasing(b)
    requires forall k :: WithScore(a, k) == WithScore(b, k)
    ensures a[0] == b[0]
  {
    var ka, kb := a[0].score, b[0].score;
    HeadScorePresent(a);
    HeadScorePresent(b);
    assert WithScore(b, ka) != [];
    WithScoreMember(b, ka);
    assert WithScore(a, kb) != [];
    WithScoreMember(a, kb);
    assert ka == kb;
    assert WithScore(a, ka)[0] == a[0] && WithScore(b, kb)[0] == b[0];
  }

  lemma TailsAgree(a: seq<Scored>, b: seq<Scored>)
    requires a != [] && b != [] && a[0] == b[0]
    requires forall k :: WithScore(a, k) == WithScore(b, k)
    ensures forall k :: WithScore(a[1..], k) == WithScore(b[1..], k)
  {
    forall k
      ensures WithScore(a[1..], k) == WithScore(b[1..], k)
    {
      var wa, wb := WithScore(a[1..], k), WithScore(b[1..], k);
      if k == a[0].score {
        assert WithScore(a, k) == [a[0]] + wa;
        assert WithScore(b, k) == [b[0]] + wb;
        assert ([a[0]] + wa)[1..] == wa && ([b[0]] + wb)[1..] == wb;
      } else {
        assert WithScore(a, k) == [] + wa == wa;
        assert WithScore(b, k) == [] + wb == wb;
      }
    }
  }
}
