/** The computing part of `generate_numbers` (Pick3_gui.py:48-60), with the
    start number and the pattern already parsed and today's date passed in. */
module Generate {
  import opened Digits
  import opened Sequencer
  import opened Scoring
  import opened DateKey
  import opened Ranking

  /** `scored_numbers[:10]` */
  const TOP_COUNT := 10

  /** What one press of "Generate Numbers" computes before it is rendered. */
  datatype Report = Report(dateSum: int, rundown: seq<string>, top10: seq<Scored>)

  /** `seq[:n]`: Python slicing stops at the end of the list. */
  function Take(s: seq<Scored>, n: nat): (r: seq<Scored>)
    ensures |r| == Min(n, |s|) && r == s[..|r|]
  {
    if |s| <= n then s else s[..n]
  }

  method GenerateNumbers(start: nat, pattern: seq<int>, today: Date) returns (report: Report)
    requires IsValid(today)
    ensures report.dateSum == DateSum(today)
    ensures report.rundown == Rundown(start, pattern)
    ensures AllDigitStrings(report.rundown)
    ensures |report.top10| == TOP_COUNT
    ensures multiset(report.top10) == multiset(ScoredList(report.rundown, report.dateSum))
    ensures ScoresNonIncreasing(report.top10)
    ensures forall k :: WithScore(report.top10, k) == WithScore(ScoredList(report.rundown, report.dateSum), k)
  {
    var dateSum := DateSum(today);
    var rundownNumbers := ApplyRundown(start, pattern);
    RundownShape(start, pattern);
    var scoredNumbers := ScoreCandidates(rundownNumbers, dateSum);
    ghost var unsorted := scoredNumbers;
    scoredNumbers := StableSort(scoredNumbers);
    StableSortPermutation(unsorted);
    StableSortOrdered(unsorted);
    forall k
      ensures WithScore(scoredNumbers, k) == WithScore(unsorted, k)
    {
      StableSortKeepsTies(unsorted, k);
    }
    var top10 := Take(scoredNumbers, TOP_COUNT);
    assert top10 == scoredNumbers;
    report := Report(dateSum, rundownNumbers, top10);
  }
}
