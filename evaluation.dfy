/** Reduction of a ranked sequence to its count, mean score and top entry. */
module Evaluation {
  import opened Wrappers
  import opened Domain
  import opened Service
  import opened Multisets

  /** Aggregate figures of a ranking; the top identifier is absent for an empty ranking. */
  datatype RankingSummary = RankingSummary(count: nat, meanScore: real, topCandidateId: Option<string>)

  /** The sum of all scores, taken from the first record to the last. */
  function TotalScore(ranked: seq<RankedCandidate>): real
  {
    if ranked == [] then 0.0 else ranked[0].score + TotalScore(ranked[1..])
  }

  /** All scores lie in [0, 1], as they do for every output of ranking. */
  predicate ScoresInUnitInterval(ranked: seq<RankedCandidate>)
  {
    forall k :: 0 <= k < |ranked| ==> InUnitInterval(ranked[k].score)
  }

  /**
   * Summarizes a sequence in the order given, without re-sorting: the
   * number of records, the arithmetic mean of their scores (0 when there
   * are none) and the identifier of the first record.
   */
  function SummarizeCandidates(ranked: seq<RankedCandidate>): (summary: RankingSummary)
    ensures summary.count == |ranked|
    ensures ranked == [] ==> summary.meanScore == 0.0 && summary.topCandidateId == None
    ensures ranked != [] ==> summary.topCandidateId == Some(ranked[0].candidateId)
    ensures summary.meanScore * (|ranked| as real) == TotalScore(ranked)
  {
    if ranked == [] then
      RankingSummary(0, 0.0, None)
    else
      var meanScore := TotalScore(ranked) / (|ranked| as real);
      RankingSummary(|ranked|, meanScore, Some(ranked[0].candidateId))
  }

  /** With every score in [0, 1], the total lies between 0 and the number of records. */
  lemma {:induction false} TotalScoreBounds(ranked: seq<RankedCandidate>)
    requires ScoresInUnitInterval(ranked)
    ensures 0.0 <= TotalScore(ranked) <= |ranked| as real
  {
    if ranked != [] {
      assert ScoresInUnitInterval(ranked[1..]) by {
        forall k | 0 <= k < |ranked[1..]|
          ensures InUnitInterval(ranked[1..][k].score)
        {
          assert ranked[1..][k] == ranked[k + 1];
        }
      }
      TotalScoreBounds(ranked[1..]);
    }
  }

  /** The total does not depend on the order of the records. */
  lemma {:induction false} TotalScorePermutation(s: seq<RankedCandidate>, t: seq<RankedCandidate>)
    requires multiset(s) == multiset(t)
    ensures TotalScore(s) == TotalScore(t)
    decreases |s|
  {
    if s != [] {
      var k := RemoveMatching(s, t);
      TotalScorePermutation(s[1..], t[..k] + t[k + 1..]);
      TotalScoreRemove(t, k);
    } else {
      assert |t| == |multiset(t)| == 0;
    }
  }

  /**
   * Reordering the records changes neither the count nor the mean score,
   * so the mean over a ranking equals the mean over the unsorted records.
   */
  lemma SummaryIgnoresOrder(s: seq<RankedCandidate>, t: seq<RankedCandidate>)
    requires multiset(s) == multiset(t)
    ensures SummarizeCandidates(s).count == SummarizeCandidates(t).count
    ensures SummarizeCandidates(s).meanScore == SummarizeCandidates(t).meanScore
  {
    assert |s| == |multiset(s)| == |multiset(t)| == |t|;
    TotalScorePermutation(s, t);
  }

  /** Taking one record out of a sequence takes its score out of the total. */
  lemma {:induction false} TotalScoreRemove(t: seq<RankedCandidate>, k: nat)
    requires k < |t|
    ensures TotalScore(t) == t[k].score + TotalScore(t[..k] + t[k + 1..])
  {
    if k > 0 {
      assert (t[..k] + t[k + 1..])[1..] == t[1..][..k - 1] + t[1..][k..];
      assert (t[..k] + t[k + 1..])[0] == t[0];
      TotalScoreRemove(t[1..], k - 1);
    } else {
      assert t[..0] + t[1..] == t[1..];
    }
  }

  /** With every score in [0, 1], the mean score lies in [0, 1] too. */
  lemma MeanScoreInUnitInterval(ranked: seq<RankedCandidate>)
    requires ScoresInUnitInterval(ranked)
    ensures InUnitInterval(SummarizeCandidates(ranked).meanScore)
  {
    if ranked != [] {
      TotalScoreBounds(ranked);
      var n := |ranked| as real;
      var mean := SummarizeCandidates(ranked).meanScore;
      assert mean * n <= n;
      assert mean * n >= 0.0;
    }
  }

  /**
   * The summary of a ranking of the candidates, computed with the default
   * weights: x scores 0.83 and comes first, y scores 0.37, and the mean is 0.6.
   */
  method SummaryExample() returns (summary: RankingSummary)
    ensures summary == RankingSummary(2, 0.6, Some("x"))
  {
    var ranker := new CandidateRanker.Default();
    var candidates := [Candidate("x", 0.8, 0.9), Candidate("y", 0.4, 0.3)];
    var ranked := ranker.Rank(candidates);
    var records := ranker.RankedRecords(candidates);
    assert records == [RankedCandidate("x", 0.83), RankedCandidate("y", 0.37)];
    DefaultOrder(ranked);
    summary := SummarizeCandidates(ranked);
    MeanScoreInUnitInterval(ranked);
  }

  /** The only sorted arrangement of the records x 0.83 and y 0.37 is x, y. */
  lemma DefaultOrder(ranked: seq<RankedCandidate>)
    requires Sorted(ranked)
    requires multiset(ranked) == multiset([RankedCandidate("x", 0.83), RankedCandidate("y", 0.37)])
    ensures ranked == [RankedCandidate("x", 0.83), RankedCandidate("y", 0.37)]
  {
    SortedUnique(ranked, [RankedCandidate("x", 0.83), RankedCandidate("y", 0.37)]);
  }

  /** The empty sequence has count 0, mean 0 and no top identifier. */
  lemma SummarizeEmpty()
    ensures SummarizeCandidates([]) == RankingSummary(0, 0.0, None)
  {
  }
}
