/**
 * The ranking service: weighted scoring of candidates and a deterministic
 * ranking by score (highest first) with ties broken by identifier.
 */
module Service {
  import opened Wrappers
  import opened Lexicographic
  import opened Domain
  import opened Multisets

  /** A candidate's identifier paired with its clamped score. */
  datatype RankedCandidate = RankedCandidate(candidateId: string, score: real)

  /** The single error of the component: weights whose total is not positive. */
  datatype ConfigError = InvalidConfiguration

  /**
   * The ranking order on records: a higher score comes first, and equal
   * scores are ordered by identifier, smallest first. This is the order
   * of the sort key (-score, candidateId).
   */
  predicate Before(x: RankedCandidate, y: RankedCandidate)
  {
    x.score > y.score || (x.score == y.score && LexLe(x.candidateId, y.candidateId))
  }

  /** Every earlier record comes no later than every later one. */
  predicate Sorted(s: seq<RankedCandidate>)
  {
    forall i, j :: 0 <= i < j < |s| ==> Before(s[i], s[j])
  }

  /** Every record is ranked no later than the one right after it. */
  predicate AdjacentSorted(s: seq<RankedCandidate>)
  {
    forall i :: 0 <= i < |s| - 1 ==> Before(s[i], s[i + 1])
  }

  /** Any two records are ordered one way or the other. */
  lemma BeforeTotal(x: RankedCandidate, y: RankedCandidate)
    ensures Before(x, y) || Before(y, x)
  {
    LexLeTotal(x.candidateId, y.candidateId);
  }

  /** The ranking order is transitive. */
  lemma BeforeTransitive(x: RankedCandidate, y: RankedCandidate, z: RankedCandidate)
    requires Before(x, y) && Before(y, z)
    ensures Before(x, z)
  {
    if x.score == y.score == z.score {
      LexLeTransitive(x.candidateId, y.candidateId, z.candidateId);
    }
  }

  /** Records with equal sort keys are equal: the order leaves no ties. */
  lemma BeforeAntisymmetric(x: RankedCandidate, y: RankedCandidate)
    requires Before(x, y) && Before(y, x)
    ensures x == y
  {
    LexLeAntisymmetric(x.candidateId, y.candidateId);
  }

  /** Sortedness over all pairs is the same as sortedness of each adjacent pair. */
  lemma {:induction false} SortedIffAdjacentSorted(s: seq<RankedCandidate>)
    ensures Sorted(s) <==> AdjacentSorted(s)
  {
    if AdjacentSorted(s) && |s| > 1 {
      SortedIffAdjacentSorted(s[1..]);
      assert AdjacentSorted(s[1..]) by {
        forall i | 0 <= i < |s[1..]| - 1
          ensures Before(s[1..][i], s[1..][i + 1])
        {
          assert s[1..][i] == s[i + 1] && s[1..][i + 1] == s[i + 2];
        }
      }
      forall i, j | 0 <= i < j < |s|
        ensures Before(s[i], s[j])
      {
        if i == 0 {
          if j > 1 {
            assert s[1..][0] == s[1] && s[1..][j - 1] == s[j];
            BeforeTransitive(s[0], s[1], s[j]);
          }
        } else {
          assert s[1..][i - 1] == s[i] && s[1..][j - 1] == s[j];
        }
      }
    }
  }

  /** Dropping the first record of a sorted sequence leaves it sorted. */
  lemma SortedTail(s: seq<RankedCandidate>)
    requires Sorted(s) && s != []
    ensures Sorted(s[1..])
  {
    forall i, j | 0 <= i < j < |s[1..]|
      ensures Before(s[1..][i], s[1..][j])
    {
      assert s[1..][i] == s[i + 1] && s[1..][j] == s[j + 1];
    }
  }

  /**
   * Two sorted sequences holding the same records are the same sequence:
   * the ranking is fully determined by the multiset of records, so the
   * choice of sorting algorithm and its stability cannot be observed.
   */
  lemma {:induction false} SortedUnique(s: seq<RankedCandidate>, t: seq<RankedCandidate>)
    requires Sorted(s) && Sorted(t)
    requires multiset(s) == multiset(t)
    ensures s == t
  {
    if s != [] {
      var k := FindHead(s, t);
      var m := FindHead(t, s);
      if k != 0 {
        assert Before(t[0], s[0]);
        if m != 0 {
          assert Before(s[0], t[0]);
          BeforeAntisymmetric(s[0], t[0]);
        }
      }
      assert s[0] == t[0];
      SameHeadTails(s, t);
      SortedTail(s);
      SortedTail(t);
      SortedUnique(s[1..], t[1..]);
    }
  }

  /** Exchanges two elements of an array. */
  method Swap(a: array<RankedCandidate>, i: int, j: int)
    requires 0 <= i < a.Length && 0 <= j < a.Length
    modifies a
    ensures a[..] == old(a[..])[i := old(a[j])][j := old(a[i])]
    ensures multiset(a[..]) == multiset(old(a[..]))
  {
    a[i], a[j] := a[j], a[i];
  }

  /**
   * Sorts the array in place into ranking order. The source uses the
   * language's built-in sort; by SortedUnique, any sort reaches the same
   * result.
   */
  method SortRanking(a: array<RankedCandidate>)
    modifies a
    ensures Sorted(a[..])
    ensures multiset(a[..]) == multiset(old(a[..]))
  {
    var i := 0;
    while i < a.Length
      invariant 0 <= i <= a.Length
      invariant Sorted(a[..i])
      invariant multiset(a[..]) == multiset(old(a[..]))
    {
      // Insert a[i] into the sorted prefix by moving it towards the front.
      var j := i;
      while 0 < j && !Before(a[j - 1], a[j])
        invariant 0 <= j <= i
        invariant multiset(a[..]) == multiset(old(a[..]))
        invariant forall p, q :: 0 <= p < q <= i && p != j && q != j ==> Before(a[p], a[q])
        invariant forall q :: j < q <= i ==> Before(a[j], a[q])
      {
        BeforeTotal(a[j - 1], a[j]);
        Swap(a, j - 1, j);
        j := j - 1;
      }
      if 0 < j {
        forall p | 0 <= p < j - 1
          ensures Before(a[p], a[j])
        {
          BeforeTransitive(a[p], a[j - 1], a[j]);
        }
      }
      i := i + 1;
    }
    assert a[..a.Length] == a[..];
  }

  /**
   * A ranker holding two weights. After construction the weights are
   * rescaled to sum to 1; no method changes them afterwards.
   */
  class CandidateRanker {
    var relevanceWeight: real
    var confidenceWeight: real

    /** The ranker built with the default weights 0.7 and 0.3. */
    constructor Default()
      ensures relevanceWeight == 0.7 && confidenceWeight == 0.3
      ensures relevanceWeight + confidenceWeight == 1.0
    {
      relevanceWeight := 0.7 / (0.7 + 0.3);
      confidenceWeight := 0.3 / (0.7 + 0.3);
    }

    /**
     * The successful path of construction: each weight is divided by the
     * total, so the stored weights sum to 1 and keep the given ratio.
     * Dafny constructors cannot fail, so the failing path is in Create.
     */
    constructor Init(relevanceWeight: real, confidenceWeight: real)
      requires relevanceWeight + confidenceWeight > 0.0
      ensures this.relevanceWeight + this.confidenceWeight == 1.0
      ensures this.relevanceWeight * (relevanceWeight + confidenceWeight) == relevanceWeight
      ensures this.confidenceWeight * (relevanceWeight + confidenceWeight) == confidenceWeight
      ensures this.relevanceWeight * confidenceWeight == this.confidenceWeight * relevanceWeight
    {
      var total := relevanceWeight + confidenceWeight;
      this.relevanceWeight := relevanceWeight / total;
      this.confidenceWeight := confidenceWeight / total;
      RescaledWeights(relevanceWeight, confidenceWeight);
    }

    /**
     * Construction with validation: fails with InvalidConfiguration exactly
     * when the weights do not sum to a positive total.
     */
    static method Create(relevanceWeight: real, confidenceWeight: real)
      returns (r: Result<CandidateRanker, ConfigError>)
      ensures r.Failure? <==> relevanceWeight + confidenceWeight <= 0.0
      ensures r.Failure? ==> r.error == InvalidConfiguration
      ensures r.Success? ==> fresh(r.value)
      ensures r.Success? ==> r.value.relevanceWeight + r.value.confidenceWeight == 1.0
      ensures r.Success? ==>
        r.value.relevanceWeight * (relevanceWeight + confidenceWeight) == relevanceWeight
      ensures r.Success? ==>
        r.value.confidenceWeight * (relevanceWeight + confidenceWeight) == confidenceWeight
    {
      var total := relevanceWeight + confidenceWeight;
      if total <= 0.0 {
        return Failure(InvalidConfiguration);
      }
      var ranker := new CandidateRanker.Init(relevanceWeight, confidenceWeight);
      return Success(ranker);
    }

    /** The weighted sum of the candidate's signals, clamped into [0, 1]. */
    function Score(c: Candidate): (r: real)
      reads this
      ensures InUnitInterval(r)
      ensures var sum := relevanceWeight * c.relevance + confidenceWeight * c.confidence;
        && (InUnitInterval(sum) ==> r == sum)
        && (sum < 0.0 ==> r == 0.0)
        && (sum > 1.0 ==> r == 1.0)
    {
      NormalizeScore(relevanceWeight * c.relevance + confidenceWeight * c.confidence)
    }

    /** The record the ranking holds for one candidate, before sorting. */
    function ToRanked(c: Candidate): (r: RankedCandidate)
      reads this
      ensures r.candidateId == c.candidateId && InUnitInterval(r.score)
    {
      RankedCandidate(c.candidateId, Score(c))
    }

    /**
     * The records for all candidates, in input order: the k-th record
     * carries the k-th candidate's identifier and a score in [0, 1].
     */
    function RankedRecords(candidates: seq<Candidate>): (r: seq<RankedCandidate>)
      reads this
      ensures |r| == |candidates|
      ensures forall k :: 0 <= k < |r| ==>
        r[k].candidateId == candidates[k].candidateId && InUnitInterval(r[k].score)
    {
      seq(|candidates|, k requires 0 <= k < |candidates| reads this => ToRanked(candidates[k]))
    }

    /**
     * Ranks the candidates: one record per candidate, sorted by score
     * (highest first) and then by identifier. The result is a new
     * sequence; the input is a value and is left as it was.
     */
    method Rank(candidates: seq<Candidate>) returns (ranked: seq<RankedCandidate>)
      ensures |ranked| == |candidates|
      ensures multiset(ranked) == multiset(RankedRecords(candidates))
      ensures Sorted(ranked)
      ensures forall k :: 0 <= k < |ranked| ==> InUnitInterval(ranked[k].score)
    {
      var a := new RankedCandidate[|candidates|];
      for i := 0 to |candidates|
        invariant forall k :: 0 <= k < i ==> a[k] == ToRanked(candidates[k])
      {
        a[i] := ToRanked(candidates[i]);
      }
      assert a[..] == RankedRecords(candidates);
      SortRanking(a);
      ranked := a[..];
      forall k | 0 <= k < |ranked|
        ensures InUnitInterval(ranked[k].score)
      {
        assert ranked[k] in multiset(RankedRecords(candidates));
      }
    }
  }

  /**
   * For a ranker whose weights are non-negative and sum to 1, signals in
   * [0, 1] give a weighted sum already in [0, 1], so the clamp leaves it
   * unchanged.
   */
  lemma ScoreOfUnitSignals(ranker: CandidateRanker, c: Candidate)
    requires ranker.relevanceWeight >= 0.0 && ranker.confidenceWeight >= 0.0
    requires ranker.relevanceWeight + ranker.confidenceWeight == 1.0
    requires InUnitInterval(c.relevance) && InUnitInterval(c.confidence)
    ensures ranker.Score(c) ==
      ranker.relevanceWeight * c.relevance + ranker.confidenceWeight * c.confidence
  {
    ConvexCombination(ranker.relevanceWeight, ranker.confidenceWeight, c.relevance, c.confidence);
  }

  /** A convex combination of two values in [0, 1] lies in [0, 1]. */
  lemma ConvexCombination(rw: real, cw: real, x: real, y: real)
    requires rw >= 0.0 && cw >= 0.0 && rw + cw == 1.0
    requires InUnitInterval(x) && InUnitInterval(y)
    ensures InUnitInterval(rw * x + cw * y)
  {
    ScaledUnit(rw, x);
    ScaledUnit(cw, y);
    BoundedSum(rw * x, cw * y, rw, cw);
  }

  /** Scaling a value in [0, 1] by a non-negative weight stays between 0 and the weight. */
  lemma ScaledUnit(w: real, x: real)
    requires w >= 0.0 && InUnitInterval(x)
    ensures 0.0 <= w * x <= w
  {
    assert w * (1.0 - x) >= 0.0;
  }

  /** Two parts, each between 0 and its own bound, with bounds summing to 1, add up to a value in [0, 1]. */
  lemma BoundedSum(a: real, b: real, p: real, q: real)
    requires 0.0 <= a <= p && 0.0 <= b <= q && p + q == 1.0
    ensures InUnitInterval(a + b)
  {
  }

  /**
   * Sorting the records of b, a and c (scores 0.82, 0.82 and 0.28) puts a
   * before b by identifier and c last.
   */
  lemma {:induction false} TieBreakOrder(ranked: seq<RankedCandidate>)
    requires Sorted(ranked)
    requires multiset(ranked) ==
      multiset([RankedCandidate("b", 0.82), RankedCandidate("a", 0.82), RankedCandidate("c", 0.28)])
    ensures ranked == [RankedCandidate("a", 0.82), RankedCandidate("b", 0.82), RankedCandidate("c", 0.28)]
  {
    var a, b, c := RankedCandidate("a", 0.82), RankedCandidate("b", 0.82), RankedCandidate("c", 0.28);
    assert [b, a, c] == [b] + [a] + [c];
    assert [a, b, c] == [a] + [b] + [c];
    assert LexLe(a.candidateId, b.candidateId);
    assert Sorted([a, b, c]);
    SortedUnique(ranked, [a, b, c]);
  }

  /**
   * The ranking of the three candidates b, a, c under weights 0.8 and 0.2:
   * a and b score the same and are ordered by identifier.
   */
  method TieBreakExample() returns (ranked: seq<RankedCandidate>)
    ensures ranked == [RankedCandidate("a", 0.82), RankedCandidate("b", 0.82), RankedCandidate("c", 0.28)]
  {
    var created := CandidateRanker.Create(0.8, 0.2);
    var ranker := created.value;
    var rw, cw := ranker.relevanceWeight, ranker.confidenceWeight;
    assert rw * 1.0 == 0.8 && cw * 1.0 == 0.2;
    var candidates := [Candidate("b", 0.9, 0.5), Candidate("a", 0.9, 0.5), Candidate("c", 0.3, 0.2)];
    ranked := ranker.Rank(candidates);
    var records := ranker.RankedRecords(candidates);
    assert records == [RankedCandidate("b", 0.82), RankedCandidate("a", 0.82), RankedCandidate("c", 0.28)];
    TieBreakOrder(ranked);
  }

  /** Weights that are both zero are refused. */
  method ZeroWeightsExample() returns (created: Result<CandidateRanker, ConfigError>)
    ensures created == Failure(InvalidConfiguration)
  {
    created := CandidateRanker.Create(0.0, 0.0);
  }

  /**
   * Ranking the same candidates twice with the same ranker gives the same
   * sequence both times.
   */
  method RankTwice(ranker: CandidateRanker, candidates: seq<Candidate>)
    returns (first: seq<RankedCandidate>, second: seq<RankedCandidate>)
    ensures first == second
  {
    first := ranker.Rank(candidates);
    second := ranker.Rank(candidates);
    SortedUnique(first, second);
  }

  /** Dividing both weights by a positive total gives weights that sum to 1 in the same ratio. */
  lemma RescaledWeights(rw: real, cw: real)
    requires rw + cw > 0.0
    ensures rw / (rw + cw) + cw / (rw + cw) == 1.0
    ensures rw / (rw + cw) * (rw + cw) == rw
    ensures cw / (rw + cw) * (rw + cw) == cw
    ensures rw / (rw + cw) * cw == cw / (rw + cw) * rw
  {
  }
}
