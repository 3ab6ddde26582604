/** Candidates and score clamping. */
module Domain {

  /**
   * One item to score and rank. The identifier is not required to be
   * unique, and neither signal is required to lie in [0, 1].
   */
  datatype Candidate = Candidate(candidateId: string, relevance: real, confidence: real)

  /** A score in the closed unit interval. */
  predicate InUnitInterval(x: real)
  {
    0.0 <= x <= 1.0
  }

  /** Clamps a value into [0, 1]: values inside are kept, others go to the nearest bound. */
  function NormalizeScore(value: real): (r: real)
    ensures InUnitInterval(r)
    ensures value < 0.0 ==> r == 0.0
    ensures value > 1.0 ==> r == 1.0
    ensures InUnitInterval(value) ==> r == value
  {
    if value < 0.0 then 0.0
    else if value > 1.0 then 1.0
    else value
  }

  /** Clamping a clamped value changes nothing. */
  lemma NormalizeScoreIdempotent(value: real)
    ensures NormalizeScore(NormalizeScore(value)) == NormalizeScore(value)
  {
  }

  /** Of all points in [0, 1], the clamped value is a nearest one to the input. */
  lemma NormalizeScoreNearest(value: real, y: real)
    requires InUnitInterval(y)
    ensures Distance(value, NormalizeScore(value)) <= Distance(value, y)
  {
  }

  /** The distance between two reals on the number line. */
  function Distance(x: real, y: real): real
  {
    if x <= y then y - x else x - y
  }

  /** The clamp is monotone: it never reverses the order of two values. */
  lemma NormalizeScoreMonotone(x: real, y: real)
    requires x <= y
    ensures NormalizeScore(x) <= NormalizeScore(y)
  {
  }

  /** The three values checked for clamping. */
  lemma NormalizeScoreExamples()
    ensures NormalizeScore(-0.2) == 0.0
    ensures NormalizeScore(0.4) == 0.4
    ensures NormalizeScore(1.4) == 1.0
  {
  }
}
