# Candidate ranking, modelled in Dafny

This project models the candidate-ranking pipeline of `target_product`:

- **Domain** (`domain.dfy`): the `Candidate` record and `NormalizeScore`, which clamps a value into [0, 1].
- **Service** (`service.dfy`): the `RankedCandidate` record and the `CandidateRanker` class.
  Construction rejects weights whose total is not positive and rescales the two weights to sum to 1.
  `Score` is the clamped weighted sum.
  `Rank` builds one record per candidate into an array, in input order.
  It then sorts that array in place, highest score first, with ties broken by ascending identifier.
- **Evaluation** (`evaluation.dfy`): `SummarizeCandidates` reduces a ranked sequence to its count, its mean score and the identifier of its first record.
- **Lexicographic** (`lexicographic.dfy`): code-point order on strings, which the tie-break uses.
  Dafny's `<` on sequences means "proper prefix", so this order is defined here.
- **Multisets** (`multisets.dfy`): small facts about the multiset of a sequence, used by the permutation proofs.
- **Wrappers** (`wrappers.dfy`): `Option` for a possibly absent identifier, and `Result` for the construction error.

The records `Candidate` (src/target_product/domain.py:8-14), `RankedCandidate` (src/target_product/service.py:11-14) and `RankingSummary` (src/target_product/evaluation.py:11-15) are datatypes with the same fields; an absent top identifier is `None` of `Option`.

Floating-point numbers are modelled as `real`, and strings as `seq<char>`.
Iterables are modelled as `seq`.
The construction error `ValueError("weights must sum to > 0")` becomes `Failure(InvalidConfiguration)`.

The sort in the source is the language's built-in sort with the key `(-score, candidate_id)`.
The model sorts with an insertion sort, proved to leave the array sorted and a permutation of its input.
`SortedUnique` proves that two sorted sequences holding the same records are equal.
A record holds only its identifier and its score, so equal sort keys mean equal records.
Hence any correct sort, stable or not, gives the same ranking.

Two points about the code that the model keeps:
- `CandidateRanker.__init__` rejects only a total of zero or less; it does not check each weight's sign. So weights 2 and -1 are accepted, and the model accepts them too.
- `RankedCandidate` is a non-frozen dataclass, but nothing mutates one, so the model uses a value type.

## Model

| member | source | states |
|---|---|---|
| Domain.NormalizeScore | src/target_product/domain.py:17-23 | the result lies in [0, 1]; it is 0 for inputs below 0, 1 for inputs above 1, and the input itself for inputs in [0, 1] |
| Domain.NormalizeScoreIdempotent | src/target_product/domain.py:17-23 | clamping twice gives the same value as clamping once |
| Domain.NormalizeScoreNearest | src/target_product/domain.py:17-23 | no point of [0, 1] is closer to the input than the clamped value |
| Domain.NormalizeScoreMonotone | src/target_product/domain.py:17-23 | the clamp never reverses the order of two values |
| Domain.NormalizeScoreExamples | tests/test_target_product_service.py:9-12 | -0.2 clamps to 0.0, 0.4 to 0.4, and 1.4 to 1.0 |
| Lexicographic.LexLe | src/target_product/service.py:39 | Python's ordinal `str` comparison used by the key's second component: characters compared by code point, and a proper prefix first |
| Lexicographic.LexLeReflexive | src/target_product/service.py:39 | the identifier order is reflexive |
| Lexicographic.LexLePrefix | src/target_product/service.py:39 | a string comes no later than any extension of it |
| Lexicographic.LexLeAntisymmetric | src/target_product/service.py:39 | two identifiers ordered both ways are equal |
| Lexicographic.LexLeTransitive | src/target_product/service.py:39 | the identifier order is transitive |
| Lexicographic.LexLeTotal | src/target_product/service.py:39 | any two identifiers are comparable |
| Service.Before | src/target_product/service.py:39 | the order of the sort key `(-score, candidate_id)`: a higher score first, equal scores by identifier ascending |
| Service.Sorted | src/target_product/service.py:39 | the order `ranked.sort(...)` produces: every earlier record comes no later than every later one under the key |
| Service.BeforeTotal | src/target_product/service.py:39 | any two records are ordered by the key (score descending, then identifier ascending) one way or the other |
| Service.BeforeTransitive | src/target_product/service.py:39 | the ranking order is transitive |
| Service.BeforeAntisymmetric | src/target_product/service.py:39 | two records with equal sort keys are the same record |
| Service.SortedIffAdjacentSorted | src/target_product/service.py:39 | ordering every pair is equivalent to ordering every adjacent pair (higher score, or equal score and identifier no greater) |
| Service.SortedUnique | src/target_product/service.py:39 | two sorted sequences with the same multiset of records are equal, so the ranking does not depend on the sort's stability |
| Service.SortRanking | src/target_product/service.py:39 | after the in-place sort the array is sorted by the ranking key and holds the same multiset of records as before |
| Service.CandidateRanker.Default | src/target_product/service.py:20-25 | the ranker built with the default weights holds 0.7 and 0.3, which sum to 1 |
| Service.CandidateRanker.Init | src/target_product/service.py:24-25 | for a positive total, the stored weights sum to 1, each times the total gives back the input weight, and their ratio is that of the inputs |
| Service.CandidateRanker.Create | src/target_product/service.py:20-25 | construction fails with InvalidConfiguration exactly when the weights sum to 0 or less; otherwise the new ranker's weights sum to 1 and scale back to the inputs |
| Service.RescaledWeights | src/target_product/service.py:21-25 | dividing both weights by a positive total gives weights that sum to 1 in the input ratio |
| Service.CandidateRanker.Score | src/target_product/service.py:27-32 | the score lies in [0, 1]; it equals the weighted sum of relevance and confidence when that sum is in [0, 1], and is 0 below and 1 above |
| Service.ScoreOfUnitSignals | src/target_product/service.py:27-32 | with non-negative weights summing to 1 and both signals in [0, 1], the clamp never acts and the score is the weighted sum |
| Service.CandidateRanker.ToRanked | src/target_product/service.py:36 | a candidate's record keeps its identifier and has a score in [0, 1] |
| Service.CandidateRanker.RankedRecords | src/target_product/service.py:35-38 | one record per candidate, in input order: the k-th record carries the k-th candidate's identifier and a score in [0, 1]; this is the sequence `Rank`'s result is a permutation of |
| Service.CandidateRanker.Rank | src/target_product/service.py:34-40 | the result has one record per candidate, is a permutation of the candidates' records, is sorted by score descending and then identifier ascending, and every score lies in [0, 1] |
| Service.RankTwice | src/target_product/service.py:34-40 | ranking the same candidates twice with one ranker gives the same sequence |
| Service.ZeroWeightsExample | tests/test_target_product_service.py:26-28 | weights 0.0 and 0.0 are refused with InvalidConfiguration |
| Service.TieBreakOrder | tests/test_target_product_service.py:15-23 | the only sorted arrangement of the records b 0.82, a 0.82 and c 0.28 is a, b, c |
| Service.TieBreakExample | tests/test_target_product_service.py:15-23 | with weights 0.8 and 0.2, ranking b, a, c gives a (0.82), b (0.82), c (0.28) |
| Evaluation.SummarizeCandidates | src/target_product/evaluation.py:18-28 | count is the length; the empty input gives mean 0.0 and no top identifier; otherwise the top identifier is the first record's, with no re-sorting; mean times count is the total score |
| Evaluation.TotalScore | src/target_product/evaluation.py:23 | the `sum(c.score for c in ranked)`; it folds from the right, while Python's `sum` folds from the left starting at 0, and over `real` the two agree |
| Evaluation.TotalScoreBounds | src/target_product/evaluation.py:23 | with every score in [0, 1], the total lies between 0 and the number of records |
| Evaluation.TotalScorePermutation | src/target_product/evaluation.py:23 | the total score does not depend on the order of the records |
| Evaluation.SummaryIgnoresOrder | src/target_product/evaluation.py:23-25 | reordering the records changes neither the count nor the mean score |
| Evaluation.MeanScoreInUnitInterval | src/target_product/evaluation.py:23 | with every score in [0, 1] (true of every output of Rank), the mean score lies in [0, 1] |
| Evaluation.SummarizeEmpty | tests/test_target_product_evaluation.py:22-26 | the empty sequence gives count 0, mean 0.0 and no top identifier |
| Evaluation.DefaultOrder | tests/test_target_product_evaluation.py:9-15 | the only sorted arrangement of the records x 0.83 and y 0.37 is x, y |
| Evaluation.SummaryExample | tests/test_target_product_evaluation.py:8-19 | with the default weights, ranking x and y and summarizing gives count 2, mean 0.6 and top identifier x |

## Left out

- Service.CandidateRanker.Init: requires a positive total, because a Dafny constructor cannot fail. `Create` is the entry point that models the failing path, and it returns `Failure(InvalidConfiguration)` exactly when the source raises.
- Service.SortRanking: an insertion sort stands in for the language's built-in sort. Its algorithm and its stability are not modelled. `SortedUnique` shows that no sort can give a different result here.
- IEEE-754 floating point: weights, signals and scores are `real`. Rounding is not modelled, so the rescaled weights sum to exactly 1. NaN and infinities are not modelled either.
- Python iterables, including one-shot iterators, are modelled as `seq`. The source copies its input into a list and never mutates it. In the model the input is a value, so it cannot be mutated at all.
- Keyword-only arguments are modelled as ordinary parameters, and the default weights as the separate constructor `Default`.
- The weight fields can be reassigned by callers in the source. Nothing in the package does this, and the model does not constrain it.
- `src/target_product/__init__.py` only re-exports names, so it is not modelled.
- `.autolab/verifiers/schema_checks.py` is an empty placeholder with no behaviour, so it is not part of this model.
