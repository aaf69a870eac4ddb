/**
 * Scoring of a finished session (App.tsx): the total score counted in
 * `handleNextQuestion`, the per-category breakdown counted in `saveScore`,
 * and the recount with the 60% pass rule in `renderResult`.
 * Each counting loop is a method proved against the recursive counts below.
 */
module Scoring {
  import opened Wrappers
  import opened Types

  /** The breakdown counter a question's category feeds. */
  datatype Bucket = Analytical | EnglishBucket | LawBucket | NoBucket

  /** Fixed quotas shown next to each breakdown counter on the result screen. */
  const AnalyticalQuota: int := 50
  const EnglishQuota: int := 25
  const LawQuota: int := 25

  /** GENERAL and THAI both count as analytical; the two composite selectors count nowhere. */
  function BucketOf(s: Subject): (b: Bucket)
    ensures b == Analytical <==> (s == General || s == Thai)
    ensures b == EnglishBucket <==> s == English
    ensures b == LawBucket <==> s == Law
    ensures b == NoBucket <==> !IsContentSubject(s)
  {
    match s
    case General => Analytical
    case Thai => Analytical
    case English => EnglishBucket
    case Law => LawBucket
    case FullMock => NoBucket
    case Challenge => NoBucket
  }

  /** Position i holds a recorded answer equal to its question's correct index; unanswered positions never match. */
  predicate IsCorrectAt(qs: seq<Question>, answers: map<int, int>, i: int)
    requires 0 <= i < |qs|
  {
    i in answers && answers[i] == qs[i].correctAnswerIndex
  }

  /** Number of correctly answered positions among the first n. */
  function CountCorrect(qs: seq<Question>, answers: map<int, int>, n: nat): (c: nat)
    requires n <= |qs|
    ensures c <= n
    ensures c == n <==> forall i :: 0 <= i < n ==> IsCorrectAt(qs, answers, i)
  {
    if n == 0 then 0
    else CountCorrect(qs, answers, n - 1) + (if IsCorrectAt(qs, answers, n - 1) then 1 else 0)
  }

  /** Number of correctly answered positions among the first n whose category feeds bucket b. */
  function CountCorrectIn(qs: seq<Question>, answers: map<int, int>, n: nat, b: Bucket): (c: nat)
    requires n <= |qs|
    ensures c <= CountCorrect(qs, answers, n)
  {
    if n == 0 then 0
    else
      var hit := IsCorrectAt(qs, answers, n - 1) && BucketOf(qs[n - 1].category) == b;
      CountCorrectIn(qs, answers, n - 1, b) + (if hit then 1 else 0)
  }

  /** Number of positions among the first n whose category feeds bucket b, answered or not. */
  function CountInBucket(qs: seq<Question>, n: nat, b: Bucket): (c: nat)
    requires n <= |qs|
    ensures c <= n
  {
    if n == 0 then 0
    else CountInBucket(qs, n - 1, b) + (if BucketOf(qs[n - 1].category) == b then 1 else 0)
  }

  /** The session score: correct positions over the whole question list. */
  function Score(qs: seq<Question>, answers: map<int, int>): (s: nat)
    ensures s <= |qs|
  {
    CountCorrect(qs, answers, |qs|)
  }

  /** The breakdown record of a full exam. */
  function Breakdown(qs: seq<Question>, answers: map<int, int>): (d: Details)
    ensures 0 <= d.analytical && 0 <= d.english && 0 <= d.law
  {
    Details(CountCorrectIn(qs, answers, |qs|, Analytical),
            CountCorrectIn(qs, answers, |qs|, EnglishBucket),
            CountCorrectIn(qs, answers, |qs|, LawBucket))
  }

  /**
   * The 60% rule `(score / total) * 100 >= 60` in integer terms; with no
   * questions the quotient is NaN and the comparison is false.
   */
  predicate Passed(score: int, total: int) {
    total > 0 && 100 * score >= 60 * total
  }

  /** The smallest passing score for a list of `total` questions: ceil(3 * total / 5). */
  function MinPassingScore(total: nat): (m: nat)
    ensures 5 * m >= 3 * total && 5 * m < 3 * total + 5
  {
    (3 * total + 4) / 5
  }

  // ---------------------------------------------------------------------------
  // Properties of the counts
  // ---------------------------------------------------------------------------

  /** The positions that were answered correctly, as a set. */
  ghost function CorrectPositions(qs: seq<Question>, answers: map<int, int>, n: nat): set<int>
    requires n <= |qs|
  {
    set i | 0 <= i < n && IsCorrectAt(qs, answers, i)
  }

  /** The recursive count is the number of correctly answered positions. */
  lemma {:induction false} CountIsCardinality(qs: seq<Question>, answers: map<int, int>, n: nat)
    requires n <= |qs|
    ensures CountCorrect(qs, answers, n) == |CorrectPositions(qs, answers, n)|
  {
    if n == 0 {
      assert CorrectPositions(qs, answers, n) == {};
    } else {
      CountIsCardinality(qs, answers, n - 1);
      var prev := CorrectPositions(qs, answers, n - 1);
      assert n - 1 !in prev;
      if IsCorrectAt(qs, answers, n - 1) {
        assert CorrectPositions(qs, answers, n) == prev + {n - 1};
      } else {
        assert CorrectPositions(qs, answers, n) == prev;
      }
    }
  }

  /** The score is the number of indices i with `userAnswers[i] == questions[i].correctAnswerIndex`. */
  lemma ScoreCountsCorrectPositions(qs: seq<Question>, answers: map<int, int>)
    ensures Score(qs, answers) == |set i | 0 <= i < |qs| && IsCorrectAt(qs, answers, i)|
    ensures Score(qs, answers) <= |qs|
  {
    CountIsCardinality(qs, answers, |qs|);
  }

  /** Every correct answer falls in exactly one of the four buckets. */
  lemma {:induction false} BucketsPartitionScore(qs: seq<Question>, answers: map<int, int>, n: nat)
    requires n <= |qs|
    ensures CountCorrect(qs, answers, n)
         == CountCorrectIn(qs, answers, n, Analytical) + CountCorrectIn(qs, answers, n, EnglishBucket)
          + CountCorrectIn(qs, answers, n, LawBucket) + CountCorrectIn(qs, answers, n, NoBucket)
  {
    if n > 0 {
      BucketsPartitionScore(qs, answers, n - 1);
    }
  }

  /** When every category is a content subject, nothing lands outside the three counters. */
  lemma {:induction false} ContentCategoriesFillNoBucket(qs: seq<Question>, answers: map<int, int>, n: nat)
    requires n <= |qs|
    requires forall i :: 0 <= i < n ==> IsContentSubject(qs[i].category)
    ensures CountCorrectIn(qs, answers, n, NoBucket) == 0
  {
    if n > 0 {
      ContentCategoriesFillNoBucket(qs, answers, n - 1);
    }
  }

  /** A bucket never holds more correct answers than it holds questions. */
  lemma {:induction false} CorrectInBucketBounded(qs: seq<Question>, answers: map<int, int>, n: nat, b: Bucket)
    requires n <= |qs|
    ensures CountCorrectIn(qs, answers, n, b) <= CountInBucket(qs, n, b)
  {
    if n > 0 {
      CorrectInBucketBounded(qs, answers, n - 1, b);
    }
  }

  /**
   * analytical + english + law never exceeds the score, and equals it when
   * every question is tagged with a content subject.
   */
  lemma BreakdownSumsToScore(qs: seq<Question>, answers: map<int, int>)
    ensures var d := Breakdown(qs, answers);
      d.analytical + d.english + d.law <= Score(qs, answers)
    ensures (forall i :: 0 <= i < |qs| ==> IsContentSubject(qs[i].category)) ==>
      var d := Breakdown(qs, answers);
      d.analytical + d.english + d.law == Score(qs, answers)
  {
    BucketsPartitionScore(qs, answers, |qs|);
    if forall i :: 0 <= i < |qs| ==> IsContentSubject(qs[i].category) {
      ContentCategoriesFillNoBucket(qs, answers, |qs|);
    }
  }

  /** Recording answer c at position i changes correctness at i only, so the score moves by at most one. */
  lemma {:induction false} AnswerChangesOnlyItsPosition(qs: seq<Question>, answers: map<int, int>, i: int, c: int, n: nat)
    requires 0 <= i < |qs| && n <= |qs|
    ensures forall j :: 0 <= j < |qs| && j != i ==>
      IsCorrectAt(qs, answers[i := c], j) == IsCorrectAt(qs, answers, j)
    ensures CountCorrect(qs, answers[i := c], n)
         == CountCorrect(qs, answers, n)
          - (if i < n && IsCorrectAt(qs, answers, i) then 1 else 0)
          + (if i < n && c == qs[i].correctAnswerIndex then 1 else 0)
  {
    if n > 0 {
      AnswerChangesOnlyItsPosition(qs, answers, i, c, n - 1);
    }
  }

  /** The bucket count of a prefix only looks at that prefix. */
  lemma {:induction false} CountInBucketPrefix(a: seq<Question>, c: seq<Question>, n: nat, b: Bucket)
    requires n <= |a|
    ensures CountInBucket(a + c, n, b) == CountInBucket(a, n, b)
  {
    if n > 0 {
      assert (a + c)[n - 1] == a[n - 1];
      CountInBucketPrefix(a, c, n - 1, b);
    }
  }

  /** Bucket counts add up over a concatenation. */
  lemma {:induction false} CountInBucketConcat(a: seq<Question>, c: seq<Question>, m: nat, b: Bucket)
    requires m <= |c|
    ensures CountInBucket(a + c, |a| + m, b) == CountInBucket(a, |a|, b) + CountInBucket(c, m, b)
  {
    if m == 0 {
      CountInBucketPrefix(a, c, |a|, b);
    } else {
      assert (a + c)[|a| + m - 1] == c[m - 1];
      CountInBucketConcat(a, c, m - 1, b);
    }
  }

  /** A list whose questions all have category s fills only the bucket of s. */
  lemma {:induction false} CountInBucketUniform(qs: seq<Question>, n: nat, s: Subject, b: Bucket)
    requires n <= |qs|
    requires forall i :: 0 <= i < |qs| ==> qs[i].category == s
    ensures CountInBucket(qs, n, b) == if BucketOf(s) == b then n else 0
  {
    if n > 0 {
      CountInBucketUniform(qs, n - 1, s, b);
    }
  }

  /** For a non-empty list, passing means reaching the smallest passing score; 3 of 5 and 60 of 100 pass. */
  lemma PassedIffAtLeastMinimum(score: int, total: nat)
    requires total > 0
    ensures Passed(score, total) <==> score >= MinPassingScore(total)
    ensures MinPassingScore(5) == 3 && MinPassingScore(100) == 60
  {
    var m := MinPassingScore(total);
    if score >= m {
      assert 5 * score >= 5 * m;
    } else {
      assert 5 * score <= 5 * m - 5;
    }
  }

  /** One more correct answer never turns a pass into a fail. */
  lemma PassedMonotone(score: int, better: int, total: int)
    requires score <= better
    ensures Passed(score, total) ==> Passed(better, total)
  {
  }

  // ---------------------------------------------------------------------------
  // The counting loops
  // ---------------------------------------------------------------------------

  /** The `forEach` of `handleNextQuestion` that accumulates the final score. */
  method ComputeScore(qs: seq<Question>, answers: map<int, int>) returns (score: int)
    ensures score == Score(qs, answers)
    ensures 0 <= score <= |qs|
  {
    score := 0;
    var idx := 0;
    while idx < |qs|
      invariant 0 <= idx <= |qs|
      invariant score == CountCorrect(qs, answers, idx)
    {
      if idx in answers && answers[idx] == qs[idx].correctAnswerIndex {
        score := score + 1;
      }
      idx := idx + 1;
    }
  }

  /** The `forEach` of `saveScore` that accumulates the three breakdown counters. */
  method ComputeBreakdown(qs: seq<Question>, answers: map<int, int>) returns (d: Details)
    ensures d == Breakdown(qs, answers)
  {
    var analyticalScore, englishScore, lawScore := 0, 0, 0;
    var idx := 0;
    while idx < |qs|
      invariant 0 <= idx <= |qs|
      invariant analyticalScore == CountCorrectIn(qs, answers, idx, Analytical)
      invariant englishScore == CountCorrectIn(qs, answers, idx, EnglishBucket)
      invariant lawScore == CountCorrectIn(qs, answers, idx, LawBucket)
    {
      var q := qs[idx];
      if idx in answers && answers[idx] == q.correctAnswerIndex {
        if q.category == General || q.category == Thai {
          analyticalScore := analyticalScore + 1;
        } else if q.category == English {
          englishScore := englishScore + 1;
        } else if q.category == Law {
          lawScore := lawScore + 1;
        }
      }
      idx := idx + 1;
    }
    d := Details(analyticalScore, englishScore, lawScore);
  }

  /** What the result screen shows: a recount, the breakdown for a full exam, and the verdict. */
  datatype ResultView = ResultView(finalScore: int, total: int, breakdown: Option<Details>, isPassed: bool)

  /** The recount of `renderResult`: one loop for the score and the three counters, then the 60% rule. */
  method RenderResult(qs: seq<Question>, answers: map<int, int>, mode: Mode) returns (v: ResultView)
    ensures v.finalScore == Score(qs, answers) && v.total == |qs|
    ensures v.breakdown.Some? <==> mode == FullExam
    ensures v.breakdown.Some? ==> v.breakdown.value == Breakdown(qs, answers)
    ensures v.isPassed <==> (|qs| > 0 && 100 * v.finalScore >= 60 * |qs|)
  {
    var finalScore, analyticalScore, englishScore, lawScore := 0, 0, 0, 0;
    var idx := 0;
    while idx < |qs|
      invariant 0 <= idx <= |qs|
      invariant finalScore == CountCorrect(qs, answers, idx)
      invariant analyticalScore == CountCorrectIn(qs, answers, idx, Analytical)
      invariant englishScore == CountCorrectIn(qs, answers, idx, EnglishBucket)
      invariant lawScore == CountCorrectIn(qs, answers, idx, LawBucket)
    {
      var q := qs[idx];
      var isCorrect := idx in answers && answers[idx] == q.correctAnswerIndex;
      if isCorrect {
        finalScore := finalScore + 1;
        if q.category == General || q.category == Thai {
          analyticalScore := analyticalScore + 1;
        } else if q.category == English {
          englishScore := englishScore + 1;
        } else if q.category == Law {
          lawScore := lawScore + 1;
        }
      }
      idx := idx + 1;
    }
    var isPassed := Passed(finalScore, |qs|);
    var breakdown := if mode == FullExam then Some(Details(analyticalScore, englishScore, lawScore)) else None;
    v := ResultView(finalScore, |qs|, breakdown, isPassed);
  }
}
