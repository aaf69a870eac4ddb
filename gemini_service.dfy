/**
 * Question generation (services/geminiService.ts): the per-batch result
 * mapping of `fetchBatch`, the batching and retry loop of
 * `generateQuizQuestions`, and the four-subject `generateFullExam`.
 *
 * The generative-AI call itself is outside the model. Each subject's
 * provider is a stream `replies: nat -> Response`: `replies(k)` is what the
 * k-th `fetchBatch` call for that subject receives.
 */
module GeminiService {
  import opened Wrappers
  import opened Types

  /** Questions requested per `fetchBatch` call. */
  const BatchSize: int := 5
  /** Calls made per batch before its error propagates. */
  const MaxAttempts: nat := 3
  /** Questions requested per content subject by the full exam. */
  const FullExamPerSubject: nat := 25

  const MissingKeyMessage: string := "API Key is missing. Please check your environment configuration."
  const NoDataMessage: string := "No data received from AI."
  const FullExamMessage: string := "Failed to generate the full exam. Please try again."

  function Min(a: int, b: int): (m: int)
    ensures m <= a && m <= b && (m == a || m == b)
  {
    if a <= b then a else b
  }

  // ---------------------------------------------------------------------------
  // Prompt guidelines
  // ---------------------------------------------------------------------------

  /** Which guideline block the prompt carries; the prompt text is not modelled. */
  datatype Guideline = MathAndLogicMix | ThaiLanguageMix | EnglishMix | CivilServiceLawTopics | NoGuideline

  /** `getSubjectGuidelines`: one block per content subject, the empty string otherwise. */
  function SubjectGuidelines(s: Subject): (g: Guideline)
    ensures g == NoGuideline <==> !IsContentSubject(s)
    ensures s == General <==> g == MathAndLogicMix
    ensures s == Thai <==> g == ThaiLanguageMix
    ensures s == English <==> g == EnglishMix
    ensures s == Law <==> g == CivilServiceLawTopics
  {
    match s
    case General => MathAndLogicMix
    case Thai => ThaiLanguageMix
    case English => EnglishMix
    case Law => CivilServiceLawTopics
    case _ => NoGuideline
  }

  // ---------------------------------------------------------------------------
  // String trimming, as JavaScript's String.prototype.trim
  // ---------------------------------------------------------------------------

  /** The characters `trim` removes: ECMAScript WhiteSpace and LineTerminator. */
  predicate IsWhitespace(c: char) {
    c == '\t' || c == '\n' || c == '\U{000B}' || c == '\U{000C}' || c == '\r' || c == ' '
    || c == '\U{00A0}' || c == '\U{1680}' || ('\U{2000}' <= c <= '\U{200A}')
    || c == '\U{2028}' || c == '\U{2029}' || c == '\U{202F}' || c == '\U{205F}'
    || c == '\U{3000}' || c == '\U{FEFF}'
  }

  predicate IsBlank(s: string) {
    forall i :: 0 <= i < |s| ==> IsWhitespace(s[i])
  }

  lemma BlankConcat(a: string, b: string)
    requires IsBlank(a) && IsBlank(b)
    ensures IsBlank(a + b)
  {
    forall i | 0 <= i < |a + b| ensures IsWhitespace((a + b)[i]) {
      if i >= |a| { assert (a + b)[i] == b[i - |a|]; }
    }
  }

  /** Dropping a leading blank keeps the removed front blank. */
  lemma TrimStartStep(s: string, r: string)
    requires s != "" && IsWhitespace(s[0])
    requires |r| <= |s| - 1 && r == s[1..][|s| - 1 - |r|..] && IsBlank(s[1..][..|s| - 1 - |r|])
    ensures r == s[|s| - |r|..] && IsBlank(s[..|s| - |r|])
  {
    BlankConcat([s[0]], s[1..][..|s| - 1 - |r|]);
    assert s[..|s| - |r|] == [s[0]] + s[1..][..|s| - 1 - |r|];
  }

  /** Dropping a trailing blank keeps the removed back blank. */
  lemma TrimEndStep(s: string, r: string)
    requires s != "" && IsWhitespace(s[|s| - 1])
    requires |r| <= |s| - 1 && r == s[..|s| - 1][..|r|] && IsBlank(s[..|s| - 1][|r|..])
    ensures r == s[..|r|] && IsBlank(s[|r|..])
  {
    var t := s[..|s| - 1];
    BlankConcat(t[|r|..], [s[|s| - 1]]);
    assert s[|r|..] == t[|r|..] + [s[|s| - 1]];
  }

  function TrimStart(s: string): (r: string)
    ensures |r| <= |s| && r == s[|s| - |r|..]
    ensures IsBlank(s[..|s| - |r|])
    ensures r != "" ==> !IsWhitespace(r[0])
  {
    if s != "" && IsWhitespace(s[0]) then
      var r := TrimStart(s[1..]);
      TrimStartStep(s, r);
      r
    else s
  }

  function TrimEnd(s: string): (r: string)
    ensures |r| <= |s| && r == s[..|r|]
    ensures IsBlank(s[|r|..])
    ensures r != "" ==> !IsWhitespace(r[|r| - 1])
  {
    if s != "" && IsWhitespace(s[|s| - 1]) then
      var r := TrimEnd(s[..|s| - 1]);
      TrimEndStep(s, r);
      r
    else s
  }

  /** `trim()`: the middle of s left when whitespace is removed from both ends. */
  function Trim(s: string): (r: string)
    ensures exists i, j :: 0 <= i <= j <= |s| && r == s[i..j] && IsBlank(s[..i]) && IsBlank(s[j..])
    ensures r != "" ==> !IsWhitespace(r[0]) && !IsWhitespace(r[|r| - 1])
  {
    var t := TrimStart(s);
    var r := TrimEnd(t);
    TrimMiddle(s, t, r);
    r
  }

  /** Cutting blanks off the front of s and then off the back leaves a middle part of s. */
  lemma TrimMiddle(s: string, t: string, r: string)
    requires |t| <= |s| && t == s[|s| - |t|..] && IsBlank(s[..|s| - |t|])
    requires t != "" ==> !IsWhitespace(t[0])
    requires |r| <= |t| && r == t[..|r|] && IsBlank(t[|r|..])
    requires r != "" ==> !IsWhitespace(r[|r| - 1])
    ensures exists i, j :: 0 <= i <= j <= |s| && r == s[i..j] && IsBlank(s[..i]) && IsBlank(s[j..])
    ensures r != "" ==> !IsWhitespace(r[0]) && !IsWhitespace(r[|r| - 1])
  {
    var i := |s| - |t|;
    var j := i + |r|;
    assert s[i..j] == r;
    assert s[j..] == t[|r|..];
    if r != "" { assert r[0] == t[0]; }
  }

  lemma {:induction false} TrimStartEmptyIffBlank(s: string)
    ensures TrimStart(s) == "" <==> IsBlank(s)
  {
    if s != "" && IsWhitespace(s[0]) {
      TrimStartEmptyIffBlank(s[1..]);
      assert IsBlank(s[1..]) ==> IsBlank(s) by {
        if IsBlank(s[1..]) {
          forall i | 0 <= i < |s| ensures IsWhitespace(s[i]) {
            if i > 0 { assert s[i] == s[1..][i - 1]; }
          }
        }
      }
    }
  }

  /** `s.trim() === ''` holds exactly when every character of s is whitespace. */
  lemma TrimEmptyIffBlank(s: string)
    ensures Trim(s) == "" <==> IsBlank(s)
  {
    TrimStartEmptyIffBlank(s);
    var t := TrimStart(s);
    if t != "" {
      // TrimEnd stops at the latest at t[0], which is not whitespace.
      assert TrimEnd(t) != "" by { TrimEndKeepsLeadingNonBlank(t); }
    }
  }

  lemma {:induction false} TrimEndKeepsLeadingNonBlank(t: string)
    requires t != "" && !IsWhitespace(t[0])
    ensures TrimEnd(t) != ""
  {
    if IsWhitespace(t[|t| - 1]) {
      TrimEndKeepsLeadingNonBlank(t[..|t| - 1]);
    }
  }

  // ---------------------------------------------------------------------------
  // fetchBatch: the reply and its mapping into questions
  // ---------------------------------------------------------------------------

  /** A question as parsed from the reply, before tagging; `id` stands for the generated identifier. */
  datatype RawQuestion = RawQuestion(
    id: string, text: string, choices: seq<string>, correctAnswerIndex: int,
    explanation: string, svg: Option<string>)

  /**
   * What one `fetchBatch` call receives: an exception from the API call or
   * from parsing (`Rejected`), or a reply whose text may be absent and whose
   * parsed question list is `questions`.
   */
  datatype Response = Rejected(message: string) | Reply(text: Option<string>, questions: seq<RawQuestion>)

  /** An svg field survives the mapping: a non-empty string, not "null", not blank. */
  predicate SvgIsKept(svg: Option<string>) {
    svg.Some? && svg.value != "" && svg.value != "null" && !IsBlank(svg.value)
  }

  /** The `svg` normalisation of the mapping. */
  function NormalizeSvg(svg: Option<string>): (r: Option<string>)
    ensures r.Some? <==> SvgIsKept(svg)
    ensures r.Some? ==> r == svg
  {
    match svg
    case None => None
    case Some(v) =>
      TrimEmptyIffBlank(v);
      if v != "" && v != "null" && Trim(v) != "" then svg else None
  }

  /** Every question carries `subject` as its category and a kept-or-absent svg. */
  predicate Sanitized(qs: seq<Question>, subject: Subject) {
    forall i :: 0 <= i < |qs| ==> qs[i].category == subject && (qs[i].svg.None? || SvgIsKept(qs[i].svg))
  }

  function TagQuestion(raw: RawQuestion, subject: Subject): Question {
    Question(raw.id, raw.text, raw.choices, raw.correctAnswerIndex, raw.explanation,
             subject, NormalizeSvg(raw.svg))
  }

  /** The `map` over the parsed questions. */
  function TagAll(raws: seq<RawQuestion>, subject: Subject): (qs: seq<Question>)
    ensures |qs| == |raws|
  {
    if raws == [] then [] else [TagQuestion(raws[0], subject)] + TagAll(raws[1..], subject)
  }

  lemma {:induction false} TagAllAt(raws: seq<RawQuestion>, subject: Subject, i: int)
    requires 0 <= i < |raws|
    ensures TagAll(raws, subject)[i] == TagQuestion(raws[i], subject)
  {
    if i > 0 {
      TagAllAt(raws[1..], subject, i - 1);
    }
  }

  /** `fetchBatch` after the API call: an absent or empty text throws; otherwise every parsed question is tagged. */
  function FetchBatch(subject: Subject, resp: Response): (r: Result<seq<Question>, string>)
    ensures r.Success? <==> resp.Reply? && resp.text.Some? && resp.text.value != ""
    ensures resp.Rejected? ==> r == Failure(resp.message)
    ensures resp.Reply? && !r.Success? ==> r == Failure(NoDataMessage)
    ensures r.Success? ==> |r.value| == |resp.questions|
  {
    match resp
    case Rejected(msg) => Failure(msg)
    case Reply(text, raws) =>
      if text.None? || text.value == "" then Failure(NoDataMessage)
      else Success(TagAll(raws, subject))
  }

  /**
   * A delivered batch keeps each parsed question's fields, sets its category
   * to the requested subject, and keeps its svg only when it is present, not
   * "null" and not blank.
   */
  lemma FetchBatchTagsEachQuestion(subject: Subject, resp: Response)
    requires FetchBatch(subject, resp).Success?
    ensures var qs := FetchBatch(subject, resp).value;
      && Sanitized(qs, subject)
      && forall i :: 0 <= i < |qs| ==>
        var q, raw := qs[i], resp.questions[i];
        q.id == raw.id && q.text == raw.text && q.choices == raw.choices
        && q.correctAnswerIndex == raw.correctAnswerIndex && q.explanation == raw.explanation
        && q.category == subject
        && q.svg == (if SvgIsKept(raw.svg) then raw.svg else None)
  {
    var tagged := FetchBatch(subject, resp).value;
    forall i | 0 <= i < |tagged| ensures tagged[i] == TagQuestion(resp.questions[i], subject) {
      TagAllAt(resp.questions, subject, i);
    }
  }

  // ---------------------------------------------------------------------------
  // generateQuizQuestions: specification
  // ---------------------------------------------------------------------------

  /** `Math.ceil(count / BATCH_SIZE)`. */
  function TotalBatches(count: nat): (n: nat)
    ensures BatchSize * n >= count && BatchSize * n < count + BatchSize
  {
    (count + BatchSize - 1) / BatchSize
  }

  /** What the k-th `fetchBatch` call for `subject` returns, given the provider's k-th reply. */
  function Outcomes(subject: Subject, replies: nat -> Response): nat -> Result<seq<Question>, string> {
    (k: nat) => FetchBatch(subject, replies(k))
  }

  /** Every delivered batch is sanitised for its subject. */
  lemma OutcomesSanitized(subject: Subject, replies: nat -> Response)
    ensures forall k: nat :: Outcomes(subject, replies)(k).Success? ==> Sanitized(Outcomes(subject, replies)(k).value, subject)
  {
    forall k: nat | Outcomes(subject, replies)(k).Success?
      ensures Sanitized(Outcomes(subject, replies)(k).value, subject)
    {
      FetchBatchTagsEachQuestion(subject, replies(k));
    }
  }

  /** The fate of one batch: its outcome and how many `fetchBatch` calls it took in all. */
  datatype BatchRun = BatchRun(outcome: Result<seq<Question>, string>, calls: nat)

  /** The retry loop of one batch, from call k onwards, after `failed` failed calls. */
  function RunBatch(outcomes: nat -> Result<seq<Question>, string>, k: nat, failed: nat): (b: BatchRun)
    requires failed < MaxAttempts
    decreases MaxAttempts - failed
    ensures failed < b.calls <= MaxAttempts
    ensures b.outcome.Failure? ==> b.calls == MaxAttempts
  {
    match outcomes(k)
    case Success(batch) => BatchRun(Success(batch), failed + 1)
    case Failure(e) =>
      if failed + 1 >= MaxAttempts then BatchRun(Failure(e), failed + 1)
      else RunBatch(outcomes, k + 1, failed + 1)
  }

  /**
   * A batch's outcome is what its last call returned, and every call before
   * that one failed: a batch is retried only after a failure.
   */
  lemma {:induction false} RunBatchDelivers(outcomes: nat -> Result<seq<Question>, string>, k: nat, failed: nat)
    requires failed < MaxAttempts
    decreases MaxAttempts - failed
    ensures var b := RunBatch(outcomes, k, failed);
      && b.outcome == outcomes(k + b.calls - 1 - failed)
      && forall j :: k <= j < k + b.calls - 1 - failed ==> outcomes(j).Failure?
  {
    if outcomes(k).Failure? && failed + 1 < MaxAttempts {
      RunBatchDelivers(outcomes, k + 1, failed + 1);
    }
  }

  /**
   * One entry per batch the loop started: how many questions had been
   * collected before it, the size it requested, the calls it made, and the
   * questions it delivered (none when it failed).
   */
  datatype BatchLog = BatchLog(before: nat, size: int, calls: nat, delivered: seq<Question>)

  datatype Fetch = Fetch(result: Result<seq<Question>, string>, log: seq<BatchLog>)

  /** The in-order concatenation of what the batches delivered. */
  function Delivered(log: seq<BatchLog>): seq<Question> {
    if log == [] then [] else log[0].delivered + Delivered(log[1..])
  }

  /** Successive batches request `min(count - collected, BATCH_SIZE)` and the count grows by each delivery. */
  predicate SizesFollowCollected(log: seq<BatchLog>, count: nat) {
    (forall i :: 0 <= i < |log| ==> log[i].size == Min(count - log[i].before, BatchSize))
    && (forall i :: 0 <= i < |log| - 1 ==> log[i + 1].before == log[i].before + |log[i].delivered|)
  }

  /** The remaining `left` iterations of the batch loop, from call k, with `collected` gathered so far. */
  function RunBatches(count: nat, outcomes: nat -> Result<seq<Question>, string>, k: nat,
                      left: nat, collected: seq<Question>): (f: Fetch)
    decreases left
    ensures |f.log| <= left
    ensures f.result.Success? ==> |f.log| == left
  {
    if left == 0 then Fetch(Success(collected), [])
    else
      var size := Min(count - |collected|, BatchSize);
      var b := RunBatch(outcomes, k, 0);
      match b.outcome
      case Failure(e) => Fetch(Failure(e), [BatchLog(|collected|, size, b.calls, [])])
      case Success(batch) =>
        var rest := RunBatches(count, outcomes, k + b.calls, left - 1, collected + batch);
        Fetch(rest.result, [BatchLog(|collected|, size, b.calls, batch)] + rest.log)
  }

  /** A successful run returns what was collected followed by every batch's delivery, in order. */
  lemma {:induction false} RunBatchesConcatenates(count: nat, outcomes: nat -> Result<seq<Question>, string>, k: nat,
                                                  left: nat, collected: seq<Question>)
    decreases left
    ensures var f := RunBatches(count, outcomes, k, left, collected);
      f.result.Success? ==> f.result.value == collected + Delivered(f.log)
  {
    if left > 0 {
      var b := RunBatch(outcomes, k, 0);
      if b.outcome.Success? {
        var batch := b.outcome.value;
        RunBatchesConcatenates(count, outcomes, k + b.calls, left - 1, collected + batch);
        var rest := RunBatches(count, outcomes, k + b.calls, left - 1, collected + batch);
        var log := [BatchLog(|collected|, Min(count - |collected|, BatchSize), b.calls, batch)] + rest.log;
        assert log[1..] == rest.log;
      }
    }
  }

  /** Every batch makes one to three calls; a failed run ends with a batch that made three and delivered nothing. */
  lemma RunBatchesCalls(count: nat, outcomes: nat -> Result<seq<Question>, string>, k: nat,
                        left: nat, collected: seq<Question>)
    ensures var f := RunBatches(count, outcomes, k, left, collected);
      && (forall i :: 0 <= i < |f.log| ==> 1 <= f.log[i].calls <= MaxAttempts)
      && (f.result.Failure? ==>
            |f.log| > 0 && f.log[|f.log| - 1].calls == MaxAttempts && f.log[|f.log| - 1].delivered == [])
  {
    RunBatchesCallBounds(count, outcomes, k, left, collected);
    RunBatchesFailureEnd(count, outcomes, k, left, collected);
  }

  lemma {:induction false} RunBatchesCallBounds(count: nat, outcomes: nat -> Result<seq<Question>, string>, k: nat,
                                                left: nat, collected: seq<Question>)
    decreases left
    ensures CallsBounded(RunBatches(count, outcomes, k, left, collected).log)
  {
    if left > 0 {
      var b := RunBatch(outcomes, k, 0);
      var entry := BatchLog(|collected|, Min(count - |collected|, BatchSize), b.calls,
                            if b.outcome.Success? then b.outcome.value else []);
      if b.outcome.Success? {
        var rest := RunBatches(count, outcomes, k + b.calls, left - 1, collected + b.outcome.value);
        assert RunBatches(count, outcomes, k, left, collected) == Fetch(rest.result, [entry] + rest.log);
        RunBatchesCallBounds(count, outcomes, k + b.calls, left - 1, collected + b.outcome.value);
        CallsCons(entry, rest.log);
      } else {
        assert RunBatches(count, outcomes, k, left, collected) == Fetch(b.outcome, [entry]);
        CallsCons(entry, []);
      }
    }
  }

  lemma {:induction false} RunBatchesFailureEnd(count: nat, outcomes: nat -> Result<seq<Question>, string>, k: nat,
                                                left: nat, collected: seq<Question>)
    decreases left
    ensures var f := RunBatches(count, outcomes, k, left, collected);
      f.result.Failure? ==>
        |f.log| > 0 && f.log[|f.log| - 1].calls == MaxAttempts && f.log[|f.log| - 1].delivered == []
  {
    if left > 0 {
      var b := RunBatch(outcomes, k, 0);
      var entry := BatchLog(|collected|, Min(count - |collected|, BatchSize), b.calls,
                            if b.outcome.Success? then b.outcome.value else []);
      if b.outcome.Success? {
        var rest := RunBatches(count, outcomes, k + b.calls, left - 1, collected + b.outcome.value);
        assert RunBatches(count, outcomes, k, left, collected) == Fetch(rest.result, [entry] + rest.log);
        RunBatchesFailureEnd(count, outcomes, k + b.calls, left - 1, collected + b.outcome.value);
        if rest.result.Failure? {
          LastOfCons(entry, rest.log);
        }
      } else {
        assert RunBatches(count, outcomes, k, left, collected) == Fetch(b.outcome, [entry]);
      }
    }
  }

  lemma LastOfCons(entry: BatchLog, rest: seq<BatchLog>)
    requires rest != []
    ensures ([entry] + rest)[|rest|] == rest[|rest| - 1]
  {
  }

  /** Every batch of the log made between one and three calls. */
  predicate CallsBounded(log: seq<BatchLog>) {
    forall i :: 0 <= i < |log| ==> 1 <= log[i].calls <= MaxAttempts
  }

  lemma CallsCons(entry: BatchLog, rest: seq<BatchLog>)
    requires 1 <= entry.calls <= MaxAttempts && CallsBounded(rest)
    ensures CallsBounded([entry] + rest)
  {
    var log := [entry] + rest;
    forall i | 0 < i < |log| ensures log[i] == rest[i - 1] { }
  }

  /** Each batch asks for `min(count - collected, 5)`, and `collected` grows by exactly what it delivered. */
  lemma {:induction false} RunBatchesSizes(count: nat, outcomes: nat -> Result<seq<Question>, string>, k: nat,
                                           left: nat, collected: seq<Question>)
    decreases left
    ensures var f := RunBatches(count, outcomes, k, left, collected);
      && (|f.log| > 0 ==> f.log[0].before == |collected|)
      && SizesFollowCollected(f.log, count)
  {
    if left > 0 {
      var b := RunBatch(outcomes, k, 0);
      var size := Min(count - |collected|, BatchSize);
      if b.outcome.Success? {
        var batch := b.outcome.value;
        var rest := RunBatches(count, outcomes, k + b.calls, left - 1, collected + batch);
        var entry := BatchLog(|collected|, size, b.calls, batch);
        assert RunBatches(count, outcomes, k, left, collected) == Fetch(rest.result, [entry] + rest.log);
        RunBatchesSizes(count, outcomes, k + b.calls, left - 1, collected + batch);
        SizesCons(entry, rest.log, count);
      } else {
        var entry := BatchLog(|collected|, size, b.calls, []);
        assert RunBatches(count, outcomes, k, left, collected).log == [entry];
        SizesCons(entry, [], count);
      }
    }
  }

  lemma SizesCons(entry: BatchLog, rest: seq<BatchLog>, count: nat)
    requires entry.size == Min(count - entry.before, BatchSize)
    requires SizesFollowCollected(rest, count)
    requires |rest| > 0 ==> rest[0].before == entry.before + |entry.delivered|
    ensures SizesFollowCollected([entry] + rest, count)
  {
    var log := [entry] + rest;
    forall i | 0 < i < |log| ensures log[i] == rest[i - 1] { }
  }

  /** Every call from `from` up to, not including, `upto` failed. */
  predicate CallsFailed(outcomes: nat -> Result<seq<Question>, string>, from: nat, upto: int) {
    forall j :: from <= j < upto ==> outcomes(j).Failure?
  }

  /**
   * One log entry read against the oracle, its batch starting at call k:
   * every call before its last one failed, and the last call delivered the
   * entry's questions or, only when the entry is the run's final one, failed
   * with nothing delivered.
   */
  predicate BatchFollows(outcomes: nat -> Result<seq<Question>, string>, k: nat, entry: BatchLog, final: bool) {
    && entry.calls >= 1
    && CallsFailed(outcomes, k, k + entry.calls - 1)
    && (|| outcomes(k + entry.calls - 1) == Success(entry.delivered)
        || (final && outcomes(k + entry.calls - 1).Failure? && entry.delivered == []))
  }

  /** The whole log read against the oracle: each batch starts at the call after the previous batch's last one. */
  predicate FollowsOracle(outcomes: nat -> Result<seq<Question>, string>, k: nat, log: seq<BatchLog>)
    decreases |log|
  {
    log != [] ==>
      && BatchFollows(outcomes, k, log[0], |log| == 1)
      && FollowsOracle(outcomes, k + log[0].calls, log[1..])
  }

  /** A run's log read against the oracle. */
  predicate FetchFollowsOracle(outcomes: nat -> Result<seq<Question>, string>, k: nat, f: Fetch) {
    FollowsOracle(outcomes, k, f.log)
  }

  /** What the last call of the log's last batch returned, the first batch starting at call k. */
  function LastCall(outcomes: nat -> Result<seq<Question>, string>, k: nat, log: seq<BatchLog>): Result<seq<Question>, string>
    requires log != [] && log[|log| - 1].calls >= 1
    decreases |log|
  {
    if |log| == 1 then outcomes(k + log[0].calls - 1)
    else
      assert log[1..][|log| - 2] == log[|log| - 1];
      LastCall(outcomes, k + log[0].calls, log[1..])
  }

  /** Each batch's calls come from the oracle in order, one batch after the other. */
  lemma {:induction false} RunBatchesFollowOracle(count: nat, outcomes: nat -> Result<seq<Question>, string>, k: nat,
                                                  left: nat, collected: seq<Question>)
    decreases left
    ensures FetchFollowsOracle(outcomes, k, RunBatches(count, outcomes, k, left, collected))
  {
    if left > 0 {
      var b := RunBatch(outcomes, k, 0);
      var entry := BatchLog(|collected|, Min(count - |collected|, BatchSize), b.calls,
                            if b.outcome.Success? then b.outcome.value else []);
      BatchFromOracle(outcomes, k, |collected|, Min(count - |collected|, BatchSize));
      if b.outcome.Success? {
        var rest := RunBatches(count, outcomes, k + b.calls, left - 1, collected + b.outcome.value);
        assert RunBatches(count, outcomes, k, left, collected) == Fetch(rest.result, [entry] + rest.log);
        RunBatchesFollowOracle(count, outcomes, k + b.calls, left - 1, collected + b.outcome.value);
        FollowsOracleCons(outcomes, k, entry, rest.log);
        assert FetchFollowsOracle(outcomes, k, Fetch(rest.result, [entry] + rest.log));
      } else {
        assert RunBatches(count, outcomes, k, left, collected) == Fetch(b.outcome, [entry]);
        FollowsOracleCons(outcomes, k, entry, []);
      }
    }
  }

  /** `RunBatchDelivers` from a batch's first call, as the log entry the loop writes for it. */
  lemma BatchFromOracle(outcomes: nat -> Result<seq<Question>, string>, k: nat, before: nat, size: int)
    ensures var b := RunBatch(outcomes, k, 0);
      && BatchFollows(outcomes, k, BatchLog(before, size, b.calls, if b.outcome.Success? then b.outcome.value else []),
                      true)
      && (b.outcome.Success? ==>
            BatchFollows(outcomes, k, BatchLog(before, size, b.calls, b.outcome.value), false))
  {
    RunBatchDelivers(outcomes, k, 0);
  }

  lemma FollowsOracleCons(outcomes: nat -> Result<seq<Question>, string>, k: nat, entry: BatchLog, rest: seq<BatchLog>)
    requires BatchFollows(outcomes, k, entry, rest == [])
    requires FollowsOracle(outcomes, k + entry.calls, rest)
    ensures FollowsOracle(outcomes, k, [entry] + rest)
  {
    assert ([entry] + rest)[0] == entry && ([entry] + rest)[1..] == rest;
  }

  /**
   * A run fails exactly when the last call of its last batch failed, and then
   * it returns that call's failure: the error of the third attempt.
   */
  predicate EndsWithLastCall(outcomes: nat -> Result<seq<Question>, string>, k: nat, f: Fetch) {
    f.log != [] ==>
      && f.log[|f.log| - 1].calls >= 1
      && (f.result.Failure? <==> LastCall(outcomes, k, f.log).Failure?)
      && (f.result.Failure? ==> f.result == LastCall(outcomes, k, f.log))
  }

  lemma {:induction false} RunBatchesLastCall(count: nat, outcomes: nat -> Result<seq<Question>, string>, k: nat,
                                              left: nat, collected: seq<Question>)
    decreases left
    ensures EndsWithLastCall(outcomes, k, RunBatches(count, outcomes, k, left, collected))
  {
    if left > 0 {
      var b := RunBatch(outcomes, k, 0);
      BatchLastCall(outcomes, k);
      var entry := BatchLog(|collected|, Min(count - |collected|, BatchSize), b.calls,
                            if b.outcome.Success? then b.outcome.value else []);
      if b.outcome.Success? {
        var rest := RunBatches(count, outcomes, k + b.calls, left - 1, collected + b.outcome.value);
        assert RunBatches(count, outcomes, k, left, collected) == Fetch(rest.result, [entry] + rest.log);
        RunBatchesLastCall(count, outcomes, k + b.calls, left - 1, collected + b.outcome.value);
        EndsWithLastCallCons(outcomes, k, entry, rest);
      } else {
        assert RunBatches(count, outcomes, k, left, collected) == Fetch(b.outcome, [entry]);
      }
    }
  }

  /** A batch's outcome is its last call's. */
  lemma BatchLastCall(outcomes: nat -> Result<seq<Question>, string>, k: nat)
    ensures var b := RunBatch(outcomes, k, 0); b.calls >= 1 && b.outcome == outcomes(k + b.calls - 1)
  {
    RunBatchDelivers(outcomes, k, 0);
  }

  lemma EndsWithLastCallCons(outcomes: nat -> Result<seq<Question>, string>, k: nat, entry: BatchLog, rest: Fetch)
    requires entry.calls >= 1 && outcomes(k + entry.calls - 1).Success?
    requires EndsWithLastCall(outcomes, k + entry.calls, rest)
    requires rest.log == [] ==> rest.result.Success?
    ensures EndsWithLastCall(outcomes, k, Fetch(rest.result, [entry] + rest.log))
  {
    assert ([entry] + rest.log)[0] == entry && ([entry] + rest.log)[1..] == rest.log;
  }

  /** The index of the first call of batch i, when the log's first batch starts at call k. */
  function StartOf(log: seq<BatchLog>, k: nat, i: nat): nat
    requires i <= |log|
  {
    if i == 0 then k else StartOf(log, k, i - 1) + log[i - 1].calls
  }

  lemma {:induction false} StartOfCons(log: seq<BatchLog>, k: nat, i: nat)
    requires 1 <= i <= |log|
    ensures StartOf(log, k, i) == StartOf(log[1..], k + log[0].calls, i - 1)
  {
    if i > 1 {
      StartOfCons(log, k, i - 1);
      assert log[1..][i - 2] == log[i - 1];
    }
  }

  /**
   * `FollowsOracle` batch by batch: batch i starts where batch i - 1 stopped,
   * its calls before the last failed, and its last call delivered its
   * questions, except that the final batch's last call may have failed
   * instead, delivering none.
   */
  lemma {:induction false} FollowsOracleAt(outcomes: nat -> Result<seq<Question>, string>, k: nat,
                                           log: seq<BatchLog>, i: nat)
    requires FollowsOracle(outcomes, k, log) && i < |log|
    decreases i
    ensures log[i].calls >= 1
    ensures i + 1 < |log| ==> StartOf(log, k, i + 1) == StartOf(log, k, i) + log[i].calls
    ensures forall j :: StartOf(log, k, i) <= j < StartOf(log, k, i) + log[i].calls - 1 ==> outcomes(j).Failure?
    ensures i + 1 < |log| ==> outcomes(StartOf(log, k, i) + log[i].calls - 1) == Success(log[i].delivered)
    ensures i + 1 == |log| ==>
              || outcomes(StartOf(log, k, i) + log[i].calls - 1) == Success(log[i].delivered)
              || (outcomes(StartOf(log, k, i) + log[i].calls - 1).Failure? && log[i].delivered == [])
  {
    if i > 0 {
      FollowsOracleAt(outcomes, k + log[0].calls, log[1..], i - 1);
      StartOfCons(log, k, i);
      assert log[1..][i - 1] == log[i];
    }
  }

  /** The last call is the last call of the final batch, counted from the start. */
  lemma {:induction false} LastCallAt(outcomes: nat -> Result<seq<Question>, string>, k: nat, log: seq<BatchLog>)
    requires log != [] && log[|log| - 1].calls >= 1
    decreases |log|
    ensures StartOf(log, k, |log| - 1) + log[|log| - 1].calls >= 1
    ensures LastCall(outcomes, k, log) == outcomes(StartOf(log, k, |log| - 1) + log[|log| - 1].calls - 1)
  {
    if |log| > 1 {
      assert log[1..][|log| - 2] == log[|log| - 1];
      LastCallAt(outcomes, k + log[0].calls, log[1..]);
      StartOfCons(log, k, |log| - 1);
    }
  }

  /** Tagging survives the loop: when every delivery is sanitised, so is the result. */
  lemma {:induction false} RunBatchesSanitized(subject: Subject, count: nat, outcomes: nat -> Result<seq<Question>, string>,
                                               k: nat, left: nat, collected: seq<Question>)
    requires forall j: nat :: outcomes(j).Success? ==> Sanitized(outcomes(j).value, subject)
    requires Sanitized(collected, subject)
    decreases left
    ensures var f := RunBatches(count, outcomes, k, left, collected);
      f.result.Success? ==> Sanitized(f.result.value, subject)
  {
    if left > 0 {
      var b := RunBatch(outcomes, k, 0);
      if b.outcome.Success? {
        var batch := b.outcome.value;
        RunBatchDelivers(outcomes, k, 0);
        assert Sanitized(batch, subject);
        assert Sanitized(collected + batch, subject) by {
          forall i | 0 <= i < |collected + batch|
            ensures (collected + batch)[i].category == subject
            ensures (collected + batch)[i].svg.None? || SvgIsKept((collected + batch)[i].svg)
          {
            if i >= |collected| { assert (collected + batch)[i] == batch[i - |collected|]; }
          }
        }
        RunBatchesSanitized(subject, count, outcomes, k + b.calls, left - 1, collected + batch);
      }
    }
  }

  /** `generateQuizQuestions(subject, count)`: key check, the batch loop, then `slice(0, count)`. */
  function Generate(hasApiKey: bool, subject: Subject, count: nat, replies: nat -> Response): (f: Fetch)
  {
    if !hasApiKey then Fetch(Failure(MissingKeyMessage), [])
    else
      var run := RunBatches(count, Outcomes(subject, replies), 0, TotalBatches(count), []);
      match run.result
      case Failure(_) => run
      case Success(qs) => Fetch(Success(qs[..Min(count, |qs|)]), run.log)
  }

  // ---------------------------------------------------------------------------
  // generateQuizQuestions: properties
  // ---------------------------------------------------------------------------

  /** A missing API key fails before any batch is requested. */
  lemma MissingKeyFailsFirst(subject: Subject, count: nat, replies: nat -> Response)
    ensures Generate(false, subject, count, replies) == Fetch(Failure(MissingKeyMessage), [])
  {
  }

  /**
   * The loop runs at most ceil(count / 5) batches, each making 1 to 3 calls;
   * a failure is the third failed call of the last batch started and returns
   * no questions; a success returns the first `count` (at most) of the
   * batches' deliveries in order, every one tagged with the subject.
   */
  lemma GenerateShape(hasApiKey: bool, subject: Subject, count: nat, replies: nat -> Response)
    ensures var f := Generate(hasApiKey, subject, count, replies);
      && |f.log| <= TotalBatches(count)
      && (forall i :: 0 <= i < |f.log| ==> 1 <= f.log[i].calls <= MaxAttempts)
      && (|f.log| > 0 ==> f.log[0].before == 0)
      && SizesFollowCollected(f.log, count)
      && (f.result.Failure? && hasApiKey ==>
            |f.log| > 0 && f.log[|f.log| - 1].calls == MaxAttempts && f.log[|f.log| - 1].delivered == [])
      && (f.result.Success? ==>
            |f.log| == TotalBatches(count)
            && |f.result.value| <= count
            && f.result.value == Delivered(f.log)[..Min(count, |Delivered(f.log)|)]
            && Sanitized(f.result.value, subject))
      && FollowsOracle(Outcomes(subject, replies), 0, f.log)
      && EndsWithLastCall(Outcomes(subject, replies), 0, f)
  {
    if hasApiKey {
      RunShape(subject, count, replies);
      GenerateFromRun(subject, count, replies);
      var run := RunBatches(count, Outcomes(subject, replies), 0, TotalBatches(count), []);
      if run.result.Success? {
        SanitizedPrefix(run.result.value, Min(count, |run.result.value|), subject);
      }
    }
  }

  /** The batch loop from the start: the facts of `GenerateShape` before the final slice. */
  lemma RunShape(subject: Subject, count: nat, replies: nat -> Response)
    ensures var run := RunBatches(count, Outcomes(subject, replies), 0, TotalBatches(count), []);
      && (forall i :: 0 <= i < |run.log| ==> 1 <= run.log[i].calls <= MaxAttempts)
      && (|run.log| > 0 ==> run.log[0].before == 0)
      && SizesFollowCollected(run.log, count)
      && (run.result.Failure? ==>
            |run.log| > 0 && run.log[|run.log| - 1].calls == MaxAttempts && run.log[|run.log| - 1].delivered == [])
      && (run.result.Success? ==> run.result.value == Delivered(run.log) && Sanitized(run.result.value, subject))
      && FollowsOracle(Outcomes(subject, replies), 0, run.log)
      && EndsWithLastCall(Outcomes(subject, replies), 0, run)
  {
    var outcomes := Outcomes(subject, replies);
    var run := RunBatches(count, outcomes, 0, TotalBatches(count), []);
    RunBatchesConcatenates(count, outcomes, 0, TotalBatches(count), []);
    RunBatchesCalls(count, outcomes, 0, TotalBatches(count), []);
    RunBatchesSizes(count, outcomes, 0, TotalBatches(count), []);
    OutcomesSanitized(subject, replies);
    RunBatchesSanitized(subject, count, outcomes, 0, TotalBatches(count), []);
    RunBatchesFollowOracle(count, outcomes, 0, TotalBatches(count), []);
    RunBatchesLastCall(count, outcomes, 0, TotalBatches(count), []);
    assert [] + Delivered(run.log) == Delivered(run.log);
  }

  lemma SanitizedPrefix(qs: seq<Question>, n: nat, subject: Subject)
    requires n <= |qs| && Sanitized(qs, subject)
    ensures Sanitized(qs[..n], subject)
  {
    forall i | 0 <= i < n ensures qs[..n][i] == qs[i] { }
  }

  /** Length and total delivery of a log, summed. */
  function DeliveredCount(log: seq<BatchLog>): nat {
    if log == [] then 0 else |log[0].delivered| + DeliveredCount(log[1..])
  }

  lemma {:induction false} DeliveredLength(log: seq<BatchLog>)
    ensures |Delivered(log)| == DeliveredCount(log)
  {
    if log != [] {
      DeliveredLength(log[1..]);
    }
  }

  /** Under exact deliveries, the batch at position i starts after 5 * i questions, and the rest of the log sums correctly. */
  lemma {:induction false} ExactLogSuffix(log: seq<BatchLog>, count: nat, i: nat)
    requires i < |log| && |log| == TotalBatches(count)
    requires SizesFollowCollected(log, count) && log[0].before == 0
    requires forall j :: 0 <= j < |log| ==> |log[j].delivered| == log[j].size
    ensures log[i].before == BatchSize * i
    ensures i < |log| - 1 ==> log[i].size == BatchSize
    ensures i == |log| - 1 ==> 1 <= log[i].size <= BatchSize && log[i].before + log[i].size == count
    ensures DeliveredCount(log[i..]) == count - BatchSize * i
    decreases |log| - i
  {
    if i > 0 {
      ExactLogPrefix(log, count, i);
    }
    if i < |log| - 1 {
      ExactLogSuffix(log, count, i + 1);
      assert log[i..][1..] == log[i + 1..];
    } else {
      assert log[i..][1..] == [];
    }
  }

  /** Under exact deliveries, the first i batches delivered 5 each. */
  lemma {:induction false} ExactLogPrefix(log: seq<BatchLog>, count: nat, i: nat)
    requires i < |log| && |log| == TotalBatches(count)
    requires SizesFollowCollected(log, count) && log[0].before == 0
    requires forall j :: 0 <= j < |log| ==> |log[j].delivered| == log[j].size
    ensures log[i].before == BatchSize * i
  {
    if i > 0 {
      ExactLogPrefix(log, count, i - 1);
      // batch i - 1 is not the last one, so at least five questions were still missing
      assert log[i - 1].size == BatchSize;
    }
  }

  /**
   * When every batch delivers exactly the size it requested, the requested
   * sizes are 5 except possibly the last, they sum to count, and exactly
   * `count` questions are returned.
   */
  lemma ExactDeliveriesGiveCount(hasApiKey: bool, subject: Subject, count: nat, replies: nat -> Response)
    requires Generate(hasApiKey, subject, count, replies).result.Success?
    requires var log := Generate(hasApiKey, subject, count, replies).log;
      forall j :: 0 <= j < |log| ==> |log[j].delivered| == log[j].size
    ensures var f := Generate(hasApiKey, subject, count, replies);
      && (forall j :: 0 <= j < |f.log| - 1 ==> f.log[j].size == BatchSize)
      && (|f.log| > 0 ==> 1 <= f.log[|f.log| - 1].size <= BatchSize)
      && DeliveredCount(f.log) == count
      && |f.result.value| == count
  {
    GenerateShape(hasApiKey, subject, count, replies);
    var f := Generate(hasApiKey, subject, count, replies);
    var log := f.log;
    DeliveredLength(log);
    if |log| == 0 {
      assert count == 0;
    } else {
      forall j | 0 <= j < |log| - 1 ensures log[j].size == BatchSize {
        ExactLogSuffix(log, count, j);
      }
      ExactLogSuffix(log, count, |log| - 1);
      ExactLogSuffix(log, count, 0);
      assert log[0..] == log;
    }
  }

  // ---------------------------------------------------------------------------
  // generateQuizQuestions: the loop
  // ---------------------------------------------------------------------------

  /** Prefixes an already-recorded log to the rest of a run. */
  function Prepend(log: seq<BatchLog>, f: Fetch): Fetch {
    Fetch(f.result, log + f.log)
  }

  /** With a key, `Generate` is the batch loop followed by the final slice. */
  lemma GenerateFromRun(subject: Subject, count: nat, replies: nat -> Response)
    ensures var run := RunBatches(count, Outcomes(subject, replies), 0, TotalBatches(count), []);
      Generate(true, subject, count, replies)
      == if run.result.Failure? then run
         else Fetch(Success(run.result.value[..Min(count, |run.result.value|)]), run.log)
  {
  }

  lemma PrependTwice(log: seq<BatchLog>, more: seq<BatchLog>, f: Fetch)
    ensures Prepend(log, Prepend(more, f)) == Prepend(log + more, f)
  {
    assert log + (more + f.log) == (log + more) + f.log;
  }

  /**
   * `RunBatches` carrying the log written so far: the form in which
   * `RunBatchLoop` keeps its invariant.
   * `RunBatchesFromPrepends` shows it is `RunBatches` with that log in front.
   */
  function RunBatchesFrom(count: nat, outcomes: nat -> Result<seq<Question>, string>, k: nat,
                          left: nat, collected: seq<Question>, log: seq<BatchLog>): Fetch
    decreases left
  {
    if left == 0 then Fetch(Success(collected), log)
    else
      var size := Min(count - |collected|, BatchSize);
      var b := RunBatch(outcomes, k, 0);
      match b.outcome
      case Failure(e) => Fetch(Failure(e), log + [BatchLog(|collected|, size, b.calls, [])])
      case Success(batch) =>
        RunBatchesFrom(count, outcomes, k + b.calls, left - 1, collected + batch,
                       log + [BatchLog(|collected|, size, b.calls, batch)])
  }

  /** An iteration of the for-loop whose retry loop failed: the run stops with that failure. */
  lemma RunBatchesFromFails(count: nat, outcomes: nat -> Result<seq<Question>, string>, k: nat, left: nat,
                            collected: seq<Question>, log: seq<BatchLog>, e: string, calls: nat)
    requires left > 0 && BatchRun(Failure(e), calls) == RunBatch(outcomes, k, 0)
    ensures RunBatchesFrom(count, outcomes, k, left, collected, log)
         == Fetch(Failure(e), log + [BatchLog(|collected|, Min(count - |collected|, BatchSize), calls, [])])
  {
  }

  /** An iteration of the for-loop whose retry loop delivered: the run goes on with the delivery collected. */
  lemma RunBatchesFromContinues(count: nat, outcomes: nat -> Result<seq<Question>, string>, k: nat, left: nat,
                                collected: seq<Question>, log: seq<BatchLog>, batch: seq<Question>, calls: nat)
    requires left > 0 && BatchRun(Success(batch), calls) == RunBatch(outcomes, k, 0)
    ensures RunBatchesFrom(count, outcomes, k, left, collected, log)
         == RunBatchesFrom(count, outcomes, k + calls, left - 1, collected + batch,
                           log + [BatchLog(|collected|, Min(count - |collected|, BatchSize), calls, batch)])
  {
  }

  /** Carrying the log along is the same as prefixing it to the run. */
  lemma {:induction false} RunBatchesFromPrepends(count: nat, outcomes: nat -> Result<seq<Question>, string>, k: nat,
                                                  left: nat, collected: seq<Question>, log: seq<BatchLog>)
    decreases left
    ensures RunBatchesFrom(count, outcomes, k, left, collected, log)
         == Prepend(log, RunBatches(count, outcomes, k, left, collected))
  {
    if left == 0 {
      assert log + [] == log;
    } else {
      var b := RunBatch(outcomes, k, 0);
      var entry := BatchLog(|collected|, Min(count - |collected|, BatchSize), b.calls,
                            if b.outcome.Success? then b.outcome.value else []);
      if b.outcome.Success? {
        var batch := b.outcome.value;
        RunBatchesFromPrepends(count, outcomes, k + b.calls, left - 1, collected + batch, log + [entry]);
        PrependTwice(log, [entry], RunBatches(count, outcomes, k + b.calls, left - 1, collected + batch));
      }
    }
  }

  /** The retry loop of one batch: call `fetchBatch` until it succeeds or has failed three times. */
  method FetchWithRetry(subject: Subject, replies: nat -> Response, k0: nat)
    returns (outcome: Result<seq<Question>, string>, calls: nat)
    ensures BatchRun(outcome, calls) == RunBatch(Outcomes(subject, replies), k0, 0)
  {
    ghost var outcomes := Outcomes(subject, replies);
    var k := k0;
    var attempts := 0;
    var success := false;
    var batch: seq<Question> := [];
    while attempts < MaxAttempts && !success
      invariant 0 <= attempts < MaxAttempts
      invariant k == k0 + attempts + (if success then 1 else 0)
      invariant !success ==> RunBatch(outcomes, k0, 0) == RunBatch(outcomes, k, attempts)
      invariant success ==> RunBatch(outcomes, k0, 0) == BatchRun(Success(batch), attempts + 1)
      decreases MaxAttempts - attempts, if success then 0 else 1
    {
      var r := FetchBatch(subject, replies(k));
      assert r == outcomes(k);
      k := k + 1;
      match r {
        case Success(b) =>
          batch := b;
          success := true;
        case Failure(e) =>
          attempts := attempts + 1;
          if attempts >= MaxAttempts {
            outcome, calls := Failure(e), attempts;
            return;
          }
      }
    }
    outcome, calls := Success(batch), attempts + 1;
  }

  /** The for-loop over batches; returns what it collected (or the error thrown) and the batch log. */
  method RunBatchLoop(subject: Subject, count: nat, replies: nat -> Response)
    returns (result: Result<seq<Question>, string>, log: seq<BatchLog>)
    ensures Fetch(result, log) == RunBatches(count, Outcomes(subject, replies), 0, TotalBatches(count), [])
  {
    ghost var outcomes := Outcomes(subject, replies);
    log := [];
    var questions: seq<Question> := [];
    var totalBatches := TotalBatches(count);
    ghost var whole := RunBatchesFrom(count, outcomes, 0, totalBatches, [], []);
    RunBatchesFromPrepends(count, outcomes, 0, totalBatches, [], []);
    assert whole == RunBatches(count, outcomes, 0, totalBatches, []) by {
      assert [] + RunBatches(count, outcomes, 0, totalBatches, []).log == RunBatches(count, outcomes, 0, totalBatches, []).log;
    }
    var k: nat := 0;
    for i := 0 to totalBatches
      invariant whole == RunBatchesFrom(count, outcomes, k, totalBatches - i, questions, log)
    {
      var remaining := count - |questions|;
      var currentBatchSize := Min(remaining, BatchSize);
      var outcome, calls := FetchWithRetry(subject, replies, k);
      if outcome.Failure? {
        RunBatchesFromFails(count, outcomes, k, totalBatches - i, questions, log, outcome.error, calls);
        log := log + [BatchLog(|questions|, currentBatchSize, calls, [])];
        result := outcome;
        return;
      }
      var delivered := outcome.value;
      RunBatchesFromContinues(count, outcomes, k, totalBatches - i, questions, log, delivered, calls);
      log := log + [BatchLog(|questions|, currentBatchSize, calls, delivered)];
      questions := questions + delivered;
      k := k + calls;
    }
    result := Success(questions);
  }

  /** `generateQuizQuestions`: the key check, the batch loop, and `slice(0, count)`; also returns the batch log. */
  method GenerateQuizQuestions(hasApiKey: bool, subject: Subject, count: nat, replies: nat -> Response)
    returns (result: Result<seq<Question>, string>, log: seq<BatchLog>)
    ensures Fetch(result, log) == Generate(hasApiKey, subject, count, replies)
  {
    if !hasApiKey {
      return Failure(MissingKeyMessage), [];
    }
    result, log := RunBatchLoop(subject, count, replies);
    GenerateFromRun(subject, count, replies);
    if result.Success? {
      var questions := result.value;
      result := Success(questions[..Min(count, |questions|)]);
    }
  }

  // ---------------------------------------------------------------------------
  // generateFullExam
  // ---------------------------------------------------------------------------

  /**
   * The provider as the application sees it: whether `process.env.API_KEY`
   * is set, and each subject's own stream of replies.
   */
  datatype Provider = Provider(hasApiKey: bool, replies: Subject -> (nat -> Response))

  /** The result `generateQuizQuestions(subject, count)` returns with this provider. */
  function SubjectQuestions(p: Provider, subject: Subject, count: nat): Result<seq<Question>, string> {
    Generate(p.hasApiKey, subject, count, p.replies(subject)).result
  }

  /** What `generateFullExam` makes of the four subject results: their concatenation, or one error. */
  function CombineExam(g: Result<seq<Question>, string>, t: Result<seq<Question>, string>,
                       e: Result<seq<Question>, string>, l: Result<seq<Question>, string>)
    : Result<seq<Question>, string>
  {
    if g.Success? && t.Success? && e.Success? && l.Success? then Success(g.value + t.value + e.value + l.value)
    else Failure(FullExamMessage)
  }

  /** `generateFullExam`: GENERAL, THAI, ENGLISH and LAW with 25 each, concatenated in that order. */
  function FullExam(p: Provider): Result<seq<Question>, string> {
    CombineExam(SubjectQuestions(p, General, FullExamPerSubject), SubjectQuestions(p, Thai, FullExamPerSubject),
                SubjectQuestions(p, English, FullExamPerSubject), SubjectQuestions(p, Law, FullExamPerSubject))
  }

  /** Position of a content subject in the full exam's fixed order. */
  function ExamRank(s: Subject): nat {
    match s
    case General => 0
    case Thai => 1
    case English => 2
    case Law => 3
    case _ => 4
  }

  /** Every question of a successful `generateQuizQuestions` is tagged with its subject, and there are at most `count`. */
  lemma SubjectQuestionsTagged(p: Provider, subject: Subject, count: nat)
    ensures var r := SubjectQuestions(p, subject, count);
      r.Success? ==> |r.value| <= count && Sanitized(r.value, subject)
  {
    GenerateShape(p.hasApiKey, subject, count, p.replies(subject));
  }

  /** A part of the full exam: at most 25 questions, all of one subject. */
  predicate IsExamPart(r: Result<seq<Question>, string>, subject: Subject) {
    r.Success? ==> |r.value| <= FullExamPerSubject && Sanitized(r.value, subject)
  }

  /**
   * The combination fails with its one message exactly when a part fails;
   * otherwise it is the four parts concatenated, at most 100 content questions
   * grouped GENERAL, THAI, ENGLISH, LAW in that order.
   */
  lemma CombineExamShape(g: Result<seq<Question>, string>, t: Result<seq<Question>, string>,
                         e: Result<seq<Question>, string>, l: Result<seq<Question>, string>)
    requires IsExamPart(g, General) && IsExamPart(t, Thai) && IsExamPart(e, English) && IsExamPart(l, Law)
    ensures var r := CombineExam(g, t, e, l);
      && (r.Failure? <==> g.Failure? || t.Failure? || e.Failure? || l.Failure?)
      && (r.Failure? ==> r.error == FullExamMessage)
      && (r.Success? ==>
            && g.Success? && t.Success? && e.Success? && l.Success?
            && r.value == g.value + t.value + e.value + l.value
            && |r.value| <= 4 * FullExamPerSubject
            && (forall i :: 0 <= i < |r.value| ==> IsContentSubject(r.value[i].category))
            && (forall i, j :: 0 <= i <= j < |r.value| ==>
                  ExamRank(r.value[i].category) <= ExamRank(r.value[j].category)))
  {
    if CombineExam(g, t, e, l).Success? {
      var g, t, e, l := g.value, t.value, e.value, l.value;
      var qs := g + t + e + l;
      forall i | 0 <= i < |qs|
        ensures ExamRank(qs[i].category) == (if i < |g| then 0 else if i < |g| + |t| then 1
                                             else if i < |g| + |t| + |e| then 2 else 3)
      {
        if i < |g| { assert qs[i] == g[i]; }
        else if i < |g| + |t| { assert qs[i] == t[i - |g|]; }
        else if i < |g| + |t| + |e| { assert qs[i] == e[i - |g| - |t|]; }
        else { assert qs[i] == l[i - |g| - |t| - |e|]; }
      }
    }
  }

  /** Each of the four parts of the full exam holds at most 25 questions, all of its own subject. */
  lemma FullExamPartsTagged(p: Provider)
    ensures IsExamPart(SubjectQuestions(p, General, FullExamPerSubject), General)
    ensures IsExamPart(SubjectQuestions(p, Thai, FullExamPerSubject), Thai)
    ensures IsExamPart(SubjectQuestions(p, English, FullExamPerSubject), English)
    ensures IsExamPart(SubjectQuestions(p, Law, FullExamPerSubject), Law)
  {
    SubjectQuestionsTagged(p, General, FullExamPerSubject);
    SubjectQuestionsTagged(p, Thai, FullExamPerSubject);
    SubjectQuestionsTagged(p, English, FullExamPerSubject);
    SubjectQuestionsTagged(p, Law, FullExamPerSubject);
  }

  /** The full exam fails with one message when any part fails, and is otherwise at most 100 questions in subject order. */
  lemma FullExamShape(p: Provider)
    ensures var r := FullExam(p);
      && (r.Failure? <==> exists s :: IsContentSubject(s) && SubjectQuestions(p, s, FullExamPerSubject).Failure?)
      && (r.Failure? ==> r.error == FullExamMessage)
      && (r.Success? ==>
            && SubjectQuestions(p, General, FullExamPerSubject).Success?
            && SubjectQuestions(p, Thai, FullExamPerSubject).Success?
            && SubjectQuestions(p, English, FullExamPerSubject).Success?
            && SubjectQuestions(p, Law, FullExamPerSubject).Success?
            && r.value == SubjectQuestions(p, General, FullExamPerSubject).value
                          + SubjectQuestions(p, Thai, FullExamPerSubject).value
                          + SubjectQuestions(p, English, FullExamPerSubject).value
                          + SubjectQuestions(p, Law, FullExamPerSubject).value
            && |r.value| <= 4 * FullExamPerSubject
            && (forall i :: 0 <= i < |r.value| ==> IsContentSubject(r.value[i].category))
            && (forall i, j :: 0 <= i <= j < |r.value| ==>
                  ExamRank(r.value[i].category) <= ExamRank(r.value[j].category)))
  {
    FullExamPartsTagged(p);
    CombineExamShape(SubjectQuestions(p, General, FullExamPerSubject), SubjectQuestions(p, Thai, FullExamPerSubject),
                     SubjectQuestions(p, English, FullExamPerSubject), SubjectQuestions(p, Law, FullExamPerSubject));
  }

  /** `generateFullExam`: the four subject requests (run in parallel by the source, in a fixed order here). */
  method GenerateFullExam(p: Provider) returns (result: Result<seq<Question>, string>)
    ensures result == FullExam(p)
  {
    var math, _ := GenerateQuizQuestions(p.hasApiKey, General, FullExamPerSubject, p.replies(General));
    var thai, _ := GenerateQuizQuestions(p.hasApiKey, Thai, FullExamPerSubject, p.replies(Thai));
    var english, _ := GenerateQuizQuestions(p.hasApiKey, English, FullExamPerSubject, p.replies(English));
    var law, _ := GenerateQuizQuestions(p.hasApiKey, Law, FullExamPerSubject, p.replies(Law));
    result := CombineExam(math, thai, english, law);
  }
}
