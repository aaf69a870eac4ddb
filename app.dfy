/**
 * The quiz session state machine of the top-level component (App.tsx). The
 * component's state hooks become the fields of `App`; each handler is a
 * method. A handler reads the state of the render it was created in, which
 * is the state at the moment it is called.
 */
module QuizApp {
  import opened Wrappers
  import opened Types
  import opened Scoring
  import GeminiService

  /** Number of questions requested for a practice session. */
  const PracticeCount: nat := 5

  /** The error shown on the menu when no questions could be generated. */
  const StartErrorMessage: string := "ไม่สามารถสร้างข้อสอบได้ในขณะนี้ กรุณาลองใหม่อีกครั้ง หรือตรวจสอบ API Key"

  /** The state before any session and after a restart. */
  const InitialQuizState: QuizState := QuizState([], 0, map[], 0, false, false, None, Practice)

  /** FULL_MOCK selects the full exam; every other subject, CHALLENGE included, is practice. */
  function ModeFor(selected: Subject): (m: Mode)
    ensures m == FullExam <==> selected == FullMock
    ensures m == Practice <==> selected != FullMock
  {
    if selected == FullMock then FullExam else Practice
  }

  /** What a start asks the question service for. */
  datatype Request = FullExamRequest | SubjectRequest(subject: Subject, count: nat)

  function RequestFor(selected: Subject): (r: Request)
    ensures r.FullExamRequest? <==> selected == FullMock
    ensures r.SubjectRequest? ==> r.subject == selected && r.count == PracticeCount
  {
    if selected == FullMock then FullExamRequest else SubjectRequest(selected, PracticeCount)
  }

  /** The service's answer to a request. */
  function Fetched(request: Request, p: GeminiService.Provider): Result<seq<Question>, string> {
    match request
    case FullExamRequest => GeminiService.FullExam(p)
    case SubjectRequest(s, count) => GeminiService.Generate(p.hasApiKey, s, count, p.replies(s)).result
  }

  /** A freshly loaded session: first question, no answers, nothing scored. */
  function FreshSession(questions: seq<Question>, mode: Mode): QuizState {
    QuizState(questions, 0, map[], 0, false, false, None, mode)
  }

  /** The breakdown `saveScore` attaches: only a full exam carries one. */
  function DetailsFor(mode: Mode, qs: seq<Question>, answers: map<int, int>): (d: Option<Details>)
    ensures d.Some? <==> mode == FullExam
    ensures d.Some? ==> d.value == Breakdown(qs, answers)
  {
    if mode == FullExam then Some(Breakdown(qs, answers)) else None
  }

  /** A record appended by a finishing advance states score and total consistently. */
  predicate IsSessionRecord(r: ScoreRecord) {
    && 0 <= r.score <= r.total
    && (r.details.Some? <==> r.mode == FullExam)
    && (r.details.Some? ==>
          && 0 <= r.details.value.analytical && 0 <= r.details.value.english && 0 <= r.details.value.law
          && r.details.value.analytical + r.details.value.english + r.details.value.law <= r.score)
  }

  /** The record a finished session produces. */
  function SessionRecord(id: string, date: string, state: QuizState, subject: Option<Subject>): ScoreRecord {
    ScoreRecord(id, date, state.mode, subject.GetOr(General), Score(state.questions, state.userAnswers),
                |state.questions|, DetailsFor(state.mode, state.questions, state.userAnswers))
  }

  /** Invariant facts about a session state. */
  predicate IsSessionState(s: QuizState) {
    && 0 <= s.currentQuestionIndex
    && (|s.questions| > 0 ==> s.currentQuestionIndex < |s.questions|)
    && 0 <= s.score <= |s.questions|
    && (s.isFinished ==> s.currentQuestionIndex == |s.questions| - 1)
    && s.mode != TimedChallenge
  }

  class App {
    var screen: GameScreen
    var subject: Option<Subject>
    var quizState: QuizState
    var showCurrentResult: bool
    /** The score history in local storage: appended to by `saveScore`, emptied by the scoreboard's clear button. */
    ghost var history: seq<ScoreRecord>
    /** How many leading records of the history were already stored when the application started. */
    ghost var storedCount: nat

    ghost predicate Valid()
      reads this
    {
      && IsSessionState(quizState)
      && storedCount <= |history|
      && (forall i :: storedCount <= i < |history| ==> IsSessionRecord(history[i]))
    }

    constructor(ghost stored: seq<ScoreRecord>)
      ensures screen == Menu && subject == None && quizState == InitialQuizState && !showCurrentResult
      ensures history == stored && storedCount == |stored|
      ensures Valid()
    {
      screen := Menu;
      subject := None;
      quizState := InitialQuizState;
      showCurrentResult := false;
      history := stored;
      storedCount := |stored|;
    }

    /** The synchronous part of `handleStartQuiz`: record the subject, set loading and mode, open the quiz screen. */
    method BeginStart(selected: Subject) returns (request: Request)
      requires Valid()
      modifies this
      ensures Valid()
      ensures request == RequestFor(selected)
      ensures subject == Some(selected) && screen == Quiz
      ensures quizState == old(quizState).(isLoading := true, error := None, mode := ModeFor(selected))
      ensures showCurrentResult == old(showCurrentResult)
      ensures history == old(history) && storedCount == old(storedCount)
    {
      subject := Some(selected);
      var isFullExam := selected == FullMock;
      quizState := quizState.(isLoading := true, error := None, mode := if isFullExam then FullExam else Practice);
      screen := Quiz;
      request := if isFullExam then FullExamRequest else SubjectRequest(selected, PracticeCount);
    }

    /** The part of `handleStartQuiz` after the service answered: install the session or the error. */
    method CompleteStart(selected: Subject, fetched: Result<seq<Question>, string>)
      requires Valid()
      modifies this
      ensures Valid()
      ensures fetched.Success? ==> quizState == FreshSession(fetched.value, ModeFor(selected)) && !showCurrentResult
      ensures fetched.Failure? ==>
        quizState == old(quizState).(isLoading := false, error := Some(StartErrorMessage))
        && showCurrentResult == old(showCurrentResult)
      ensures screen == old(screen) && subject == old(subject)
      ensures history == old(history) && storedCount == old(storedCount)
    {
      match fetched
      case Success(questions) =>
        quizState := QuizState(questions, 0, map[], 0, false, false, None,
                               if selected == FullMock then FullExam else Practice);
        showCurrentResult := false;
      case Failure(_) =>
        quizState := quizState.(isLoading := false, error := Some(StartErrorMessage));
    }

    /** `handleStartQuiz` as one event: begin, ask the question service, complete. */
    method StartQuiz(selected: Subject, p: GeminiService.Provider)
      requires Valid()
      modifies this
      ensures Valid()
      ensures var fetched := Fetched(RequestFor(selected), p);
        && (fetched.Success? ==> quizState == FreshSession(fetched.value, ModeFor(selected)) && !showCurrentResult)
        && (fetched.Failure? ==>
              && quizState == old(quizState).(isLoading := false, error := Some(StartErrorMessage), mode := ModeFor(selected))
              && showCurrentResult == old(showCurrentResult))
      ensures subject == Some(selected) && screen == Quiz
      ensures history == old(history) && storedCount == old(storedCount)
    {
      var request := BeginStart(selected);
      var fetched;
      match request {
        case FullExamRequest =>
          fetched := GeminiService.GenerateFullExam(p);
        case SubjectRequest(s, count) =>
          var log;
          fetched, log := GeminiService.GenerateQuizQuestions(p.hasApiKey, s, count, p.replies(s));
      }
      CompleteStart(selected, fetched);
    }

    /** `handleAnswer`: record the choice at the current index and reveal the result. */
    method Answer(choiceIndex: int)
      requires Valid()
      modifies this
      ensures Valid()
      ensures quizState == old(quizState).(userAnswers := old(quizState).userAnswers[old(quizState).currentQuestionIndex := choiceIndex])
      ensures showCurrentResult
      ensures screen == old(screen) && subject == old(subject)
      ensures history == old(history) && storedCount == old(storedCount)
    {
      var answers := quizState.userAnswers[quizState.currentQuestionIndex := choiceIndex];
      quizState := quizState.(userAnswers := answers);
      showCurrentResult := true;
    }

    /** `saveScore`: append one record with the given score and total, and a breakdown for a full exam. */
    method SaveScore(finalScore: int, totalQuestions: int, questions: seq<Question>, userAnswers: map<int, int>,
                     id: string, date: string)
      modifies this
      ensures history == old(history) + [ScoreRecord(id, date, quizState.mode, subject.GetOr(General),
                                                      finalScore, totalQuestions,
                                                      DetailsFor(quizState.mode, questions, userAnswers))]
      ensures screen == old(screen) && subject == old(subject) && quizState == old(quizState)
      ensures showCurrentResult == old(showCurrentResult) && storedCount == old(storedCount)
    {
      var details: Option<Details> := None;
      if quizState.mode == FullExam {
        var d := ComputeBreakdown(questions, userAnswers);
        details := Some(d);
      }
      var record := ScoreRecord(id, date, quizState.mode, subject.GetOr(General), finalScore, totalQuestions, details);
      history := history + [record];
    }

    /**
     * `handleNextQuestion`: on the last question score the session, save it
     * and show the result; otherwise move one question on and hide the reveal.
     * The record's id and date stand for `Date.now()` and the ISO date.
     */
    method NextQuestion(id: string, date: string)
      requires Valid()
      modifies this
      ensures Valid()
      ensures var s := old(quizState);
        if s.currentQuestionIndex == |s.questions| - 1 then
          && quizState == s.(score := Score(s.questions, s.userAnswers), isFinished := true)
          && history == old(history) + [SessionRecord(id, date, s, old(subject))]
        else
          && quizState == s.(currentQuestionIndex := s.currentQuestionIndex + 1)
          && history == old(history)
      ensures var s := old(quizState);
        if s.currentQuestionIndex < |s.questions| - 1 then
          !showCurrentResult && screen == old(screen)
        else
          showCurrentResult == old(showCurrentResult) && screen == Result
      ensures subject == old(subject) && storedCount == old(storedCount)
    {
      var prev := quizState;
      if prev.currentQuestionIndex == |prev.questions| - 1 {
        var score := ComputeScore(prev.questions, prev.userAnswers);
        SaveScore(score, |prev.questions|, prev.questions, prev.userAnswers, id, date);
        BreakdownSumsToScore(prev.questions, prev.userAnswers);
        quizState := prev.(score := score, isFinished := true);
      } else {
        quizState := prev.(currentQuestionIndex := prev.currentQuestionIndex + 1);
      }
      if prev.currentQuestionIndex < |prev.questions| - 1 {
        showCurrentResult := false;
      } else {
        screen := Result;
      }
    }

    /** `handleRestart`: back to the menu with no subject and the initial session; the reveal flag is left as it is. */
    method Restart()
      requires Valid()
      modifies this
      ensures Valid()
      ensures screen == Menu && subject == None && quizState == InitialQuizState
      ensures showCurrentResult == old(showCurrentResult)
      ensures history == old(history) && storedCount == old(storedCount)
    {
      screen := Menu;
      subject := None;
      quizState := QuizState([], 0, map[], 0, false, false, None, Practice);
    }

    /** The scoreboard buttons on the menu and the result screen. */
    method ShowScoreboard()
      requires Valid()
      modifies this
      ensures Valid()
      ensures screen == Scoreboard
      ensures subject == old(subject) && quizState == old(quizState) && showCurrentResult == old(showCurrentResult)
      ensures history == old(history) && storedCount == old(storedCount)
    {
      screen := Scoreboard;
    }

    /** The scoreboard's back button. */
    method BackToMenu()
      requires Valid()
      modifies this
      ensures Valid()
      ensures screen == Menu
      ensures subject == old(subject) && quizState == old(quizState) && showCurrentResult == old(showCurrentResult)
      ensures history == old(history) && storedCount == old(storedCount)
    {
      screen := Menu;
    }

    /**
     * The scoreboard's `clearHistory`: when the user confirms the dialog, the
     * stored history is removed; otherwise nothing changes. The screen and the
     * session are untouched either way.
     */
    method ClearHistory(confirmed: bool)
      requires Valid()
      modifies this
      ensures Valid()
      ensures confirmed ==> history == [] && storedCount == 0
      ensures !confirmed ==> history == old(history) && storedCount == old(storedCount)
      ensures screen == old(screen) && subject == old(subject) && quizState == old(quizState)
      ensures showCurrentResult == old(showCurrentResult)
    {
      if confirmed {
        history := [];
        storedCount := 0;
      }
    }

    /** `renderResult` on the current state. */
    method ShowResult() returns (view: ResultView)
      ensures view.finalScore == Score(quizState.questions, quizState.userAnswers)
      ensures view.total == |quizState.questions|
      ensures view.breakdown == DetailsFor(quizState.mode, quizState.questions, quizState.userAnswers)
      ensures view.isPassed <==> Passed(view.finalScore, view.total)
    {
      view := RenderResult(quizState.questions, quizState.userAnswers, quizState.mode);
    }
  }

  // ---------------------------------------------------------------------------
  // Properties relating the handlers
  // ---------------------------------------------------------------------------

  /** Every state a handler leaves satisfies the session invariants; in particular the loaded start state does. */
  lemma FreshSessionIsValid(questions: seq<Question>, selected: Subject)
    ensures IsSessionState(FreshSession(questions, ModeFor(selected)))
    ensures IsSessionState(InitialQuizState)
  {
  }

  /** A record made from a finished session is consistent, and its score is the count of correct positions. */
  lemma SessionRecordIsConsistent(id: string, date: string, state: QuizState, subject: Option<Subject>)
    ensures IsSessionRecord(SessionRecord(id, date, state, subject))
    ensures var r := SessionRecord(id, date, state, subject);
      && r.score == |set i | 0 <= i < |state.questions| && IsCorrectAt(state.questions, state.userAnswers, i)|
      && r.total == |state.questions|
      && (subject.Some? ==> r.subject == subject.value)
      && (subject.None? ==> r.subject == General)
  {
    BreakdownSumsToScore(state.questions, state.userAnswers);
    ScoreCountsCorrectPositions(state.questions, state.userAnswers);
  }

  /** A list of questions made of the four full-exam parts, each uniform in its subject and at most 25 long. */
  predicate IsExamLayout(g: seq<Question>, t: seq<Question>, e: seq<Question>, l: seq<Question>) {
    && |g| <= GeminiService.FullExamPerSubject && |t| <= GeminiService.FullExamPerSubject
    && |e| <= GeminiService.FullExamPerSubject && |l| <= GeminiService.FullExamPerSubject
    && (forall i :: 0 <= i < |g| ==> g[i].category == General)
    && (forall i :: 0 <= i < |t| ==> t[i].category == Thai)
    && (forall i :: 0 <= i < |e| ==> e[i].category == English)
    && (forall i :: 0 <= i < |l| ==> l[i].category == Law)
  }

  /** In such a list the analytical, English and law buckets hold exactly the GENERAL+THAI, ENGLISH and LAW parts. */
  lemma ExamBucketSizes(g: seq<Question>, t: seq<Question>, e: seq<Question>, l: seq<Question>)
    requires IsExamLayout(g, t, e, l)
    ensures var qs := g + t + e + l;
      && CountInBucket(qs, |qs|, Analytical) == |g| + |t| <= AnalyticalQuota
      && CountInBucket(qs, |qs|, EnglishBucket) == |e| <= EnglishQuota
      && CountInBucket(qs, |qs|, LawBucket) == |l| <= LawQuota
  {
    ExamBucketCount(g, t, e, l, Analytical);
    ExamBucketCount(g, t, e, l, EnglishBucket);
    ExamBucketCount(g, t, e, l, LawBucket);
  }

  /** Each part of the layout adds its whole length to its own bucket and nothing to the others. */
  lemma ExamBucketCount(g: seq<Question>, t: seq<Question>, e: seq<Question>, l: seq<Question>, b: Bucket)
    requires IsExamLayout(g, t, e, l)
    ensures var qs := g + t + e + l;
      CountInBucket(qs, |qs|, b)
        == (if BucketOf(General) == b then |g| else 0) + (if BucketOf(Thai) == b then |t| else 0)
           + (if BucketOf(English) == b then |e| else 0) + (if BucketOf(Law) == b then |l| else 0)
  {
    CountInBucketFourParts(g, t, e, l, b);
    CountInBucketUniform(g, |g|, General, b);
    CountInBucketUniform(t, |t|, Thai, b);
    CountInBucketUniform(e, |e|, English, b);
    CountInBucketUniform(l, |l|, Law, b);
  }

  /** A bucket count over four concatenated parts is the sum of the parts' counts. */
  lemma CountInBucketFourParts(g: seq<Question>, t: seq<Question>, e: seq<Question>, l: seq<Question>, b: Bucket)
    ensures var qs := g + t + e + l;
      CountInBucket(qs, |qs|, b)
        == CountInBucket(g, |g|, b) + CountInBucket(t, |t|, b) + CountInBucket(e, |e|, b) + CountInBucket(l, |l|, b)
  {
    CountInBucketConcat(g, t, |t|, b);
    CountInBucketConcat(g + t, e, |e|, b);
    CountInBucketConcat(g + t + e, l, |l|, b);
  }

  /**
   * Whatever was answered, the breakdown of a loaded full exam stays within
   * the 50 / 25 / 25 quotas printed on the result screen, and its three
   * counters add up to the score.
   */
  lemma FullExamBreakdownWithinQuotas(p: GeminiService.Provider, answers: map<int, int>)
    ensures var r := GeminiService.FullExam(p);
      r.Success? ==>
        var d := Breakdown(r.value, answers);
        && d.analytical <= AnalyticalQuota && d.english <= EnglishQuota && d.law <= LawQuota
        && d.analytical + d.english + d.law == Score(r.value, answers)
  {
    var r := GeminiService.FullExam(p);
    if r.Success? {
      GeminiService.FullExamPartsTagged(p);
      var g := GeminiService.SubjectQuestions(p, General, GeminiService.FullExamPerSubject).value;
      var t := GeminiService.SubjectQuestions(p, Thai, GeminiService.FullExamPerSubject).value;
      var e := GeminiService.SubjectQuestions(p, English, GeminiService.FullExamPerSubject).value;
      var l := GeminiService.SubjectQuestions(p, Law, GeminiService.FullExamPerSubject).value;
      assert r.value == g + t + e + l;
      ExamBucketSizes(g, t, e, l);
      var qs := r.value;
      CorrectInBucketBounded(qs, answers, |qs|, Analytical);
      CorrectInBucketBounded(qs, answers, |qs|, EnglishBucket);
      CorrectInBucketBounded(qs, answers, |qs|, LawBucket);
      GeminiService.FullExamShape(p);
      BreakdownSumsToScore(qs, answers);
    }
  }
}
