/** The application's shared record types (types.ts). */
module Types {
  import opened Wrappers

  /** The six selectable subjects: four content subjects and two session selectors. */
  datatype Subject = General | Thai | English | Law | FullMock | Challenge

  /** The four subjects that questions are actually generated for. */
  predicate IsContentSubject(s: Subject) {
    s == General || s == Thai || s == English || s == Law
  }

  /** One generated multiple-choice question, tagged with the subject it was requested for. */
  datatype Question = Question(
    id: string,
    text: string,
    choices: seq<string>,
    correctAnswerIndex: int,
    explanation: string,
    category: Subject,
    svg: Option<string>)

  /** The session mode; `TimedChallenge` is declared by the types but never produced by the application. */
  datatype Mode = Practice | FullExam | TimedChallenge

  /** The per-category breakdown stored with a full-exam score. */
  datatype Details = Details(analytical: int, english: int, law: int)

  /** One finished session as appended to the score history. */
  datatype ScoreRecord = ScoreRecord(
    id: string,
    date: string,
    mode: Mode,
    subject: Subject,
    score: int,
    total: int,
    details: Option<Details>)

  /** The component state kept by `setQuizState`; replaced as a whole value on every update. */
  datatype QuizState = QuizState(
    questions: seq<Question>,
    currentQuestionIndex: int,
    userAnswers: map<int, int>,
    score: int,
    isFinished: bool,
    isLoading: bool,
    error: Option<string>,
    mode: Mode)

  /** The four top-level screens. */
  datatype GameScreen = Menu | Quiz | Result | Scoreboard
}
