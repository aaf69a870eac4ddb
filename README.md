# CSC2026 quiz app — Dafny model

A model of the logic of a practice app for the Thai civil-service
(ก.พ.) entrance exam. Each session works as follows:

1. The app asks a generative-AI service for multiple-choice questions:
   - five questions of one subject in practice mode, or
   - a 100-question mock exam: 25 each of general ability, Thai, English and civil-service law.
2. It walks the learner through the questions, revealing each answer.
3. It scores the session, applies the 60% pass rule, and appends a record to a score history.

The model has seven modules:

- `Types` (`types.ts`): subjects, questions, the session state, score records and screens.
- `Scoring` (`App.tsx`):
  - the score count of `handleNextQuestion`;
  - the per-category breakdown of `saveScore`;
  - the recount and pass rule of `renderResult`.

  Each of these is a `while` loop, proved against recursive counting functions.
- `GeminiService` (`services/geminiService.ts`):
  - `getSubjectGuidelines`;
  - the reply mapping of `fetchBatch`, which tags the category and keeps an `svg` only when it is present, not `"null"` and not blank after `trim`;
  - `generateQuizQuestions`: batches of 5, up to 3 calls per batch, then `slice(0, count)`;
  - `generateFullExam`.

  The network is a **reply oracle** `nat -> Response`: the k-th `fetchBatch` call of a subject receives the k-th reply. The for-loop and the retry while-loop are methods proved equal to a recursive specification. That specification records a log with one entry per batch. The predicate `FollowsOracle` reads that log against the oracle: which calls each batch made, which of them failed, and which reply each batch delivered. The predicate `EndsWithLastCall` says which error a failed run returned: the one from the last call of its last batch.
- `QuizApp` (`App.tsx`): the component as a class `App`.
  - Its fields are `screen`, `subject`, `quizState` and `showCurrentResult`.
  - A ghost `history` stands for the score history in local storage.
  - Each handler is a method that states the whole new state.
  - The invariant `Valid` is required and kept by every event handler, the scoreboard's clear button included. `SaveScore` is the step `NextQuestion` uses, and `ShowResult` changes nothing. It says that the current question exists whenever there are questions, the score is within `0..|questions|`, and a finished session sits on its last question. It also says that every record appended in this run is consistent.
- `Timer` (`components/Timer.tsx`): the h/m/s split with JavaScript's `%`, `toString().padStart(2, '0')`, and the 300 s / 1800 s colour thresholds.
- `QuizCard` (`components/QuizCard.tsx`): the choice colouring, the letter badge and status icon, the click guard, and the ก ข ค ง labels.
- `Wrappers`: `Option` and `Result`.

Numbers are unbounded integers. The percentage `(score / total) * 100 >= 60` becomes
`total > 0 && 100 * score >= 60 * total`. With no questions JavaScript computes
`NaN >= 60`, which is false.

### Behaviour of the source worth knowing

Four behaviours of App.tsx that are easy to miss, each stated by the model:

- **Failed load.** A failed load does not restore the old mode. `handleStartQuiz` sets `mode` before the request (App.tsx:73-78), and the error path spreads that already-updated state (App.tsx:102-106). After a failure, mode and subject are the new ones. Questions, answers, index, score and the finished flag are the old ones.
- **Restart.** Restart does not return exactly to the initial state. `handleRestart` (App.tsx:158-171) does not reset `showCurrentResult`. It resets everything else to the values of App.tsx:10-21. `App.Restart` states this.
- **Failed retry.** A failed retry from the result screen re-opens the finished session. Screen QUIZ then shows the old questions, still on the last one with the reveal on. A further `handleNextQuestion` appends a second record for the same session. `App.StartQuiz` and `App.NextQuestion` together state this.
- **Empty question list.** `handleNextQuestion` on an empty question list is not "the last question". It increments the index to 1 and moves to RESULT without saving (App.tsx:123, 151-155). `App.NextQuestion` models this branch as well.

## Model

| member | source | states |
|---|---|---|
| Scoring.BucketOf | App.tsx:37-39 | GENERAL and THAI feed the analytical counter, ENGLISH and LAW their own, and the two composite selectors none. Each direction is stated. |
| Scoring.CountCorrect | App.tsx:127-132 | The count of correct positions is at most n, and equals n exactly when every one of the first n positions is answered correctly. |
| Scoring.IsCorrectAt | App.tsx:127-132 | The test `userAnswers[idx] === q.correctAnswerIndex`: an answer is recorded at the position and equals the key. `CountIsCardinality` and `ScoreCountsCorrectPositions` count the positions where it holds. |
| Scoring.CountCorrectIn | App.tsx:35-41 | A bucket's correct count never exceeds the total correct count. |
| Scoring.CountInBucket | App.tsx:374-385 | The number of questions feeding a bucket is at most the number of questions. |
| Scoring.Score | App.tsx:127-132 | The session score is at most the number of questions. |
| Scoring.Breakdown | App.tsx:42-46 | The three breakdown counters are non-negative. |
| Scoring.MinPassingScore | App.tsx:337-338 | The smallest passing score is ceil(3·total/5). |
| Scoring.Passed | App.tsx:337-338 | The 60% rule in integers, false with no questions. `PassedIffAtLeastMinimum` and `PassedMonotone` characterise it. |
| Scoring.CountIsCardinality | App.tsx:127-132 | The recursive count equals the size of the set of correctly answered positions. |
| Scoring.ScoreCountsCorrectPositions | App.tsx:127-132 | The score is the number of indices i with `userAnswers[i] == questions[i].correctAnswerIndex`, and lies within 0..\|questions\|. |
| Scoring.BucketsPartitionScore | App.tsx:327-335 | The four buckets' correct counts add up to the total correct count. |
| Scoring.ContentCategoriesFillNoBucket | App.tsx:35-41 | When every category is a content subject, no correct answer falls outside the three counters. |
| Scoring.CorrectInBucketBounded | App.tsx:35-41 | A bucket's correct count is at most the number of its questions. |
| Scoring.BreakdownSumsToScore | App.tsx:35-46 | analytical + english + law ≤ score, with equality when every category is a content subject. |
| Scoring.AnswerChangesOnlyItsPosition | App.tsx:110-119 | Overwriting the answer at one index leaves every other position's correctness unchanged. The count changes only by that position's old and new correctness. |
| Scoring.CountInBucketPrefix | App.tsx:35-41 | A bucket count over a prefix does not depend on what follows. |
| Scoring.CountInBucketConcat | services/geminiService.ts:182-187 | Bucket counts add up over a concatenation of question lists. |
| Scoring.CountInBucketUniform | services/geminiService.ts:118 | A list tagged with one subject fills exactly that subject's bucket. |
| Scoring.PassedIffAtLeastMinimum | App.tsx:337-338 | With questions, a pass means exactly a score of at least ceil(3·total/5): 3 of 5, 60 of 100. |
| Scoring.PassedMonotone | App.tsx:337-338 | A higher score never turns a pass into a fail. |
| Scoring.ComputeScore | App.tsx:127-132 | The `forEach` counter loop returns `Score`, within 0..\|questions\|. |
| Scoring.ComputeBreakdown | App.tsx:30-46 | The `forEach` loop with the if/else-if chain returns `Breakdown`. |
| Scoring.RenderResult | App.tsx:318-338 | The single recount loop gives the score, the total and the pass flag. The flag holds iff there are questions and 100·score ≥ 60·total. A breakdown is present iff the mode is FULL_EXAM, and it equals `Breakdown`. |
| GeminiService.SubjectGuidelines | services/geminiService.ts:42-72 | Each content subject gets its own guideline block. FULL_MOCK and CHALLENGE get none, which is the empty-string default. Each direction is stated. |
| GeminiService.TrimStart | services/geminiService.ts:119 | The result is a suffix of its input. Everything removed in front of it is whitespace, and it starts with a non-whitespace character unless empty. |
| GeminiService.TrimEnd | services/geminiService.ts:119 | The result is a prefix of its input. Everything removed after it is whitespace, and it ends with a non-whitespace character unless empty. |
| GeminiService.Trim | services/geminiService.ts:119 | `trim()` is a contiguous part `s[i..j]` of its input with only whitespace before i and after j. When non-empty it starts and ends with a non-whitespace character. `TrimEmptyIffBlank` characterises its emptiness. |
| GeminiService.TrimStartEmptyIffBlank | services/geminiService.ts:119 | Trimming the start leaves nothing exactly when the string is all whitespace. |
| GeminiService.TrimEmptyIffBlank | services/geminiService.ts:119 | `trim() === ''` exactly when every character is ECMAScript whitespace. |
| GeminiService.TrimEndKeepsLeadingNonBlank | services/geminiService.ts:119 | A string starting with a non-space character does not trim to nothing. |
| GeminiService.NormalizeSvg | services/geminiService.ts:119 | The svg is kept, unchanged, exactly when it is present, non-empty, not "null" and not blank. Otherwise it becomes undefined. |
| GeminiService.TagQuestion | services/geminiService.ts:112-120 | The `map` callback: keeps text, choices, answer index and explanation, sets the category to the requested subject and normalises the svg. `TagAllAt` and `FetchBatchTagsEachQuestion` state this for every delivered question. |
| GeminiService.TagAll | services/geminiService.ts:112-120 | The mapping keeps the number of questions. |
| GeminiService.TagAllAt | services/geminiService.ts:112-120 | The i-th mapped question is the i-th parsed question, tagged. |
| GeminiService.FetchBatch | services/geminiService.ts:104-120 | A batch succeeds iff a reply arrived with non-empty text. An API or parse error propagates its message. An absent or empty text fails with "No data received from AI.". |
| GeminiService.FetchBatchTagsEachQuestion | services/geminiService.ts:112-120 | Every delivered question keeps its text, choices, answer index and explanation. Its category is the requested subject, and its svg follows the normalisation rule. |
| GeminiService.TotalBatches | services/geminiService.ts:134 | The batch count is ceil(count/5): 5·n ≥ count > 5·n − 5. |
| GeminiService.OutcomesSanitized | services/geminiService.ts:146 | Every successful `fetchBatch` outcome is tagged with its subject. |
| GeminiService.RunBatch | services/geminiService.ts:140-161 | A batch makes 1 to 3 calls, and it fails only after 3. |
| GeminiService.RunBatchDelivers | services/geminiService.ts:144-158 | A batch's outcome is its last call's result. Every earlier call failed. |
| GeminiService.RunBatches | services/geminiService.ts:136-165 | The loop starts at most `left` batches. A success ran all of them. |
| GeminiService.RunBatchesConcatenates | services/geminiService.ts:146-147 | A success returns the collected questions followed by every batch's delivery, in order. |
| GeminiService.RunBatchesCalls | services/geminiService.ts:140-158 | Each batch makes 1 to 3 calls. A failure ends with a batch that made 3 calls and delivered nothing, so no partial result. |
| GeminiService.RunBatchesSizes | services/geminiService.ts:137-138 | Each batch requests min(count − collected, 5), and `collected` grows by each delivery. |
| GeminiService.RunBatchesSanitized | services/geminiService.ts:147 | If every delivery is tagged with the subject, so is the result. |
| GeminiService.RunBatchesFollowOracle | services/geminiService.ts:136-165 | The loop's log follows the reply oracle from the starting call:<br>• every batch's calls before its last one failed;<br>• its last call delivered exactly the logged questions, except that the final batch's last call may instead have failed with nothing delivered;<br>• the next batch starts at the call after it. |
| GeminiService.RunBatchesLastCall | services/geminiService.ts:136-165 | The run fails if and only if the last call of its last batch failed. A failed run returns exactly that call's error, which is the error rethrown after the third attempt. |
| GeminiService.LastCallAt | services/geminiService.ts:136-158 | That last call is the call at index `StartOf` of the final batch plus its calls, minus one. |
| GeminiService.StartOf | services/geminiService.ts:136-158 | The index of batch i's first `fetchBatch` call: the starting call plus the calls of the batches before it. `FollowsOracleAt` uses it. |
| GeminiService.FollowsOracleAt | services/geminiService.ts:140-158 | Batch by batch:<br>• batch i + 1 starts at batch i's start plus its calls;<br>• calls from the start up to the last one failed;<br>• the last call of every batch but the final one delivered the logged questions;<br>• the final batch's last call either delivered them or failed with nothing delivered. |
| GeminiService.MissingKeyFailsFirst | services/geminiService.ts:126-129 | Without an API key the call fails with the missing-key message and requests no batch. |
| GeminiService.Generate | services/geminiService.ts:125-169 | The whole `generateQuizQuestions` call as a value with its batch log: the key check, the batch loop and `slice(0, count)`. `MissingKeyFailsFirst`, `GenerateShape` and `ExactDeliveriesGiveCount` characterise it. |
| GeminiService.GenerateShape | services/geminiService.ts:125-169 | Properties of the whole call:<br>• At most ceil(count/5) batches, each of 1 to 3 calls, with the sizes above.<br>• The log follows the reply oracle (`FollowsOracle` from call 0): each batch starts where the previous one stopped, its calls before the last failed, and its last call delivered its questions.<br>• A failure ends with a batch of three failed calls. The call fails if and only if the last call of the last batch failed, and it returns that call's error (`EndsWithLastCall`).<br>• A success runs every batch and returns the prefix of length ≤ count of the in-order deliveries, all tagged with the subject. |
| GeminiService.RunShape | services/geminiService.ts:132-165 | The batch loop from an empty collection:<br>• Every batch makes 1 to 3 calls, and the first starts with nothing collected.<br>• Batch sizes follow the collected count.<br>• The log follows the reply oracle from call 0.<br>• A failure ends with a third failed call and no delivery. The run fails if and only if that last call failed, and it returns that call's error.<br>• A success returns the in-order deliveries, all tagged with the subject. |
| GeminiService.DeliveredLength | services/geminiService.ts:147 | The delivered list is as long as the sum of the batch deliveries. |
| GeminiService.ExactLogSuffix | services/geminiService.ts:136-138 | With exact deliveries, batch i starts after 5·i questions and requests 5 unless it is the last. The last requests 1 to 5 and reaches count. |
| GeminiService.ExactLogPrefix | services/geminiService.ts:136-138 | With exact deliveries, the first i batches delivered 5 each. |
| GeminiService.ExactDeliveriesGiveCount | services/geminiService.ts:132-138 | When each batch returns its requested size, the sizes are 5 except possibly the last. They sum to count, and exactly count questions are returned. |
| GeminiService.GenerateFromRun | services/geminiService.ts:125-169 | With a key, the call is the batch loop followed by `slice(0, count)` on success. |
| GeminiService.RunBatchesFromPrepends | services/geminiService.ts:132-165 | Running the loop while carrying the log written so far equals the run from that point, with the earlier log in front. This is the form the for-loop keeps as its invariant. |
| GeminiService.FetchWithRetry | services/geminiService.ts:140-161 | The `attempts`/`success` while-loop computes `RunBatch`. |
| GeminiService.RunBatchLoop | services/geminiService.ts:132-165 | The for-loop over batches with `questions.push` computes `RunBatches` from an empty collection. |
| GeminiService.GenerateQuizQuestions | services/geminiService.ts:125-169 | The key check, the loop and the slice compute `Generate`, together with its log. |
| GeminiService.SubjectQuestionsTagged | services/geminiService.ts:176-179 | A successful subject request returns at most count questions, all tagged with the subject. |
| GeminiService.SubjectQuestions | services/geminiService.ts:175-180 | One of the four `generateQuizQuestions(subject, 25)` results awaited by `generateFullExam`: `Generate` with the subject's own reply oracle. `SubjectQuestionsTagged` characterises it. |
| GeminiService.CombineExam | services/geminiService.ts:182-191 | The `Promise.all` result: the four parts concatenated in order, or the one full-exam message when any part fails. `CombineExamShape` characterises it. |
| GeminiService.FullExam | services/geminiService.ts:171-192 | `generateFullExam` as a value: four requests of 25, combined. `FullExamShape` and `FullExamPartsTagged` characterise it. |
| GeminiService.CombineExamShape | services/geminiService.ts:182-191 | Properties of the full-exam combination:<br>• It fails iff a part fails, always with the one full-exam message.<br>• Otherwise it is the four parts concatenated in the order GENERAL, THAI, ENGLISH, LAW: at most 100 questions, all of content subjects. |
| GeminiService.FullExamPartsTagged | services/geminiService.ts:175-180 | Each of the four parts has at most 25 questions of its own subject. |
| GeminiService.FullExamShape | services/geminiService.ts:171-192 | The full exam fails, with the one full-exam message, iff one of the four subject requests fails. Otherwise all four succeeded, and the result is their concatenation in the order GENERAL, THAI, ENGLISH, LAW: at most 100 questions, all of content subjects. |
| GeminiService.GenerateFullExam | services/geminiService.ts:171-192 | The four requests of 25 and the catch compute `FullExam`. |
| QuizApp.ModeFor | App.tsx:71-77 | FULL_EXAM exactly for FULL_MOCK, and PRACTICE for every other subject, CHALLENGE included. |
| QuizApp.RequestFor | App.tsx:83-88 | FULL_MOCK requests the full exam. Any other subject requests 5 questions of that subject. |
| QuizApp.DetailsFor | App.tsx:27-47 | A breakdown is attached iff the mode is FULL_EXAM, and it is the per-bucket correct count. |
| QuizApp.Fetched | App.tsx:80-88 | The service's answer to the start request: the full exam for FULL_MOCK, otherwise `Generate` for the subject. `StartQuiz` is stated in terms of it. |
| QuizApp.FreshSession | App.tsx:90-99 | The state a successful load installs: first question, no answers, score 0, not finished, not loading, no error, the chosen mode. `FreshSessionIsValid` shows it meets the session invariant. |
| QuizApp.SessionRecord | App.tsx:49-57 | The record `saveScore` appends. `SessionRecordIsConsistent` states its score, total and breakdown. |
| QuizApp.App.constructor | App.tsx:10-23 | Starts on MENU with no subject, the initial session and the reveal off. The history is what was stored. |
| QuizApp.App.BeginStart | App.tsx:67-80 | Sets the subject and the loading flag, clears the error, sets the mode from the subject and opens QUIZ. Everything else is unchanged. |
| QuizApp.App.CompleteStart | App.tsx:90-107 | Success installs the questions with index 0, no answers, score 0, not finished, not loading and no error, and clears the reveal. Failure only clears loading and sets the Thai error message. |
| QuizApp.App.StartQuiz | App.tsx:67-108 | The whole start, with the service's answer as `Fetched`. On failure the mode is the new one and the questions, answers, index, score and finished flag are the old ones. |
| QuizApp.App.Answer | App.tsx:110-119 | Overwrites only `userAnswers[currentQuestionIndex]` and turns the reveal on. Nothing else changes. |
| QuizApp.App.SaveScore | App.tsx:26-63 | Appends exactly one record (mode, subject or GENERAL, score, total, breakdown for a full exam). Earlier records are unchanged. |
| QuizApp.App.NextQuestion | App.tsx:121-156 | The session update depends on whether the index is the last one (`index == \|questions\| − 1`):<br>• On the last question, the score is the correct count, the session is finished, one `SessionRecord` is appended, and nothing else in the session changes.<br>• Otherwise, including an empty list, the index goes up by exactly 1, and answers, score, finished flag and history are unchanged.<br>The screen change depends on whether `index < \|questions\| − 1`:<br>• If so, the reveal is cleared and the screen is kept.<br>• Otherwise, including an empty list, the reveal is kept and the screen becomes RESULT. |
| QuizApp.App.Restart | App.tsx:158-171 | MENU, no subject, the initial session. The reveal flag and the history are kept. |
| QuizApp.App.ShowScoreboard | App.tsx:186 | Opens the scoreboard, changing nothing else. |
| QuizApp.App.BackToMenu | App.tsx:420 | Returns from the scoreboard to the menu, changing nothing else. |
| QuizApp.App.ClearHistory | components/Scoreboard.tsx:25-30 | After the user confirms, the stored history is empty. Without confirmation nothing changes. The screen and the session are untouched, and `Valid` is kept. |
| QuizApp.App.ShowResult | App.tsx:318-338 | The result screen shows the session's score, total, breakdown and pass flag. The pass flag holds iff `Passed`. |
| QuizApp.FreshSessionIsValid | App.tsx:90-99 | A freshly loaded session and the initial state satisfy the session invariant. |
| QuizApp.SessionRecordIsConsistent | App.tsx:49-57 | A saved record has 0 ≤ score ≤ total = \|questions\|, where score counts the correct positions. Its breakdown is present iff the mode is FULL_EXAM and sums to at most the score. Its subject falls back to GENERAL. |
| QuizApp.ExamBucketSizes | App.tsx:374-385 | In a full-exam layout the analytical, English and law buckets hold \|GENERAL\|+\|THAI\| ≤ 50, \|ENGLISH\| ≤ 25 and \|LAW\| ≤ 25 questions. |
| QuizApp.ExamBucketCount | services/geminiService.ts:182-187 | Each part of the concatenated exam adds its whole length to its own bucket, and nothing to the others. It combines `CountInBucketFourParts` with `CountInBucketUniform` for each part. |
| QuizApp.CountInBucketFourParts | services/geminiService.ts:182-187 | A bucket count over the four concatenated parts is the sum of the four parts' counts. |
| QuizApp.FullExamBreakdownWithinQuotas | App.tsx:370-387 | For a loaded full exam and any answers, the breakdown stays within the 50 / 25 / 25 quotas printed on the result screen, and its counters add up to the score. |
| Timer.JsRem | components/Timer.tsx:9-10 | JavaScript's `%`: the dividend is a multiple of the divisor plus the result, the result keeps the dividend's sign, and its magnitude is below the divisor. Together these fix the value. |
| Timer.Decompose | components/Timer.tsx:8-10 | For timeLeft ≥ 0: hours ≥ 0, 0 ≤ minutes < 60, 0 ≤ seconds < 60, and hours·3600 + minutes·60 + seconds = timeLeft. |
| Timer.DecomposeCompose | components/Timer.tsx:8-10 | Composing (h, m, s) with m, s < 60 and decomposing gives back (h, m, s). |
| Timer.ComposeDecompose | components/Timer.tsx:8-10 | Decomposing a non-negative time and composing gives back the time. |
| Timer.Digits | components/Timer.tsx:22-24 | A non-negative number's decimal digits: at least one, a leading '0' only for 0, and one digit exactly below 10. |
| Timer.PadStart | components/Timer.tsx:22-24 | `padStart` reaches the width, ends with the original string and fills the front with the pad character. |
| Timer.ToDecimal | components/Timer.tsx:22-24 | `toString()` of an integer: the digits of a non-negative number, with a '-' in front otherwise. Characterised for the display fields by `FieldOfNat` and `FieldShape`. |
| Timer.Field | components/Timer.tsx:22-24 | One display field, `toString().padStart(2, '0')`. `FieldOfNat` gives its text, and `FieldShape` its length, digits and value. |
| Timer.DigitsValue | components/Timer.tsx:22-24 | The digits read back as the number. |
| Timer.LeadingZeroValue | components/Timer.tsx:22-24 | A leading '0' does not change the value. |
| Timer.FieldOfNat | components/Timer.tsx:22-24 | A single digit gets one '0' in front. Longer numbers print as they are. |
| Timer.FieldShape | components/Timer.tsx:22-24 | Each field has ≥ 2 digits, starts with '0' exactly when the value is < 10, has exactly 2 digits below 100, and reads back as its value. |
| Timer.DigitsTwoIffBelowHundred | components/Timer.tsx:22-24 | From 10 on, a number has two digits exactly below 100. |
| Timer.SplitDisplay | components/Timer.tsx:21-25 | Joining the hours with two-digit minutes and seconds by ':' can be split again at fixed positions from the end, and read back. |
| Timer.ShowClock | components/Timer.tsx:21-25 | The three fields joined by ':'. `ShowClockReads` shows it reads back as the clock's total. |
| Timer.Display | components/Timer.tsx:8-25 | The text the timer shows for `timeLeft`. `DisplayRoundTrip` shows it has the HH:MM:SS shape and reads back as `timeLeft`. |
| Timer.ShowClockReads | components/Timer.tsx:21-25 | A clock reading with minutes and seconds below 60 is shown as HH:MM:SS and reads back as its total. |
| Timer.DisplayRoundTrip | components/Timer.tsx:8-24 | For timeLeft ≥ 0 the display reads back as timeLeft. |
| Timer.UrgencyOf | components/Timer.tsx:12-16 | Red iff timeLeft < 300, orange iff 300 ≤ timeLeft < 1800, blue otherwise. Exactly one level applies. |
| Timer.UrgencyMonotone | components/Timer.tsx:13-15 | Less time left never gives a less urgent colour. |
| QuizCard.ChoiceMarkOf | components/QuizCard.tsx:32-50 | Before reveal: selected iff it is the recorded answer, else neutral. After reveal: correct iff it is the answer index, wrong iff selected and not correct, dimmed iff neither. |
| QuizCard.RevealMarksOneCorrectAtMostOneWrong | components/QuizCard.tsx:41-49 | After reveal with the answer index in range, exactly one choice is green. At most one is red, namely the wrong pick when there is one. |
| QuizCard.BeforeRevealAtMostOneSelected | components/QuizCard.tsx:35-39 | Before reveal at most one choice is highlighted, and none while unanswered. |
| QuizCard.RevealSeparatesMarks | components/QuizCard.tsx:35-49 | The post-reveal colourings appear exactly when the result is shown. |
| QuizCard.BadgeAndIconFollowMark | components/QuizCard.tsx:97-113 | The letter badge and the tick or cross agree with the button's colouring. The neutral badge classes are present on every choice except the pre-reveal selection. |
| QuizCard.BadgeOf | components/QuizCard.tsx:97-103 | The letter badge's classes: green on the correct choice after reveal, red on the wrong pick, primary on the pre-reveal selection, plain otherwise. `BadgeAndIconFollowMark` ties it to `ChoiceMarkOf`. |
| QuizCard.IconOf | components/QuizCard.tsx:107-113 | A tick on the correct choice after reveal, a cross on the wrong pick, nothing otherwise. `BadgeAndIconFollowMark` ties it to `ChoiceMarkOf`. |
| QuizCard.OnChoiceClick | components/QuizCard.tsx:93-94 | A click reports its own index exactly when the choices are not disabled, that is, before reveal. |
| QuizCard.ChoiceLabel | components/QuizCard.tsx:103 | Only indices 0 to 3 have a label. |
| QuizCard.ChoiceLabelsDistinct | components/QuizCard.tsx:103 | The four labels are distinct. |
| QuizCard.ChoiceLabelsInOrder | components/QuizCard.tsx:103 | Indices 0, 1, 2, 3 are labelled ก, ข, ค, ง. |

## Left out

- The Gemini API call, its prompt text, its response schema and `JSON.parse` (services/geminiService.ts:1-40, 75-109). These are foreign calls. They are replaced by the reply oracle: a rejection with a message, or a reply text together with the parsed question list.
- A reply stream that stops: the oracle is a total function, so every call gets an answer.
- The `console.warn` and `console.error` logging (services/geminiService.ts:150, 156, 189): an effect only, with no bearing on any result.
- `delay` and the back-off and inter-batch pauses (services/geminiService.ts:123, 159, 164): wall-clock time only.
- `Promise.all` runs the four subject requests concurrently. `GenerateFullExam` runs them in order. The result does not depend on completion order.
- Exceptions become `Result` values. The catch in `handleStartQuiz` does not look at the error, so its messages matter only inside the service.
- Local storage: read, `JSON` serialisation and write (App.tsx:59-62). The history is a ghost sequence, starting from whatever was stored.
- `Date.now()`, ISO dates and the random question ids (services/geminiService.ts:113). These are nondeterministic, and are parameters or raw fields.
- React's asynchronous state batching, StrictMode's double call of the `setQuizState` updater, and stale closures. Each handler acts on the state current when it is called, and each finishing advance appends exactly one record.
- Events arriving while a start is awaiting the service. `StartQuiz` treats the start as one step, and `BeginStart`/`CompleteStart` model its two halves.
- Which buttons the UI shows on each screen. Handlers carry no preconditions beyond the source's, so they may be called from any screen.
- The rest of `components/Scoreboard.tsx` (its own copy of the history, read on mount, and the date formatting), `components/SubjectCard.tsx`, `components/LoadingSpinner.tsx`, all JSX markup, CSS class strings and the injected SVG. These are presentation only. Colourings are enumerations.
- Pins, the countdown, the review stage and the CHALLENGE mode's timer. They are declared in types.ts:24, 30-31 and in the card's props, but App.tsx never sets or uses them. The state omits `pinnedIndices`, `timeLeft` and `isReviewing`.
- The `showExplanation` state of the card (components/QuizCard.tsx:25-30): it is set but never read by the logic.
- Floating point. The pass rule is the integer comparison above. `Timer` takes whole seconds, and a fractional `timeLeft` is not modelled.
- The full-exam breakdown is computed by `ComputeBreakdown` for `saveScore`, and again inside `RenderResult` for the result screen. App.tsx likewise repeats the loop.
