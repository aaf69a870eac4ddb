/**
 * The question card (components/QuizCard.tsx): how each choice is coloured
 * before and after the answer is revealed, the click guard, and the Thai
 * choice labels.
 */
module QuizCard {
  import opened Wrappers

  /** The five colourings `getChoiceClass` can return. */
  datatype ChoiceMark =
    | Selected   // before reveal: the chosen choice (primary ring)
    | Neutral    // before reveal: any other choice
    | Correct    // after reveal: the right answer (green)
    | Wrong      // after reveal: the chosen wrong answer (red)
    | Dimmed     // after reveal: any other choice (faded)

  /**
   * `getChoiceClass(index)`; `selectedChoice` is the recorded answer for the
   * question, absent while it is unanswered.
   */
  function ChoiceMarkOf(index: int, showResult: bool, selectedChoice: Option<int>, correctAnswerIndex: int): (m: ChoiceMark)
    ensures !showResult ==> (m == Selected || m == Neutral)
    ensures !showResult ==> (m == Selected <==> selectedChoice == Some(index))
    ensures showResult ==> (m == Correct <==> index == correctAnswerIndex)
    ensures showResult ==> (m == Wrong <==> selectedChoice == Some(index) && index != correctAnswerIndex)
    ensures showResult ==> (m == Dimmed <==> index != correctAnswerIndex && selectedChoice != Some(index))
  {
    if !showResult then
      if selectedChoice == Some(index) then Selected else Neutral
    else if index == correctAnswerIndex then Correct
    else if selectedChoice == Some(index) && index != correctAnswerIndex then Wrong
    else Dimmed
  }

  /** Indices among the first n choices that carry the given colouring. */
  function MarkedAmong(n: nat, showResult: bool, selectedChoice: Option<int>, correctAnswerIndex: int, mark: ChoiceMark): (s: set<int>)
  {
    set i | 0 <= i < n && ChoiceMarkOf(i, showResult, selectedChoice, correctAnswerIndex) == mark
  }

  /**
   * After reveal exactly one choice is green when the stored answer index is
   * one of the choices, and at most one is red: the learner's own wrong pick.
   */
  lemma RevealMarksOneCorrectAtMostOneWrong(n: nat, selectedChoice: Option<int>, correctAnswerIndex: int)
    requires 0 <= correctAnswerIndex < n
    ensures MarkedAmong(n, true, selectedChoice, correctAnswerIndex, Correct) == {correctAnswerIndex}
    ensures |MarkedAmong(n, true, selectedChoice, correctAnswerIndex, Wrong)| <= 1
    ensures selectedChoice.Some? && selectedChoice.value != correctAnswerIndex && 0 <= selectedChoice.value < n
      ==> MarkedAmong(n, true, selectedChoice, correctAnswerIndex, Wrong) == {selectedChoice.value}
  {
    var wrong := MarkedAmong(n, true, selectedChoice, correctAnswerIndex, Wrong);
    if selectedChoice.Some? && selectedChoice.value != correctAnswerIndex && 0 <= selectedChoice.value < n {
      assert wrong == {selectedChoice.value};
    } else {
      assert wrong == {};
    }
  }

  /** Before reveal at most one choice is highlighted, and none while the question is unanswered. */
  lemma BeforeRevealAtMostOneSelected(n: nat, selectedChoice: Option<int>, correctAnswerIndex: int)
    ensures |MarkedAmong(n, false, selectedChoice, correctAnswerIndex, Selected)| <= 1
    ensures selectedChoice == None ==> MarkedAmong(n, false, selectedChoice, correctAnswerIndex, Selected) == {}
  {
    var sel := MarkedAmong(n, false, selectedChoice, correctAnswerIndex, Selected);
    if selectedChoice.Some? && 0 <= selectedChoice.value < n {
      assert sel == {selectedChoice.value};
    } else {
      assert sel == {};
    }
  }

  /** Revealing never shows the pre-reveal colourings, and hiding never shows the post-reveal ones. */
  lemma RevealSeparatesMarks(index: int, showResult: bool, selectedChoice: Option<int>, correctAnswerIndex: int)
    ensures var m := ChoiceMarkOf(index, showResult, selectedChoice, correctAnswerIndex);
      showResult <==> (m == Correct || m == Wrong || m == Dimmed)
  {
  }

  // ---------------------------------------------------------------------------
  // Letter badge and status icon of a choice
  // ---------------------------------------------------------------------------

  /** Which of the conditional class groups of a choice's letter badge are present. */
  datatype Badge = Badge(green: bool, red: bool, primary: bool, plain: bool)

  function BadgeOf(index: int, showResult: bool, selectedChoice: Option<int>, correctAnswerIndex: int): Badge {
    Badge(
      showResult && index == correctAnswerIndex,
      showResult && selectedChoice == Some(index) && index != correctAnswerIndex,
      !showResult && selectedChoice == Some(index),
      !(!showResult && selectedChoice == Some(index)))
  }

  datatype Icon = Check | Cross | NoIcon

  function IconOf(index: int, showResult: bool, selectedChoice: Option<int>, correctAnswerIndex: int): Icon {
    if showResult && index == correctAnswerIndex then Check
    else if showResult && selectedChoice == Some(index) && index != correctAnswerIndex then Cross
    else NoIcon
  }

  /**
   * The badge and the icon agree with the button's colouring: green badge and
   * tick on the correct choice, red badge and cross on the wrong pick, primary
   * badge on the pre-reveal selection. The neutral badge classes are present
   * on every choice that is not the pre-reveal selection, so after reveal the
   * green and red badges carry them too.
   */
  lemma BadgeAndIconFollowMark(index: int, showResult: bool, selectedChoice: Option<int>, correctAnswerIndex: int)
    ensures var m := ChoiceMarkOf(index, showResult, selectedChoice, correctAnswerIndex);
      var b := BadgeOf(index, showResult, selectedChoice, correctAnswerIndex);
      var i := IconOf(index, showResult, selectedChoice, correctAnswerIndex);
      && (b.green <==> m == Correct) && (b.red <==> m == Wrong)
      && (b.primary <==> m == Selected) && (b.plain <==> m != Selected)
      && (i == Check <==> m == Correct) && (i == Cross <==> m == Wrong)
  {
  }

  // ---------------------------------------------------------------------------
  // Clicking a choice
  // ---------------------------------------------------------------------------

  /** A choice button is disabled once the result is shown. */
  predicate ChoiceDisabled(showResult: bool) {
    showResult
  }

  /** `!showResult && onAnswer(index)`: the answer reported to the app, if any. */
  function OnChoiceClick(showResult: bool, index: int): (reported: Option<int>)
    ensures reported.Some? <==> !ChoiceDisabled(showResult)
    ensures reported.Some? ==> reported.value == index
  {
    if !showResult then Some(index) else None
  }

  // ---------------------------------------------------------------------------
  // Choice labels
  // ---------------------------------------------------------------------------

  /** The Thai consonants ก ข ค ง that label the first four choices. */
  const ChoiceLabels: seq<char> := ['\U{0E01}', '\U{0E02}', '\U{0E04}', '\U{0E07}']

  /** `['ก', 'ข', 'ค', 'ง'][index]`: undefined (no label) beyond the fourth choice. */
  function ChoiceLabel(index: int): (letter: Option<char>)
    ensures letter.Some? <==> 0 <= index < 4
  {
    if 0 <= index < |ChoiceLabels| then Some(ChoiceLabels[index]) else None
  }

  /** The four labels are distinct, so each labelled choice is identified by its letter. */
  lemma ChoiceLabelsDistinct(i: int, j: int)
    requires ChoiceLabel(i).Some? && ChoiceLabel(j).Some?
    ensures ChoiceLabel(i) == ChoiceLabel(j) <==> i == j
  {
  }

  /** The labels in order are ก, ข, ค and ง. */
  lemma ChoiceLabelsInOrder()
    ensures ChoiceLabel(0) == Some('ก') && ChoiceLabel(1) == Some('ข')
    ensures ChoiceLabel(2) == Some('ค') && ChoiceLabel(3) == Some('ง')
  {
  }
}
