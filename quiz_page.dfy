/**
 * The quiz page: a run through the quiz questions one at a time. Each question takes one
 * answer, which shows the explanation and scores a point when it is the correct option;
 * "next" moves on, and after the last question the result is shown, with confetti when more
 * than half the answers were right.
 */
module QuizPage {
  import opened Wrappers
  import opened Types

  /** The number of `answers` (one per question, in order) that pick the correct option. */
  function CountCorrect(questions: seq<QuizQuestion>, answers: seq<int>): (n: nat)
    requires |answers| <= |questions|
    ensures n <= |answers|
  {
    if |answers| == 0 then 0
    else
      var k := |answers| - 1;
      CountCorrect(questions, answers[..k]) + (if answers[k] == questions[k].correctAnswer then 1 else 0)
  }

  /** One more answer adds one point exactly when it is correct. */
  lemma CountCorrectSnoc(questions: seq<QuizQuestion>, answers: seq<int>, a: int)
    requires |answers| < |questions|
    ensures CountCorrect(questions, answers + [a])
         == CountCorrect(questions, answers) + (if a == questions[|answers|].correctAnswer then 1 else 0)
  {
    assert (answers + [a])[..|answers|] == answers;
  }

  /** Full marks exactly when every answer is the correct option. */
  lemma {:induction false} AllCorrect(questions: seq<QuizQuestion>, answers: seq<int>)
    requires |answers| <= |questions|
    ensures CountCorrect(questions, answers) == |answers|
        <==> forall i :: 0 <= i < |answers| ==> answers[i] == questions[i].correctAnswer
  {
    if |answers| > 0 {
      var k := |answers| - 1;
      AllCorrect(questions, answers[..k]);
      assert forall i :: 0 <= i < k ==> answers[..k][i] == answers[i];
    }
  }

  datatype Message = Perfect | Good | Encouragement

  /** The result text: perfect for full marks, good for more than half, encouragement otherwise. */
  function ResultMessage(score: nat, count: nat): Message {
    if score == count then Perfect
    else if 2 * score > count then Good
    else Encouragement
  }

  /** The confetti trigger on the result screen: more than half the questions answered correctly. */
  predicate Celebrates(completed: bool, score: nat, count: nat) {
    completed && 2 * score > count
  }

  /** On a finished, non-empty quiz the confetti falls exactly when the message is not the encouragement. */
  lemma CelebratesUnlessEncouraged(score: nat, count: nat)
    requires 0 < count && score <= count
    ensures Celebrates(true, score, count) <==> ResultMessage(score, count) != Encouragement
    ensures ResultMessage(score, count) == Perfect <==> score == count
  {
  }

  datatype Screen = Loading | QuestionCard | ResultCard

  /** With no questions only the loading placeholder is shown. */
  function ScreenFor(questions: seq<QuizQuestion>, completed: bool): (s: Screen)
    ensures s == Loading <==> |questions| == 0
    ensures s == ResultCard <==> |questions| > 0 && completed
  {
    if |questions| == 0 then Loading
    else if completed then ResultCard
    else QuestionCard
  }

  class QuizRunner {
    const questions: seq<QuizQuestion>
    var current: nat
    var score: nat
    var completed: bool
    var selected: Option<int>
    var showExplanation: bool
    /** The answers given so far, one per question reached. */
    ghost var answers: seq<int>

    ghost predicate Valid()
      reads this
    {
      && |questions| > 0
      && current < |questions|
      && (showExplanation <==> selected.Some?)
      && |answers| == current + (if selected.Some? then 1 else 0)
      && (selected.Some? ==> answers[current] == selected.value)
      && score == CountCorrect(questions, answers)
      && (completed ==> selected.Some? && current == |questions| - 1)
    }

    /** The first question, no score, nothing selected. */
    constructor (questions: seq<QuizQuestion>)
      ensures this.questions == questions
      ensures current == 0 && score == 0 && !completed && selected == None && !showExplanation
      ensures |questions| > 0 ==> Valid()
    {
      this.questions := questions;
      current, score, completed, selected, showExplanation := 0, 0, false, None, false;
      answers := [];
    }

    /** `handleAnswerClick(index)`: ignored once an answer is selected; otherwise records it and scores it. */
    method AnswerClick(index: int)
      requires Valid()
      modifies this
      ensures Valid()
      ensures old(selected).Some? ==> selected == old(selected) && score == old(score) && answers == old(answers)
      ensures old(selected).None? ==> selected == Some(index) && showExplanation && answers == old(answers) + [index]
      ensures old(selected).None? ==>
        score == old(score) + (if index == questions[current].correctAnswer then 1 else 0)
      ensures current == old(current) && completed == old(completed)
      ensures showExplanation == old(showExplanation) || old(selected).None?
    {
      if selected.Some? {
        return;
      }
      CountCorrectSnoc(questions, answers, index);
      selected := Some(index);
      showExplanation := true;
      answers := answers + [index];
      if index == questions[current].correctAnswer {
        score := score + 1;
      }
    }

    /** `handleNextQuestion`, offered once an answer is selected: the next question, or the result after the last. */
    method NextQuestion()
      requires Valid() && selected.Some? && !completed
      modifies this
      ensures Valid()
      ensures old(current) < |questions| - 1 ==>
        current == old(current) + 1 && selected == None && !showExplanation && !completed
      ensures old(current) == |questions| - 1 ==>
        completed && current == old(current) && selected == old(selected) && showExplanation
      ensures score == old(score) && answers == old(answers)
    {
      if current < |questions| - 1 {
        current := current + 1;
        selected := None;
        showExplanation := false;
      } else {
        completed := true;
      }
    }

    /** `restartQuiz`: back to the first question with no score. */
    method Restart()
      requires |questions| > 0
      modifies this
      ensures Valid()
      ensures current == 0 && score == 0 && !completed && selected == None && !showExplanation
    {
      current, score, completed, selected, showExplanation := 0, 0, false, None, false;
      answers := [];
    }

    /** The score never exceeds the questions answered, nor the question count. */
    lemma ScoreBound()
      requires Valid()
      ensures score <= |answers| <= |questions|
    {
    }
  }
}
