/** The quiz: one question at a time, answered once, scored on the spot,
    optionally against a 30-second clock, then advanced or completed.
    The five component state variables are the fields of `QuizGame`; the
    once-per-second interval is a `Tick` event. */
module QuizGame {
  import opened Types

  /** Seconds allowed per question in game mode. */
  const TimeLimit: int := 30

  /** The answer recorded when the clock runs out. */
  const TimeoutAnswer: int := -1

  /** Sound cues played by the component. */
  datatype Cue = Success | Failure | Click

  /** Every quiz the application shows has at least one question, and each
      question's correct answer indexes one of its options. */
  predicate WellFormedQuiz(questions: seq<Question>)
  {
    |questions| > 0 && forall i :: 0 <= i < |questions| ==> WellFormedQuestion(questions[i])
  }

  /** How many of the answers, given in order to the first questions, are
      correct. */
  function CountCorrect(questions: seq<Question>, answers: seq<int>): (n: nat)
    requires |answers| <= |questions|
    ensures n <= |answers|
    decreases |answers|
  {
    if answers == [] then 0
    else
      var k := |answers| - 1;
      CountCorrect(questions, answers[..k]) + (if answers[k] == questions[k].correctAnswer then 1 else 0)
  }

  /** The positions answered correctly. */
  function CorrectPositions(questions: seq<Question>, answers: seq<int>): (s: set<nat>)
    requires |answers| <= |questions|
    ensures forall i: nat :: i in s <==> i < |answers| && answers[i] == questions[i].correctAnswer
  {
    set i: nat | i < |answers| && answers[i] == questions[i].correctAnswer
  }

  /** The running count is the number of correctly answered positions. */
  lemma {:induction false} CountCorrectIsCardinality(questions: seq<Question>, answers: seq<int>)
    requires |answers| <= |questions|
    ensures CountCorrect(questions, answers) == |CorrectPositions(questions, answers)|
    decreases |answers|
  {
    if answers != [] {
      var k := |answers| - 1;
      var prefix := answers[..k];
      CountCorrectIsCardinality(questions, prefix);
      var before := CorrectPositions(questions, prefix);
      var after := CorrectPositions(questions, answers);
      assert k !in before;
      if answers[k] == questions[k].correctAnswer {
        assert after == before + {k};
      } else {
        assert after == before;
      }
    }
  }

  /** The total `onComplete` receives, as written: the score plus one more
      if the last selection is correct. */
  function CompletionTotalAsWritten(score: nat, selected: Option<int>, correctAnswer: int): (total: nat)
    ensures total == score || total == score + 1
    ensures total == score + 1 <==> selected == Some(correctAnswer)
  {
    score + (if selected == Some(correctAnswer) then 1 else 0)
  }

  /** The total the quiz evidently means to report: the number of correct
      answers, which `score` already is. */
  function CompletionTotal(questions: seq<Question>, answers: seq<int>): (total: nat)
    requires |answers| <= |questions|
    ensures total <= |answers|
  {
    CountCorrect(questions, answers)
  }

  /** The intended total counts each correctly answered question once. */
  lemma CompletionTotalCountsEachOnce(questions: seq<Question>, answers: seq<int>)
    requires |answers| <= |questions|
    ensures CompletionTotal(questions, answers) == |CorrectPositions(questions, answers)|
  {
    CountCorrectIsCardinality(questions, answers);
  }

  /** With the last answer correct, the total as written exceeds the number
      of correct answers by exactly one. */
  lemma CompletionAsWrittenOvercounts(questions: seq<Question>, answers: seq<int>)
    requires |answers| == |questions| > 0
    requires answers[|answers| - 1] == questions[|questions| - 1].correctAnswer
    ensures CompletionTotalAsWritten(CountCorrect(questions, answers), Some(answers[|answers| - 1]), questions[|questions| - 1].correctAnswer)
         == |CorrectPositions(questions, answers)| + 1
  {
    CountCorrectIsCardinality(questions, answers);
  }

  class QuizGame {
    const questions: seq<Question>
    const isGameMode: bool
    var currentIdx: nat
    var score: nat
    var selectedOption: Option<int>
    var isAnswered: bool
    var timeLeft: int
    /** The answers given so far, one per question up to the current one
        (the current one only once answered). */
    ghost var answers: seq<int>

    /** The state invariant: a question is never left unanswered with
        the clock at 0, since the effect answers it at once. */
    ghost predicate Valid()
      reads this
    {
      Consistent() && (timeLeft == 0 ==> isAnswered)
    }

    /** The invariant except for the clock rule, which holds again once
        the timeout effect has run. */
    ghost predicate Consistent()
      reads this
    {
      && WellFormedQuiz(questions)
      && currentIdx < |questions|
      && 0 <= timeLeft <= TimeLimit
      && (!isGameMode ==> timeLeft == TimeLimit)
      && (isAnswered <==> selectedOption.Some?)
      && |answers| == currentIdx + (if isAnswered then 1 else 0)
      && (isAnswered ==> answers[currentIdx] == selectedOption.value)
      && score == CountCorrect(questions, answers)
    }

    function Current(): (q: Question)
      reads this
      requires Consistent()
      ensures WellFormedQuestion(q)
    {
      questions[currentIdx]
    }

    constructor (questions: seq<Question>, isGameMode: bool)
      requires WellFormedQuiz(questions)
      ensures Valid()
      ensures this.questions == questions && this.isGameMode == isGameMode
      ensures currentIdx == 0 && score == 0 && selectedOption == None && !isAnswered && timeLeft == TimeLimit
      ensures answers == []
    {
      this.questions := questions;
      this.isGameMode := isGameMode;
      currentIdx := 0;
      score := 0;
      selectedOption := None;
      isAnswered := false;
      timeLeft := TimeLimit;
      answers := [];
    }

    /** `handleOptionSelect`: ignored once answered; otherwise records the
        selection and adds one to the score exactly when it is correct. */
    method HandleOptionSelect(idx: int) returns (cue: Option<Cue>)
      requires Consistent()
      modifies this`selectedOption, this`isAnswered, this`score, this`answers
      ensures Valid()
      ensures old(isAnswered) ==> cue == None && unchanged(this)
      ensures !old(isAnswered) ==>
        && isAnswered && selectedOption == Some(idx)
        && answers == old(answers) + [idx]
        && (idx == Current().correctAnswer ==> score == old(score) + 1 && cue == Some(Success))
        && (idx != Current().correctAnswer ==> score == old(score) && cue == Some(Failure))
    {
      if isAnswered {
        return None;
      }
      selectedOption := Some(idx);
      isAnswered := true;
      answers := answers + [idx];
      assert answers[..currentIdx] == old(answers);
      if idx == questions[currentIdx].correctAnswer {
        cue := Some(Success);
        score := score + 1;
      } else {
        cue := Some(Failure);
      }
    }

    /** One second of the interval, followed by the effect re-running on the
        new `timeLeft`: the clock runs only in game mode while unanswered
        and positive, and reaching 0 answers the question with -1. */
    method Tick() returns (cue: Option<Cue>)
      requires Valid()
      modifies this`timeLeft, this`selectedOption, this`isAnswered, this`score, this`answers
      ensures Valid()
      ensures !(isGameMode && !old(isAnswered)) ==> cue == None && unchanged(this)
      ensures isGameMode && !old(isAnswered) ==>
        && timeLeft == old(timeLeft) - 1
        && score == old(score)
        && (timeLeft > 0 ==> cue == None && !isAnswered && answers == old(answers))
        && (timeLeft == 0 ==> cue == Some(Failure) && selectedOption == Some(TimeoutAnswer) && answers == old(answers) + [TimeoutAnswer])
    {
      cue := None;
      if isGameMode && !isAnswered && timeLeft > 0 {
        timeLeft := timeLeft - 1;
      }
      if timeLeft == 0 && !isAnswered {
        assert Current().correctAnswer >= 0;
        cue := HandleOptionSelect(TimeoutAnswer);
      }
    }

    /** `nextQuestion`, reachable only through the button shown once the
        question is answered. Before the last question it advances and
        resets the selection and the clock; on the last one it reports the
        completion total, as written. */
    method NextQuestion() returns (cue: Cue, reported: Option<int>)
      requires Valid() && isAnswered
      modifies this`currentIdx, this`selectedOption, this`isAnswered, this`timeLeft
      ensures Valid()
      ensures cue == Click
      ensures score == old(score) && answers == old(answers)
      ensures old(currentIdx) + 1 < |questions| ==>
        && reported == None
        && currentIdx == old(currentIdx) + 1
        && selectedOption == None && !isAnswered && timeLeft == TimeLimit
      ensures old(currentIdx) + 1 == |questions| ==>
        && unchanged(this)
        && reported == Some(CompletionTotalAsWritten(score, selectedOption, questions[currentIdx].correctAnswer))
        && reported == Some(CountCorrect(questions, answers) + (if answers[|answers| - 1] == questions[|questions| - 1].correctAnswer then 1 else 0))
    {
      cue := Click;
      if currentIdx + 1 < |questions| {
        currentIdx := currentIdx + 1;
        selectedOption := None;
        isAnswered := false;
        timeLeft := TimeLimit;
        reported := None;
      } else {
        reported := Some(score + (if selectedOption == Some(questions[currentIdx].correctAnswer) then 1 else 0));
      }
    }
  }

  /** A one-question quiz answered correctly reports 2. */
  method DoubleCountWitness() returns (reported: Option<int>)
    ensures reported == Some(2)
  {
    var q := Question("q", "?", ["a", "b"], 1, "", "", Academic);
    var quiz := new QuizGame([q], false);
    var _ := quiz.HandleOptionSelect(1);
    assert quiz.score == 1;
    var _, r := quiz.NextQuestion();
    reported := r;
  }
}
