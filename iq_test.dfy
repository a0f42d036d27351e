/**
 * The logic test (src/components/psychometrics/IQTest.tsx): five questions
 * answered one at a time under a ten-minute limit, scored by counting correct
 * answers, with the remaining time shown as `m:ss`.
 *
 * The one-second interval is a `Tick` call; the save is a write that
 * succeeds or fails, given as an input.
 */
module IQ {
  import opened Wrappers
  import opened Strings

  datatype Question = Question(id: int, correct: string, options: seq<string>)

  const OPTIONS: seq<string> := ["A", "B", "C", "D"]

  const IQ_QUESTIONS: seq<Question> := [
    Question(1, "A", OPTIONS),
    Question(2, "B", OPTIONS),
    Question(3, "C", OPTIONS),
    Question(4, "D", OPTIONS),
    Question(5, "A", OPTIONS)
  ]

  /** Ten minutes, in seconds. */
  const TIME_LIMIT_SECONDS: nat := 10 * 60

  /** Question `i` (from 0) has id `i + 1`, which is the key its answer is stored under. */
  lemma QuestionIdsFollowCursor()
    ensures |IQ_QUESTIONS| == 5
    ensures forall i :: 0 <= i < |IQ_QUESTIONS| ==> IQ_QUESTIONS[i].id == i + 1
    ensures forall i :: 0 <= i < |IQ_QUESTIONS| ==> IQ_QUESTIONS[i].correct in IQ_QUESTIONS[i].options
  {
  }

  predicate Correct(answers: map<int, string>, q: Question) {
    q.id in answers && answers[q.id] == q.correct
  }

  /** Number of questions whose stored answer is the correct one. */
  function Score(answers: map<int, string>, questions: seq<Question>): (n: nat)
    ensures n <= |questions|
  {
    if questions == [] then 0
    else Score(answers, questions[..|questions| - 1]) + (if Correct(answers, questions[|questions| - 1]) then 1 else 0)
  }

  /** The score is zero exactly when no answer is correct. */
  lemma {:induction false} ScoreZeroIffNoneCorrect(answers: map<int, string>, questions: seq<Question>)
    ensures Score(answers, questions) == 0 <==> forall i :: 0 <= i < |questions| ==> !Correct(answers, questions[i])
  {
    if questions != [] {
      var init := questions[..|questions| - 1];
      ScoreZeroIffNoneCorrect(answers, init);
      assert forall i :: 0 <= i < |init| ==> init[i] == questions[i];
    }
  }

  /** The score is full exactly when every answer is correct. */
  lemma {:induction false} ScoreFullIffAllCorrect(answers: map<int, string>, questions: seq<Question>)
    ensures Score(answers, questions) == |questions| <==> forall i :: 0 <= i < |questions| ==> Correct(answers, questions[i])
  {
    if questions != [] {
      var init := questions[..|questions| - 1];
      ScoreFullIffAllCorrect(answers, init);
      assert forall i :: 0 <= i < |init| ==> init[i] == questions[i];
    }
  }

  /** The remaining time after one tick of the interval. */
  function NextTimeLeft(prev: int): (t: nat)
    ensures prev <= 1 ==> t == 0
    ensures prev > 1 ==> t == prev - 1
  {
    if prev <= 1 then 0 else prev - 1
  }

  /** Number of ticks until the timer finishes the test. */
  function TicksToFinish(t: int): (n: nat)
    ensures n >= 1
    decreases t
  {
    if t <= 1 then 1 else 1 + TicksToFinish(NextTimeLeft(t))
  }

  /** The timer finishes the test after exactly as many ticks as seconds remain. */
  lemma {:induction false} TicksMatchSeconds(t: int)
    requires t >= 1
    ensures TicksToFinish(t) == t
    decreases t
  {
    if t > 1 {
      TicksMatchSeconds(t - 1);
    }
  }

  /** `${Math.floor(s / 60)}:${(s % 60).toString().padStart(2, '0')}`. */
  function FormatTime(s: nat): (text: string)
    ensures |text| >= 4 && text[|text| - 3] == ':'
  {
    PaddedReadsBack(s % 60);
    NatToString(s / 60) + ":" + PadStart2(NatToString(s % 60))
  }

  /** A padded one- or two-digit number reads back as itself. */
  lemma PaddedReadsBack(n: nat)
    requires n < 100
    ensures var t := PadStart2(NatToString(n));
            |t| == 2 && AllDigits(t) && ParseNat(t) == n
  {
    ParseNatToString(n);
    var s := NatToString(n);
    if n < 10 {
      var t := PadStart2(s);
      assert t == ['0', s[0]];
      assert t[..1] == ['0'];
      assert ['0'][..0] == [];
      assert s[..0] == [];
    } else {
      assert NatToString(n / 10) == [DigitChar(n / 10)];
    }
  }

  /**
   * The clock text reads back: minutes, a colon, and exactly two digits of
   * seconds, which together give the seconds shown.
   */
  lemma FormatTimeReadsBack(s: nat)
    ensures var parts := Split(FormatTime(s), ':');
            |parts| == 2 && |parts[1]| == 2 && AllDigits(parts[0]) && AllDigits(parts[1])
            && ParseNat(parts[0]) * 60 + ParseNat(parts[1]) == s
  {
    var m := NatToString(s / 60);
    var sec := PadStart2(NatToString(s % 60));
    PaddedReadsBack(s % 60);
    ParseNatToString(s / 60);
    assert ':' !in m && ':' !in sec by {
      assert forall i :: 0 <= i < |m| ==> IsDigit(m[i]);
      assert forall i :: 0 <= i < |sec| ==> IsDigit(sec[i]);
    }
    assert Join([sec], ':') == sec;
    assert Join([m, sec], ':') == FormatTime(s);
    SplitJoin([m, sec], ':');
  }

  class IQTest {
    var currentQuestion: nat
    var answers: map<int, string>
    var timeLeft: int
    var finished: bool
    var submitting: bool

    ghost predicate Valid()
      reads this
    {
      currentQuestion < |IQ_QUESTIONS| && 0 <= timeLeft <= TIME_LIMIT_SECONDS
    }

    constructor ()
      ensures Valid()
      ensures currentQuestion == 0 && answers == map[] && timeLeft == TIME_LIMIT_SECONDS
      ensures !finished && !submitting
    {
      currentQuestion := 0;
      answers := map[];
      timeLeft := TIME_LIMIT_SECONDS;
      finished := false;
      submitting := false;
    }

    /** An option button stores its answer under the current question's number and nothing else changes. */
    method HandleSelect(option: string)
      modifies this
      ensures answers == old(answers)[currentQuestion + 1 := option]
      ensures currentQuestion == old(currentQuestion) && timeLeft == old(timeLeft)
      ensures finished == old(finished) && submitting == old(submitting)
    {
      answers := answers[currentQuestion + 1 := option];
    }

    /** The next question, or the end of the test at the last one. */
    method HandleNext()
      requires Valid()
      modifies this
      ensures Valid()
      ensures old(currentQuestion) < |IQ_QUESTIONS| - 1 ==>
                currentQuestion == old(currentQuestion) + 1 && finished == old(finished)
      ensures old(currentQuestion) == |IQ_QUESTIONS| - 1 ==> currentQuestion == old(currentQuestion) && finished
      ensures answers == old(answers) && timeLeft == old(timeLeft) && submitting == old(submitting)
    {
      if currentQuestion < |IQ_QUESTIONS| - 1 {
        currentQuestion := currentQuestion + 1;
      } else {
        finished := true;
      }
    }

    /** One second of the interval, which only runs until the test is finished. */
    method Tick()
      requires Valid() && !finished
      modifies this
      ensures Valid()
      ensures timeLeft == NextTimeLeft(old(timeLeft))
      ensures finished <==> old(timeLeft) <= 1
      ensures currentQuestion == old(currentQuestion) && answers == old(answers) && submitting == old(submitting)
    {
      if timeLeft <= 1 {
        timeLeft := 0;
        finished := true;
      } else {
        timeLeft := timeLeft - 1;
      }
    }

    /** Next is enabled once the shown question has a non-empty answer. */
    predicate NextEnabled()
      requires Valid()
      reads this
      ensures NextEnabled() <==> currentQuestion + 1 in answers && answers[currentQuestion + 1] != ""
    {
      QuestionIdsFollowCursor();
      var id := IQ_QUESTIONS[currentQuestion].id;
      id in answers && answers[id] != ""
    }

    /** Selecting an option on the shown question enables Next. */
    lemma SelectEnablesNext(option: string)
      requires Valid() && option != ""
      ensures var id := IQ_QUESTIONS[currentQuestion].id;
              id in answers[currentQuestion + 1 := option] && answers[currentQuestion + 1 := option][id] == option
    {
      QuestionIdsFollowCursor();
    }

    /** `calculateScore`: the loop over the questions counting correct answers. */
    method CalculateScore() returns (score: nat)
      ensures score == Score(answers, IQ_QUESTIONS)
      ensures score <= |IQ_QUESTIONS|
    {
      score := 0;
      var i := 0;
      while i < |IQ_QUESTIONS|
        invariant 0 <= i <= |IQ_QUESTIONS|
        invariant score == Score(answers, IQ_QUESTIONS[..i])
      {
        assert IQ_QUESTIONS[..i + 1][..i] == IQ_QUESTIONS[..i];
        if IQ_QUESTIONS[i].id in answers && answers[IQ_QUESTIONS[i].id] == IQ_QUESTIONS[i].correct {
          score := score + 1;
        }
        i := i + 1;
      }
      assert IQ_QUESTIONS[..i] == IQ_QUESTIONS;
    }

    /**
     * `submit`: with a user, the score and time are written to the
     * participant's document; the test completes when the write succeeds.
     */
    method Submit(hasUser: bool, now: int, writeOk: bool) returns (written: Option<(nat, int)>, complete: bool)
      modifies this
      ensures !hasUser ==> written.None? && !complete && submitting == old(submitting)
      ensures hasUser ==> written == Some((Score(answers, IQ_QUESTIONS), now)) && !submitting
      ensures complete <==> hasUser && writeOk
      ensures currentQuestion == old(currentQuestion) && answers == old(answers)
      ensures timeLeft == old(timeLeft) && finished == old(finished)
    {
      written := None;
      complete := false;
      if !hasUser {
        return;
      }
      submitting := true;
      var score := CalculateScore();
      written := Some((score, now));
      if writeOk {
        complete := true;
      }
      submitting := false;
    }
  }
}
