/**
 * The quiz: an ordered list of questions, shuffled once per attempt, and
 * the score of one submitted answer list.
 */
module Quiz {
  import opened Wrappers
  import opened Questions
  import opened Users
  import opened Gamification
  import opened Leaderboard
  import opened Arith

  const Excellent: string := "Excellent job! Keep it up!"
  const GoodEffort: string := "Good effort! You can do even better!"
  const DontGiveUp: string := "Don\U{2019}t give up! Learning takes time."

  /**
   * The points of questions[i] summed over every i < |answers| whose
   * answer questions[i] accepts.
   */
  function Score(questions: seq<Question>, answers: seq<Answer>): int
    requires |answers| <= |questions|
  {
    if answers == [] then 0
    else
      var i := |answers| - 1;
      Score(questions, answers[..i]) + (if questions[i].Evaluate(answers[i]) then questions[i].points else 0)
  }

  /** The sum of the questions' point values. */
  function PointsSum(questions: seq<Question>): int
  {
    if questions == [] then 0 else PointsSum(questions[..|questions| - 1]) + questions[|questions| - 1].points
  }

  /**
   * With non-negative point values the score lies between 0 and the points
   * of the questions answered.
   */
  lemma {:induction false} ScoreBounds(questions: seq<Question>, answers: seq<Answer>)
    requires |answers| <= |questions|
    requires forall i :: 0 <= i < |questions| ==> questions[i].points >= 0
    ensures 0 <= Score(questions, answers) <= PointsSum(questions[..|answers|])
  {
    if answers != [] {
      var i := |answers| - 1;
      ScoreBounds(questions, answers[..i]);
      assert questions[..|answers|][..i] == questions[..i];
    }
  }

  /** All answers accepted: the score is the full point value of the questions answered. */
  lemma {:induction false} ScoreAllCorrect(questions: seq<Question>, answers: seq<Answer>)
    requires |answers| <= |questions|
    requires forall i :: 0 <= i < |answers| ==> questions[i].Evaluate(answers[i])
    ensures Score(questions, answers) == PointsSum(questions[..|answers|])
  {
    if answers != [] {
      var i := |answers| - 1;
      ScoreAllCorrect(questions, answers[..i]);
      assert questions[..|answers|][..i] == questions[..i];
    }
  }

  /** No answer accepted: the score is 0. */
  lemma {:induction false} ScoreNoneCorrect(questions: seq<Question>, answers: seq<Answer>)
    requires |answers| <= |questions|
    requires forall i :: 0 <= i < |answers| ==> !questions[i].Evaluate(answers[i])
    ensures Score(questions, answers) == 0
  {
    if answers != [] {
      ScoreNoneCorrect(questions, answers[..|answers| - 1]);
    }
  }

  /**
   * calculateScore: the score as a percentage of ten points per quiz
   * question, whatever the questions' own point values are.
   */
  function Percentage(score: int, totalQuestions: int): (r: real)
    requires totalQuestions > 0
    ensures 0 <= score <= 10 * totalQuestions ==> 0.0 <= r <= 100.0
    ensures r >= 80.0 <==> score >= 8 * totalQuestions
    ensures r >= 50.0 <==> score >= 5 * totalQuestions
  {
    var d := (totalQuestions * 10) as real;
    var r := (score as real / d) * 100.0;
    var c := score as real;
    assert r == (c * 100.0) / d by {
      assert (c / d) * d == c;
      assert (c / d * 100.0) * d == c * 100.0;
    }
    QuotientAtLeast(c * 100.0, d, 80.0);
    QuotientAtLeast(c * 100.0, d, 50.0);
    QuotientAtLeast(c * 100.0, d, 0.0);
    QuotientAtMost(c * 100.0, d, 100.0);
    r
  }

  /** A Java double: a finite value, an infinity, or NaN. */
  datatype JavaDouble = Finite(value: real) | PositiveInfinity | NegativeInfinity | NaN

  /** Java's `>=` on a double: false for NaN and for -Infinity, true for +Infinity. */
  predicate AtLeast(d: JavaDouble, k: real)
  {
    match d
    case Finite(v) => v >= k
    case PositiveInfinity => true
    case NegativeInfinity => false
    case NaN => false
  }

  class QuizModule {
    var questions: seq<Question>
    var currentScore: int
    var totalQuestions: int
    /** Seconds; only ever shown, never enforced. */
    const timeLimit: int
    /** The engine points are awarded through; null for a quiz built with a time limit. */
    const engine: GamificationEngine?

    ghost predicate Valid()
      reads this
    {
      totalQuestions >= 0 && (engine != null ==> engine.Valid())
    }

    /** An empty quiz with a time limit and no engine. */
    constructor (timeLimit: int)
      ensures Valid() && this.timeLimit == timeLimit && engine == null
      ensures questions == [] && currentScore == 0 && totalQuestions == 0
    {
      this.timeLimit := timeLimit;
      engine := null;
      questions := [];
      currentScore := 0;
      totalQuestions := 0;
    }

    /** An empty quiz bound to an engine, with time limit 0. */
    constructor WithEngine(engine: GamificationEngine)
      requires engine.Valid()
      ensures Valid() && timeLimit == 0 && this.engine == engine
      ensures questions == [] && currentScore == 0 && totalQuestions == 0
    {
      this.engine := engine;
      timeLimit := 0;
      questions := [];
      currentScore := 0;
      totalQuestions := 0;
    }

    /** Appends the question, with no validation. */
    method AddQuestion(question: Question)
      requires Valid()
      modifies this
      ensures Valid()
      ensures questions == old(questions) + [question]
      ensures currentScore == old(currentScore) && totalQuestions == old(totalQuestions)
    {
      questions := questions + [question];
    }

    /**
     * Collections.shuffle: for i from the size down to 2, swap the element
     * at i - 1 with one at a position the generator picks below i. The
     * generator's answers are the parameter `draw`.
     */
    method ShuffleQuestions(draw: nat -> nat)
      modifies this
      ensures multiset(questions) == old(multiset(questions))
      ensures currentScore == old(currentScore) && totalQuestions == old(totalQuestions)
    {
      var i := |questions|;
      while i > 1
        invariant 0 <= i <= |questions|
        invariant multiset(questions) == old(multiset(questions))
        invariant currentScore == old(currentScore) && totalQuestions == old(totalQuestions)
      {
        var j := draw(i) % i;
        var a, b := questions[i - 1], questions[j];
        questions := questions[i - 1 := b][j := a];
        i := i - 1;
      }
    }

    /** Shuffles the questions and fixes the question count the percentage divides by. */
    method GenerateQuiz(draw: nat -> nat)
      requires Valid()
      modifies this
      ensures Valid()
      ensures multiset(questions) == old(multiset(questions))
      ensures totalQuestions == |questions|
      ensures currentScore == old(currentScore)
    {
      ShuffleQuestions(draw);
      totalQuestions := |questions|;
    }

    /**
     * Resets the running score, adds the points of every question whose
     * answer it accepts, and returns the sum.
     */
    method EvaluateAnswers(answers: seq<Answer>) returns (score: int)
      requires Valid()
      requires |answers| <= |questions|
      modifies this
      ensures Valid()
      ensures questions == old(questions) && totalQuestions == old(totalQuestions)
      ensures score == currentScore == Score(questions, answers)
    {
      currentScore := 0;
      for i := 0 to |answers|
        invariant questions == old(questions) && totalQuestions == old(totalQuestions)
        invariant currentScore == Score(questions, answers[..i])
      {
        var q := questions[i];
        if q.Evaluate(answers[i]) {
          currentScore := currentScore + q.points;
        }
        assert answers[..i + 1][..i] == answers[..i];
      }
      assert answers[..|answers|] == answers;
      score := currentScore;
    }

    /**
     * The last score as a percentage of ten points per question. Before a
     * quiz is generated the count is 0 and the double division gives
     * Infinity, NaN or -Infinity by the sign of the score.
     */
    function CalculateScore(): (p: JavaDouble)
      reads this
      requires totalQuestions >= 0
      ensures totalQuestions > 0 ==> p == Finite(Percentage(currentScore, totalQuestions))
      ensures totalQuestions == 0 ==> !p.Finite? && (p == PositiveInfinity <==> currentScore > 0) && (p == NaN <==> currentScore == 0)
    {
      if totalQuestions > 0 then Finite(Percentage(currentScore, totalQuestions))
      else if currentScore > 0 then PositiveInfinity
      else if currentScore == 0 then NaN
      else NegativeInfinity
    }

    /**
     * "Excellent" from 80 percent, "Good effort" from 50 percent, otherwise
     * "Don't give up": in points, from 8 and from 5 per question. With no
     * questions counted, any positive score reads as "Excellent" and any
     * other as "Don't give up".
     */
    function GetMotivationalMessage(): (m: string)
      reads this
      requires totalQuestions >= 0
      ensures totalQuestions > 0 ==>
        && (m == Excellent <==> currentScore >= 8 * totalQuestions)
        && (m == GoodEffort <==> 5 * totalQuestions <= currentScore < 8 * totalQuestions)
        && (m == DontGiveUp <==> currentScore < 5 * totalQuestions)
      ensures totalQuestions == 0 ==>
        && (m == Excellent <==> currentScore > 0)
        && (m == DontGiveUp <==> currentScore <= 0)
    {
      var p := CalculateScore();
      if AtLeast(p, 80.0) then Excellent
      else if AtLeast(p, 50.0) then GoodEffort
      else DontGiveUp
    }

    /** Delegates to the question's own check. */
    function ValidateAnswer(question: Question, answer: Answer): (ok: bool)
      ensures ok <==> question.Evaluate(answer)
    {
      question.Evaluate(answer)
    }

    /**
     * "MCQ" for a multiple-choice question, "True/False" for a true/false
     * one, and "Unknown" for a null question, which neither instanceof test
     * accepts.
     */
    function GetQuestionType(question: Option<Question>): (kind: string)
      ensures kind == "MCQ" <==> question.Some? && question.value.MultipleChoice?
      ensures kind == "True/False" <==> question.Some? && question.value.TrueFalse?
      ensures kind == "Unknown" <==> question.None?
    {
      if question.Some? && question.value.MultipleChoice? then "MCQ"
      else if question.Some? && question.value.TrueFalse? then "True/False"
      else "Unknown"
    }

    /** Passes the award to the engine when there is one; otherwise nothing happens. */
    method AwardScoreToUser(user: User, correctAnswers: int)
      requires Valid()
      modifies engine, user
      ensures engine == null ==> user.totalPoints == old(user.totalPoints) && user.badge == old(user.badge)
      ensures engine != null ==> user.totalPoints == old(user.totalPoints) + 2 * correctAnswers
      ensures engine != null ==> user.badge == Assigned(engine.availableBadges, user.totalPoints, old(user.badge))
      ensures engine != null ==> Standings(engine.users) == SortByPoints(Standings(old(engine.users)))
      ensures engine != null ==> multiset(engine.users) == multiset(old(engine.users))
    {
      if engine != null {
        engine.AwardPointsToUser(user, correctAnswers);
      }
    }
  }

  /**
   * With every question worth ten points, as the percentage assumes, and the
   * whole shuffled quiz answered, the percentage lies between 0 and 100.
   */
  lemma {:induction false} TenPointQuizPercentage(questions: seq<Question>, answers: seq<Answer>)
    requires |answers| == |questions| > 0
    requires forall i :: 0 <= i < |questions| ==> questions[i].points == 10
    ensures 0.0 <= Percentage(Score(questions, answers), |questions|) <= 100.0
  {
    ScoreBounds(questions, answers);
    TenPointSum(questions);
    assert questions[..|answers|] == questions;
  }

  lemma {:induction false} TenPointSum(questions: seq<Question>)
    requires forall i :: 0 <= i < |questions| ==> questions[i].points == 10
    ensures PointsSum(questions) == 10 * |questions|
  {
    if questions != [] {
      TenPointSum(questions[..|questions| - 1]);
    }
  }
}
