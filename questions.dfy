/**
 * Quiz questions. The abstract Java class Question and its two subclasses
 * become one immutable datatype with a variant per subclass; the text and
 * the point value that the base-class constructor stores are fields shared
 * by both variants, so getQuestion and getPoints are the field selectors
 * `text` and `points`.
 */
module Questions {
  import opened Wrappers
  import opened JavaText

  /** An answer as the GUI collects it; None stands for a Java null. */
  type Answer = Option<string>

  datatype Question =
    | MultipleChoice(text: string, points: int, options: seq<string>, correctOption: string)
    | TrueFalse(text: string, points: int, correctAnswer: bool)
  {
    /**
     * The correctness check each subclass overrides. A multiple-choice
     * question compares the answer with the correct option ignoring case
     * (the option list is not consulted); a true/false question parses the
     * answer as Boolean.parseBoolean does and compares it with the stored
     * value.
     */
    function Evaluate(answer: Answer): (accepted: bool)
      ensures MultipleChoice? ==> (accepted <==> answer.Some? && Upper(answer.value) == Upper(correctOption))
      ensures TrueFalse? ==> (accepted <==> (answer.Some? && Upper(answer.value) == "TRUE") == correctAnswer)
    {
      match this
      case MultipleChoice(_, _, _, correct) =>
        if answer.Some? then
          EqualsIgnoreCaseIffUpper(correct, answer.value);
          EqualsIgnoreCase(correct, answer.value)
        else
          false
      case TrueFalse(_, _, correct) => ParseBoolean(answer) == correct
    }

    /** getOptions of a multiple-choice question. */
    function GetOptions(): (r: seq<string>)
      requires MultipleChoice?
      ensures this == MultipleChoice(text, points, r, correctOption)
    {
      options
    }
  }

  /** The correct option, written in any case, is accepted. */
  lemma {:induction false} MultipleChoiceAcceptsCorrectOption(q: Question, answer: string)
    requires q.MultipleChoice?
    requires Upper(answer) == Upper(q.correctOption)
    ensures q.Evaluate(Some(answer))
  {
    EqualsIgnoreCaseIffUpper(q.correctOption, answer);
  }

  /**
   * A multiple-choice answer is judged correct exactly when it is non-null
   * and upper-cases to the same string as the correct option, whatever the
   * option list holds.
   */
  lemma MultipleChoiceIff(q: Question, answer: Answer)
    requires q.MultipleChoice?
    ensures q.Evaluate(answer) <==> answer.Some? && Upper(answer.value) == Upper(q.correctOption)
    ensures forall opts :: q.Evaluate(answer) == q.(options := opts).Evaluate(answer)
  {
    if answer.Some? {
      EqualsIgnoreCaseIffUpper(q.correctOption, answer.value);
    }
  }

  /** "true", "True" and "TRUE" all parse as true. */
  lemma TrueInAnyCase()
    ensures ParseBoolean(Some("true")) && ParseBoolean(Some("True")) && ParseBoolean(Some("TRUE"))
  {
    EqualsIgnoreCaseIffUpper("True", "true");
    EqualsIgnoreCaseIffUpper("TRUE", "true");
  }

  /**
   * A true/false question whose stored answer is false accepts every answer
   * that does not parse as true, null and "" and "no" among them; one whose
   * stored answer is true accepts only the case variants of "true".
   */
  lemma TrueFalseAccepts(q: Question, answer: Answer)
    requires q.TrueFalse?
    ensures !q.correctAnswer ==> (q.Evaluate(answer) <==> !ParseBoolean(answer))
    ensures q.correctAnswer ==> (q.Evaluate(answer) <==> answer.Some? && Upper(answer.value) == "TRUE")
    ensures !q.correctAnswer ==> q.Evaluate(None) && q.Evaluate(Some("")) && q.Evaluate(Some("no"))
  {
    if answer.Some? {
      EqualsIgnoreCaseIffUpper(answer.value, "true");
    }
    EqualsIgnoreCaseIffUpper("no", "true");
    assert Upper("no") != Upper("true") by { assert Upper("no")[0] == 'N'; }
  }

  /** Of the two strings the quiz screen submits, "true" and "false", exactly one is judged correct. */
  lemma TrueFalseExactlyOne(q: Question)
    requires q.TrueFalse?
    ensures q.Evaluate(Some("true")) != q.Evaluate(Some("false"))
  {
    EqualsIgnoreCaseIffUpper("true", "true");
    EqualsIgnoreCaseIffUpper("false", "true");
  }
}
