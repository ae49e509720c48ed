/**
 * The score store: a text file holding one score per line, and the list of
 * scores last read from it. The file is its text content; whether the
 * underlying open succeeds is the parameter `ioOk` of each file operation.
 */
module DataStore {
  import opened Wrappers
  import opened JavaText
  import opened JavaLines
  import opened Arith

  /** The single error kind the store reports, with its message. */
  datatype DataAccessError = DataAccessError(message: string)

  type Outcome = Result<(), DataAccessError>

  const Outstanding: string := "Outstanding!"
  const ThatsGood: string := "That's good!"
  const GoodTry: string := "Good try!"
  const CanDoBetter: string := "You can do better!"
  const DontGiveUp: string := "Don't give up!"

  /** The value of a line as the reload loop reads it: trimmed, then parsed; None when it does not parse. */
  function LineScore(line: string): Option<int>
  {
    ParseInt(Trim(line))
  }

  /** The scores a reload collects from the lines, in file order, skipping lines that do not parse. */
  function ParseScores(lines: seq<string>): (r: seq<int>)
    ensures |r| <= |lines|
  {
    if lines == [] then []
    else
      var last := LineScore(lines[|lines| - 1]);
      ParseScores(lines[..|lines| - 1]) + (if last.Some? then [last.value] else [])
  }

  function Sum(xs: seq<int>): int
  {
    if xs == [] then 0 else Sum(xs[..|xs| - 1]) + xs[|xs| - 1]
  }

  /** getAverageScore on the reloaded scores: 0 without scores, otherwise sum / count. */
  function Average(xs: seq<int>): real
  {
    if xs == [] then 0.0 else Sum(xs) as real / |xs| as real
  }

  /** The five-step message ladder on the average. */
  function MessageFor(average: real): string
  {
    if average >= 80.0 then Outstanding
    else if average >= 60.0 then ThatsGood
    else if average >= 40.0 then GoodTry
    else if average >= 20.0 then CanDoBetter
    else DontGiveUp
  }

  /** With at least one score, the average reaches t exactly when the sum reaches t times the count. */
  lemma {:induction false} AverageAtLeast(xs: seq<int>, t: int)
    requires xs != []
    ensures Average(xs) >= t as real <==> Sum(xs) >= t * |xs|
  {
    QuotientAtLeast(Sum(xs) as real, |xs| as real, t as real);
    assert (t * |xs|) as real == t as real * |xs| as real;
  }

  /** The five messages are distinct, so each names one band of averages. */
  lemma MessageBands(average: real)
    ensures var m := MessageFor(average);
      && (m == Outstanding <==> average >= 80.0)
      && (m == ThatsGood <==> 60.0 <= average < 80.0)
      && (m == GoodTry <==> 40.0 <= average < 60.0)
      && (m == CanDoBetter <==> 20.0 <= average < 40.0)
      && (m == DontGiveUp <==> average < 20.0)
  {
    assert Outstanding[0] != ThatsGood[0] && |GoodTry| != |Outstanding|;
    assert |CanDoBetter| != |Outstanding| && |DontGiveUp| != |Outstanding|;
    assert |GoodTry| != |CanDoBetter| && |GoodTry| != |DontGiveUp| && |CanDoBetter| != |DontGiveUp|;
  }

  /**
   * The message in integers: the average reaches a threshold t exactly when
   * the sum reaches t times the count; with no scores the message is
   * "Don't give up!".
   */
  lemma {:induction false} MessageBySum(xs: seq<int>)
    ensures var m := MessageFor(Average(xs)); var n := |xs|; var s := Sum(xs);
      && (m == Outstanding <==> n > 0 && s >= 80 * n)
      && (m == ThatsGood <==> n > 0 && 60 * n <= s < 80 * n)
      && (m == GoodTry <==> n > 0 && 40 * n <= s < 60 * n)
      && (m == CanDoBetter <==> n > 0 && 20 * n <= s < 40 * n)
      && (m == DontGiveUp <==> n == 0 || s < 20 * n)
  {
    MessageBands(Average(xs));
    if xs != [] {
      AverageAtLeast(xs, 80);
      AverageAtLeast(xs, 60);
      AverageAtLeast(xs, 40);
      AverageAtLeast(xs, 20);
    }
  }

  /** Scores appended by the store are in range; the reload keeps any int a line holds. */
  predicate InRange(score: int)
  {
    0 <= score <= 100
  }

  /**
   * Appending a valid score to a terminated file adds exactly that score to
   * what the next reload reads.
   */
  lemma {:induction false} ReloadAfterAppend(content: string, score: int)
    requires Terminated(content) && InRange(score)
    ensures ParseScores(Lines(content + DecimalString(score) + "\n")) == ParseScores(Lines(content)) + [score]
  {
    var line := DecimalString(score);
    assert NoNewline(line) by {
      assert forall k :: 0 <= k < |line| ==> IsDigit(line[k]);
    }
    AppendLine(content, line);
    var ls := Lines(content) + [line];
    assert ls[..|ls| - 1] == Lines(content);
    ParseDecimalString(score);
  }

  /**
   * When the file does not end with a newline (saveData wrote such text),
   * an appended score joins the last line: "5" followed by the score 7
   * reads back as the single score 57.
   */
  lemma {:induction false} AppendJoinsUnterminatedLine()
    ensures ParseScores(Lines("5" + DecimalString(7) + "\n")) == [57]
  {
    var line := DecimalString(57);
    assert line == "5" + DecimalString(7);
    assert NoNewline(line);
    AppendLine("", line);
    assert "" + line + "\n" == "5" + DecimalString(7) + "\n";
    ParseDecimalString(57);
    assert [line][..0] == [];
  }

  /** The loop of getAverageScore that adds up the scores. */
  method SumOf(xs: seq<int>) returns (sum: int)
    ensures sum == Sum(xs)
  {
    sum := 0;
    for i := 0 to |xs|
      invariant sum == Sum(xs[..i])
    {
      sum := sum + xs[i];
      assert xs[..i + 1][..i] == xs[..i];
    }
    assert xs[..|xs|] == xs;
  }

  class DataManager {
    const fileName: string
    /** The text of the file. */
    var content: string
    /** The scores as last reloaded or appended. */
    var scores: seq<int>

    /**
     * A store over fileName: an existing file's text is kept, a missing
     * file is created empty (`existing` is None).
     */
    constructor (fileName: string, existing: Option<string>)
      ensures this.fileName == fileName && scores == []
      ensures content == if existing.Some? then existing.value else ""
    {
      this.fileName := fileName;
      scores := [];
      content := if existing.Some? then existing.value else "";
    }

    /**
     * A store that starts with the given scores in memory only: they are not
     * written to the file, so the next reload replaces them.
     */
    constructor WithScores(fileName: string, initialScores: seq<int>, existing: Option<string>)
      ensures this.fileName == fileName && scores == initialScores
      ensures content == if existing.Some? then existing.value else ""
    {
      this.fileName := fileName;
      scores := initialScores;
      content := if existing.Some? then existing.value else "";
    }

    /** Overwrites the file with data; the in-memory scores are not touched. */
    method SaveData(data: string, ioOk: bool) returns (r: Outcome)
      modifies this
      ensures scores == old(scores)
      ensures ioOk ==> r == Success(()) && content == data
      ensures !ioOk ==> r == Failure(DataAccessError("Failed to save data.")) && content == old(content)
    {
      if !ioOk {
        return Failure(DataAccessError("Failed to save data."));
      }
      content := data;
      r := Success(());
    }

    /**
     * The file's lines, each followed by "\n": the text itself when it ends
     * with a newline (or is empty), the text plus "\n" otherwise.
     */
    method LoadData(ioOk: bool) returns (r: Result<string, DataAccessError>)
      ensures ioOk ==> r == Success(if Terminated(content) then content else content + "\n")
      ensures !ioOk ==> r == Failure(DataAccessError("Failed to load data."))
    {
      if !ioOk {
        return Failure(DataAccessError("Failed to load data."));
      }
      var lines := Lines(content);
      var text := "";
      for i := 0 to |lines|
        invariant text == Unlines(lines[..i])
      {
        text := text + lines[i] + "\n";
        UnlinesAppend(lines[..i], [lines[i]]);
        assert lines[..i + 1] == lines[..i] + [lines[i]];
      }
      assert lines[..|lines|] == lines;
      UnlinesOfLines(content);
      r := Success(text);
    }

    /**
     * Clears the scores, then refills them with every line of the file that
     * parses as an int, in file order. When the file cannot be opened the
     * scores stay cleared and the error is reported.
     */
    method GetUserScores(ioOk: bool) returns (r: Result<seq<int>, DataAccessError>)
      modifies this
      ensures content == old(content)
      ensures scores == if ioOk then ParseScores(Lines(content)) else []
      ensures r == if ioOk then Success(scores) else Failure(DataAccessError("Unable to read scores from file."))
    {
      scores := [];
      if !ioOk {
        return Failure(DataAccessError("Unable to read scores from file."));
      }
      var lines := Lines(content);
      for i := 0 to |lines|
        invariant content == old(content)
        invariant scores == ParseScores(lines[..i])
      {
        var parsed := LineScore(lines[i]);
        assert ParseScores(lines[..i + 1]) == scores + (if parsed.Some? then [parsed.value] else []) by {
          assert lines[..i + 1][..i] == lines[..i];
        }
        if parsed.Some? {
          scores := scores + [parsed.value];
        }
      }
      assert lines[..|lines|] == lines;
      r := Success(scores);
    }

    /**
     * Rejects a score outside 0..100 before touching anything; otherwise
     * writes it as a line at the end of the file and appends it to the
     * in-memory scores.
     */
    method AppendScore(score: int, ioOk: bool) returns (r: Outcome)
      modifies this
      ensures !InRange(score) ==>
        r == Failure(DataAccessError("Score must be between 0 and 100"))
        && content == old(content) && scores == old(scores)
      ensures InRange(score) && !ioOk ==>
        r == Failure(DataAccessError("Failed to append score."))
        && content == old(content) && scores == old(scores)
      ensures InRange(score) && ioOk ==>
        r == Success(()) && content == old(content) + DecimalString(score) + "\n"
        && scores == old(scores) + [score]
    {
      if score < 0 || score > 100 {
        return Failure(DataAccessError("Score must be between 0 and 100"));
      }
      if !ioOk {
        return Failure(DataAccessError("Failed to append score."));
      }
      content := content + DecimalString(score) + "\n";
      scores := scores + [score];
      r := Success(());
    }

    /** Reloads, then gives the last score read, or 0 when there is none. */
    method GetLatestScore(ioOk: bool) returns (r: Result<int, DataAccessError>)
      modifies this
      ensures content == old(content)
      ensures scores == if ioOk then ParseScores(Lines(content)) else []
      ensures ioOk ==> r == Success(if scores == [] then 0 else scores[|scores| - 1])
      ensures !ioOk ==> r == Failure(DataAccessError("Unable to read scores from file."))
    {
      var loaded := GetUserScores(ioOk);
      if loaded.Failure? {
        return Failure(loaded.error);
      }
      r := Success(if scores == [] then 0 else scores[|scores| - 1]);
    }

    /** Reloads, then averages the scores read, 0 when there are none. */
    method GetAverageScore(ioOk: bool) returns (r: Result<real, DataAccessError>)
      modifies this
      ensures content == old(content)
      ensures scores == if ioOk then ParseScores(Lines(content)) else []
      ensures ioOk ==> r == Success(Average(scores))
      ensures !ioOk ==> r == Failure(DataAccessError("Unable to read scores from file."))
    {
      var loaded := GetUserScores(ioOk);
      if loaded.Failure? {
        return Failure(loaded.error);
      }
      if scores == [] {
        return Success(0.0);
      }
      var sum := SumOf(scores);
      r := Success(sum as real / |scores| as real);
    }

    /** Reloads and picks the message for the average. */
    method GetMotivationalMessage(ioOk: bool) returns (r: Result<string, DataAccessError>)
      modifies this
      ensures content == old(content)
      ensures scores == if ioOk then ParseScores(Lines(content)) else []
      ensures ioOk ==> r == Success(MessageFor(Average(scores)))
      ensures !ioOk ==> r == Failure(DataAccessError("Unable to read scores from file."))
    {
      var average := GetAverageScore(ioOk);
      if average.Failure? {
        return Failure(average.error);
      }
      r := Success(MessageFor(average.value));
    }

    /** Truncates the file and clears the scores. */
    method DeleteData(ioOk: bool) returns (r: Outcome)
      modifies this
      ensures ioOk ==> r == Success(()) && content == "" && scores == []
      ensures !ioOk ==> r == Failure(DataAccessError("Failed to delete data.")) && content == old(content) && scores == old(scores)
    {
      if !ioOk {
        return Failure(DataAccessError("Failed to delete data."));
      }
      content := "";
      scores := [];
      r := Success(());
    }
  }
}
