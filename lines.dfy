/**
 * The line structure of a text file as BufferedReader.readLine sees it,
 * and the "\n" a writer appends after each line.
 */
module JavaLines {
  /** Index of the first '\n' in s, or |s| when there is none. */
  function LineEnd(s: string): (i: nat)
    ensures i <= |s|
    ensures i < |s| ==> s[i] == '\n'
  {
    if s == [] || s[0] == '\n' then 0 else 1 + LineEnd(s[1..])
  }

  /** No newline comes before LineEnd. */
  lemma {:induction false} LineEndIsFirst(s: string)
    ensures forall k :: 0 <= k < LineEnd(s) ==> s[k] != '\n'
  {
    if s != [] && s[0] != '\n' {
      LineEndIsFirst(s[1..]);
      forall k | 0 < k < LineEnd(s) ensures s[k] != '\n' {
        assert s[k] == s[1..][k - 1];
      }
    }
  }

  /**
   * The lines that successive readLine calls return: the text split at each
   * '\n'; a final '\n' does not start another line, and a last line without
   * one is still returned.
   */
  function Lines(s: string): (r: seq<string>)
    ensures r == [] <==> s == []
    ensures |r| <= |s|
    decreases |s|
  {
    if s == [] then []
    else if LineEnd(s) == |s| then [s]
    else [s[..LineEnd(s)]] + Lines(s[LineEnd(s) + 1..])
  }

  /** Each line followed by "\n", concatenated. */
  function Unlines(ls: seq<string>): string
  {
    if ls == [] then "" else ls[0] + "\n" + Unlines(ls[1..])
  }

  predicate NoNewline(line: string)
  {
    forall k :: 0 <= k < |line| ==> line[k] != '\n'
  }

  /** Text that is empty or ends with a newline: appending to it starts a fresh line. */
  predicate Terminated(s: string)
  {
    s == [] || s[|s| - 1] == '\n'
  }

  lemma {:induction false} UnlinesAppend(a: seq<string>, b: seq<string>)
    ensures Unlines(a + b) == Unlines(a) + Unlines(b)
  {
    if a != [] {
      UnlinesAppend(a[1..], b);
      assert (a + b)[0] == a[0] && (a + b)[1..] == a[1..] + b;
      calc {
        Unlines(a + b);
        a[0] + "\n" + Unlines(a[1..] + b);
        a[0] + "\n" + (Unlines(a[1..]) + Unlines(b));
        (a[0] + "\n" + Unlines(a[1..])) + Unlines(b);
      }
    } else {
      assert a + b == b;
    }
  }

  /** Splitting what was written line by line gives the lines back. */
  lemma {:induction false} LinesOfUnlines(ls: seq<string>)
    requires forall j :: 0 <= j < |ls| ==> NoNewline(ls[j])
    ensures Lines(Unlines(ls)) == ls
  {
    if ls != [] {
      var s := Unlines(ls);
      var rest := Unlines(ls[1..]);
      assert s == ls[0] + "\n" + rest;
      LineEndOfLine(ls[0], rest);
      assert s[..|ls[0]|] == ls[0];
      assert s[|ls[0]| + 1..] == rest;
      LinesOfUnlines(ls[1..]);
    }
  }

  lemma {:induction false} LineEndOfLine(line: string, rest: string)
    requires NoNewline(line)
    ensures LineEnd(line + "\n" + rest) == |line|
    decreases |line|
  {
    if line != [] {
      assert (line + "\n" + rest)[1..] == line[1..] + "\n" + rest;
      LineEndOfLine(line[1..], rest);
    }
  }

  /** Text with a newline at LineEnd reads as its first line, then the lines after the newline. */
  lemma {:induction false} LinesStep(s: string)
    requires LineEnd(s) < |s|
    ensures Lines(s) == [s[..LineEnd(s)]] + Lines(s[LineEnd(s) + 1..])
  {
    assert s != [];
  }

  lemma {:induction false} UnlinesCons(line: string, ls: seq<string>)
    ensures Unlines([line] + ls) == line + "\n" + Unlines(ls)
  {
    assert ([line] + ls)[0] == line && ([line] + ls)[1..] == ls;
  }

  /** The first line read, re-joined with "\n", followed by the rest re-joined. */
  lemma {:induction false} UnlinesOfLinesStep(s: string)
    requires LineEnd(s) < |s|
    ensures Unlines(Lines(s)) == s[..LineEnd(s)] + "\n" + Unlines(Lines(s[LineEnd(s) + 1..]))
  {
    LinesStep(s);
    UnlinesCons(s[..LineEnd(s)], Lines(s[LineEnd(s) + 1..]));
  }

  /**
   * Reading a text line by line and writing each line back with "\n" gives
   * the text itself when it is terminated, and the text plus "\n" otherwise.
   */
  lemma {:induction false} UnlinesOfLines(s: string)
    ensures Unlines(Lines(s)) == if Terminated(s) then s else s + "\n"
    decreases |s|
  {
    if s != [] {
      var i := LineEnd(s);
      if i < |s| {
        var head, rest := s[..i], s[i + 1..];
        UnlinesOfLines(rest);
        UnlinesOfLinesStep(s);
        SplitAtNewline(s, i);
        assert s == (head + "\n") + rest;
        TerminatedSuffix(head + "\n", rest);
        if Terminated(rest) {
          assert Unlines(Lines(s)) == head + "\n" + rest;
        } else {
          assert Unlines(Lines(s)) == head + "\n" + (rest + "\n");
          assert head + "\n" + (rest + "\n") == s + "\n";
        }
      } else {
        UnlinesOfLastLine(s);
      }
    }
  }

  /** Text without a newline is one unterminated line. */
  lemma {:induction false} UnlinesOfLastLine(s: string)
    requires s != [] && LineEnd(s) == |s|
    ensures !Terminated(s) && Unlines(Lines(s)) == s + "\n"
  {
    LineEndIsFirst(s);
    assert Lines(s) == [s];
    assert Unlines([s]) == s + "\n" + Unlines([]);
  }

  lemma {:induction false} SplitAtNewline(s: string, i: nat)
    requires i < |s| && s[i] == '\n'
    ensures s == s[..i] + "\n" + s[i + 1..]
  {
    assert s[..i] + "\n" + s[i + 1..] == s[..i] + s[i..i + 1] + s[i + 1..];
  }

  lemma {:induction false} TerminatedSuffix(head: string, rest: string)
    requires head != [] && head[|head| - 1] == '\n'
    ensures Terminated(head + rest) <==> Terminated(rest)
  {
    if rest != [] {
      assert (head + rest)[|head + rest| - 1] == rest[|rest| - 1];
    }
  }

  /** Every line readLine returns is free of '\n'. */
  lemma {:induction false} LinesHaveNoNewline(s: string)
    ensures forall j :: 0 <= j < |Lines(s)| ==> NoNewline(Lines(s)[j])
    decreases |s|
  {
    if s != [] {
      var i := LineEnd(s);
      LineEndIsFirst(s);
      if i < |s| {
        LinesHaveNoNewline(s[i + 1..]);
      }
    }
  }

  /** Writing `line + "\n"` after terminated text adds exactly one line. */
  lemma {:induction false} AppendLine(s: string, line: string)
    requires Terminated(s) && NoNewline(line)
    ensures Lines(s + line + "\n") == Lines(s) + [line]
  {
    UnlinesOfLines(s);
    LinesHaveNoNewline(s);
    var ls := Lines(s) + [line];
    UnlinesAppend(Lines(s), [line]);
    assert Unlines([line]) == line + "\n";
    assert Unlines(ls) == s + line + "\n";
    LinesOfUnlines(ls);
  }
}
