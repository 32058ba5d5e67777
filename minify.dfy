/** The build script build.rs: it reads the XSLT stylesheet line by line
    and glues the lines into one string, dropping comment lines and the
    white space around each line. The file is given as the results of
    successive `read_line` calls. */
module Minify {
  import opened Text

  /** One `read_line` call: the line read, with its line feed if it had
      one (empty at end of file), or a failure. */
  datatype ReadResult = Line(text: string) | Failed

  /** The loop ends at end of file and at the first failure. */
  predicate Stops(r: ReadResult)
  {
    r.Failed? || r.text == ""
  }

  /** The lines the loop sees: every result before the first stop, which
      is also where the reader is taken to be when the given results run
      out. */
  function LinesRead(results: seq<ReadResult>): (lines: seq<string>)
    ensures |lines| <= |results|
    ensures forall k :: 0 <= k < |lines| ==> results[k] == Line(lines[k]) && !Stops(results[k])
    ensures |lines| < |results| ==> Stops(results[|lines|])
  {
    if |results| == 0 || Stops(results[0]) then []
    else [results[0].text] + LinesRead(results[1..])
  }

  /** The lines read are the only ones that fit that description: the
      results up to, not including, the first stop. */
  lemma LinesReadUnique(results: seq<ReadResult>, lines: seq<string>)
    requires |lines| <= |results|
    requires forall k :: 0 <= k < |lines| ==> results[k] == Line(lines[k]) && !Stops(results[k])
    requires |lines| < |results| ==> Stops(results[|lines|])
    ensures LinesRead(results) == lines
  {
    var ls := LinesRead(results);
    if |ls| < |lines| {
      assert false;
    } else if |lines| < |ls| {
      assert false;
    }
  }

  /** Whatever follows end of file or a failure is never looked at. */
  lemma ReadingStopsAtFirstStop(results: seq<ReadResult>, i: nat)
    requires i < |results| && Stops(results[i])
    ensures LinesRead(results) == LinesRead(results[..i + 1])
    ensures |LinesRead(results)| <= i
  {
    var ls := LinesRead(results[..i + 1]);
    assert results[..i + 1][i] == results[i];
    LinesReadUnique(results, ls);
  }

  /** What one line contributes: nothing if it holds the start of a
      comment, otherwise the line without the white space at its ends and
      without line feeds. */
  function MinifyLine(line: string): (s: string)
    ensures '\n' !in s
  {
    if Contains(line, "<!--") then "" else RemoveChar(Trim(line), '\n')
  }

  /** What each line contributes, laid end to end. */
  function Contributions(lines: seq<string>, f: string -> string): string
  {
    if |lines| == 0 then ""
    else Contributions(lines[..|lines| - 1], f) + f(lines[|lines| - 1])
  }

  /** The contributions of the lines, in order. */
  function Minified(lines: seq<string>): string
  {
    Contributions(lines, MinifyLine)
  }

  /** The result is a single line. */
  lemma {:induction false} MinifiedHasNoLineFeed(lines: seq<string>)
    ensures '\n' !in Minified(lines)
  {
    if |lines| > 0 {
      MinifiedHasNoLineFeed(lines[..|lines| - 1]);
      assert '\n' !in MinifyLine(lines[|lines| - 1]);
    }
  }

  /** Contributions of two runs of lines are those of each run, in order. */
  lemma {:induction false} ContributionsAppend(a: seq<string>, b: seq<string>, f: string -> string)
    ensures Contributions(a + b, f) == Contributions(a, f) + Contributions(b, f)
    decreases |b|
  {
    if |b| == 0 {
      assert a + b == a;
    } else {
      var init := b[..|b| - 1];
      assert (a + b)[..|a + b| - 1] == a + init;
      assert (a + b)[|a + b| - 1] == b[|b| - 1];
      ContributionsAppend(a, init, f);
    }
  }

  /** A single line contributes what `f` makes of it. */
  lemma ContributionOfOne(line: string, f: string -> string)
    ensures Contributions([line], f) == f(line)
  {
    assert [line][..0] == [];
  }

  /** Lines are minified independently and their results kept in order. */
  lemma MinifiedAppend(a: seq<string>, b: seq<string>)
    ensures Minified(a + b) == Minified(a) + Minified(b)
  {
    ContributionsAppend(a, b, MinifyLine);
  }

  /** A line that holds the start of a comment leaves no trace. */
  lemma CommentLineDropped(a: seq<string>, line: string, b: seq<string>)
    requires Contains(line, "<!--")
    ensures Minified(a + [line] + b) == Minified(a + b)
  {
    assert MinifyLine(line) == "";
    ContributionOfOne(line, MinifyLine);
    MinifiedAppend(a, [line]);
    assert Minified(a + [line]) == Minified(a);
    MinifiedAppend(a + [line], b);
    MinifiedAppend(a, b);
  }

  /** The loop of `main`: read a line into the buffer, stop at end of file
      or on a failure, append the line's contribution, clear the buffer. */
  method MinifyStylesheet(results: seq<ReadResult>) returns (result: string)
    ensures result == Minified(LinesRead(results))
  {
    result := "";
    ghost var lines: seq<string> := [];
    var i := 0;
    while i < |results|
      invariant 0 <= i <= |results| && |lines| == i
      invariant forall k :: 0 <= k < i ==> results[k] == Line(lines[k])
      invariant forall k :: 0 <= k < i ==> !Stops(results[k])
      invariant result == Minified(lines)
    {
      if results[i].Failed? {
        break;
      }
      var buffer := results[i].text;
      if |buffer| == 0 {
        break;
      }
      if !Contains(buffer, "<!--") {
        var s := RemoveChar(Trim(buffer), '\n');
        result := result + s;
      }
      assert (lines + [buffer])[..|lines|] == lines;
      lines := lines + [buffer];
      i := i + 1;
    }
    LinesReadUnique(results, lines);
  }

  /** The lines of a comment after its first one are kept: only the line
      that opens it is recognised. */
  lemma CommentContinuationKept()
    ensures Minified(["<!--\n", "-->\n"]) == "-->"
  {
    OpeningLine();
    ClosingLine();
    ContributionsAppend(["<!--\n"], ["-->\n"], MinifyLine);
    ContributionOfOne("<!--\n", MinifyLine);
    ContributionOfOne("-->\n", MinifyLine);
    assert ["<!--\n"] + ["-->\n"] == ["<!--\n", "-->\n"];
  }

  lemma OpeningLine()
    ensures MinifyLine("<!--\n") == ""
  {
    ContainsIffOccurs("<!--\n", "<!--");
    assert OccursAt("<!--\n", "<!--", 0);
  }

  lemma ClosingLine()
    ensures MinifyLine("-->\n") == "-->"
  {
    ClosingLineIsNoComment();
    ClosingLineTrimmed();
    RemoveAbsentChar("-->", '\n');
  }

  lemma ClosingLineIsNoComment()
    ensures !Contains("-->\n", "<!--")
  {
    var line := "-->\n";
    assert line[..4] != "<!--" by { assert line[0] != '<'; }
  }

  lemma ClosingLineTrimmed()
    ensures Trim("-->\n") == "-->"
  {
    var line := "-->\n";
    assert TrimStart(line) == line;
    assert line[..3] == "-->";
  }
}
