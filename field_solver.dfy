/**
 * The plate solver's output parser (`FieldSolver.format_results`): the solver's standard output is
 * split into lines, the last line reporting the field centre and the last line reporting the field
 * rotation are kept, and when both were seen `[ra, dec, rotation]` is put on the result queue.
 * The two regular expressions are given as per-line extractors returning what `re.findall` returns.
 */
module FieldSolver {

  /** Line-break characters of byte strings, the type the solver's output has: LF and CR (CR LF is one break). */
  predicate IsLineBreak(c: char) {
    c == '\n' || c == '\r'
  }

  /** The length of the first line of `s`: the characters before the first line break. */
  function LineLength(s: string): (n: nat)
    ensures n <= |s|
    ensures forall i :: 0 <= i < n ==> !IsLineBreak(s[i])
    ensures n < |s| ==> IsLineBreak(s[n])
  {
    if |s| == 0 || IsLineBreak(s[0]) then 0 else 1 + LineLength(s[1..])
  }

  /** `splitlines()`: the lines of `s` without their breaks; no empty line after a final break. */
  function SplitLines(s: string): (lines: seq<string>)
    ensures forall k :: 0 <= k < |lines| ==> forall i :: 0 <= i < |lines[k]| ==> !IsLineBreak(lines[k][i])
    ensures |lines| <= |s|
    decreases |s|
  {
    if |s| == 0 then []
    else
      var n := LineLength(s);
      if n == |s| then [s]
      else
        var skip := if s[n] == '\r' && n + 1 < |s| && s[n + 1] == '\n' then 2 else 1;
        [s[..n]] + SplitLines(s[n + skip..])
  }

  /** A text without line breaks is one line; the empty text is none. */
  lemma SplitLinesSingle(s: string)
    requires forall i :: 0 <= i < |s| ==> !IsLineBreak(s[i])
    ensures SplitLines(s) == if |s| == 0 then [] else [s]
  {
    if |s| > 0 {
      LineLengthAll(s);
    }
  }

  lemma {:induction false} LineLengthAll(s: string)
    requires forall i :: 0 <= i < |s| ==> !IsLineBreak(s[i])
    ensures LineLength(s) == |s|
    decreases |s|
  {
    if |s| > 0 {
      LineLengthAll(s[1..]);
    }
  }

  /** Joining lines with LF and splitting the text again gives the lines back. */
  lemma {:induction false} SplitLinesOfJoined(line: string, rest: string)
    requires forall i :: 0 <= i < |line| ==> !IsLineBreak(line[i])
    ensures SplitLines(line + "\n" + rest) == [line] + SplitLines(rest)
  {
    var s := line + "\n" + rest;
    LineLengthPrefix(line, "\n" + rest);
    assert s[|line|] == '\n';
    assert s[..|line|] == line;
    assert s[|line| + 1..] == rest;
  }

  lemma {:induction false} LineLengthPrefix(a: string, b: string)
    requires forall i :: 0 <= i < |a| ==> !IsLineBreak(a[i])
    requires |b| > 0 && IsLineBreak(b[0])
    ensures LineLength(a + b) == |a|
    decreases |a|
  {
    if |a| > 0 {
      assert (a + b)[1..] == a[1..] + b;
      LineLengthPrefix(a[1..], b);
    } else {
      assert (a + b)[0] == b[0];
    }
  }

  /** The two patterns: the (RA, Dec) groups of every centre match on a line, and the angle of every rotation match. */
  datatype Patterns = Patterns(center: string -> seq<(string, string)>, rotation: string -> seq<string>)

  /** The matches of the last line of `lines` on which `find` matched anything; none if no line matched. */
  function LastMatches<T>(lines: seq<string>, find: string -> seq<T>): seq<T>
    decreases |lines|
  {
    if |lines| == 0 then []
    else
      var n := |lines| - 1;
      if |find(lines[n])| > 0 then find(lines[n]) else LastMatches(lines[..n], find)
  }

  /** `find` matches on line `i` and on no later line. */
  predicate IsLastMatchingLine<T>(lines: seq<string>, find: string -> seq<T>, i: int) {
    0 <= i < |lines| && |find(lines[i])| > 0 && forall j :: i < j < |lines| ==> |find(lines[j])| == 0
  }

  /**
   * The last matching line wins: something is kept exactly when some line matched, and then it is
   * the matches of the last line that did.
   */
  lemma {:induction false} LastMatchWins<T>(lines: seq<string>, find: string -> seq<T>)
    ensures |LastMatches(lines, find)| > 0 <==> exists i :: 0 <= i < |lines| && |find(lines[i])| > 0
    ensures |LastMatches(lines, find)| > 0 ==>
      exists i :: IsLastMatchingLine(lines, find, i) && LastMatches(lines, find) == find(lines[i])
    decreases |lines|
  {
    if |lines| > 0 {
      var n := |lines| - 1;
      var prefix := lines[..n];
      LastMatchWins(prefix, find);
      if |find(lines[n])| > 0 {
        assert IsLastMatchingLine(lines, find, n);
      } else {
        if exists i :: 0 <= i < |lines| && |find(lines[i])| > 0 {
          var i :| 0 <= i < |lines| && |find(lines[i])| > 0;
          assert prefix[i] == lines[i];
        }
        if |LastMatches(prefix, find)| > 0 {
          var i :| IsLastMatchingLine(prefix, find, i) && LastMatches(prefix, find) == find(prefix[i]);
          assert lines[i] == prefix[i];
          assert IsLastMatchingLine(lines, find, i);
        }
      }
    }
  }

  /** What is put on the queue: `[ra, dec, rotation]` from the first match of each last matching line, or nothing. */
  function SolverResults(lines: seq<string>, patterns: Patterns): seq<seq<string>> {
    var raDec := LastMatches(lines, patterns.center);
    var rotationAngle := LastMatches(lines, patterns.rotation);
    if |raDec| > 0 && |rotationAngle| > 0 then [[raDec[0].0, raDec[0].1, rotationAngle[0]]] else []
  }

  /**
   * At most one result; one exactly when a centre line and a rotation line were both found, and it
   * is the RA and Dec of the last centre line followed by the angle of the last rotation line.
   */
  lemma SolverResultsFromLastLines(lines: seq<string>, patterns: Patterns)
    ensures |SolverResults(lines, patterns)| <= 1
    ensures |SolverResults(lines, patterns)| == 1 <==>
      (exists i :: 0 <= i < |lines| && |patterns.center(lines[i])| > 0)
      && (exists j :: 0 <= j < |lines| && |patterns.rotation(lines[j])| > 0)
    ensures |SolverResults(lines, patterns)| == 1 ==>
      exists i, j :: && IsLastMatchingLine(lines, patterns.center, i) && IsLastMatchingLine(lines, patterns.rotation, j)
                     && SolverResults(lines, patterns)[0] ==
                          [patterns.center(lines[i])[0].0, patterns.center(lines[i])[0].1, patterns.rotation(lines[j])[0]]
  {
    LastMatchWins(lines, patterns.center);
    LastMatchWins(lines, patterns.rotation);
  }

  /** The multiprocessing queue the result goes to. */
  class ResultQueue {
    var items: seq<seq<string>>

    constructor ()
      ensures items == []
    {
      items := [];
    }

    method Put(item: seq<string>)
      modifies this
      ensures items == old(items) + [item]
    {
      items := items + [item];
    }
  }

  /** The solver process, reduced to the queue its parser writes to. */
  class FieldSolver {
    const queue: ResultQueue

    constructor (queue: ResultQueue)
      ensures this.queue == queue
    {
      this.queue := queue;
    }

    /** `format_results`: scans the solver's output line by line and puts at most one result on the queue. */
    method FormatResults(initialResults: string, patterns: Patterns)
      modifies queue
      ensures queue.items == old(queue.items) + SolverResults(SplitLines(initialResults), patterns)
    {
      var raDec: seq<(string, string)> := [];
      var rotationAngle: seq<string> := [];
      var resultList := SplitLines(initialResults);
      for i := 0 to |resultList|
        invariant raDec == LastMatches(resultList[..i], patterns.center)
        invariant rotationAngle == LastMatches(resultList[..i], patterns.rotation)
      {
        assert resultList[..i + 1][..i] == resultList[..i];
        var line := resultList[i];
        var result := patterns.center(line);
        if |result| > 0 {
          raDec := result;
        }
        var angles := patterns.rotation(line);
        if |angles| > 0 {
          rotationAngle := angles;
        }
      }
      assert resultList[..|resultList|] == resultList;
      if |raDec| > 0 && |rotationAngle| > 0 {
        queue.Put([raDec[0].0, raDec[0].1, rotationAngle[0]]);
      }
    }
  }
}
