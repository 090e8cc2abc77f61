/**
  Text as a sequence of newline-separated lines.

  `SplitLines` cuts a text at every '\n' (so a text ending in '\n' has an
  empty last line); `Join` is its inverse on newline-free lines, and
  `Terminate` writes each line followed by its own '\n', which is how a
  block of directive lines is put in front of source text.
 */
module Lines {

  predicate NewlineFree(l: string) {
    '\n' !in l
  }

  predicate AllNewlineFree(ls: seq<string>) {
    forall k :: 0 <= k < |ls| ==> NewlineFree(ls[k])
  }

  /** The lines separated by single newlines. */
  function Join(ls: seq<string>): string
    requires |ls| >= 1
  {
    if |ls| == 1 then ls[0] else ls[0] + "\n" + Join(ls[1..])
  }

  /** Each line followed by a newline. */
  function Terminate(ls: seq<string>): string
  {
    if ls == [] then "" else ls[0] + "\n" + Terminate(ls[1..])
  }

  /** The lines of a text, cut at every newline. */
  function SplitLines(t: string): (ls: seq<string>)
    ensures |ls| >= 1
    ensures AllNewlineFree(ls)
    decreases |t|
  {
    if t == [] then
      [""]
    else
      var rest := SplitLines(t[1..]);
      if t[0] == '\n' then [""] + rest else [[t[0]] + rest[0]] + rest[1..]
  }

  /** Joining undoes splitting: no character of the text is lost. */
  lemma {:induction false} JoinSplit(t: string)
    ensures Join(SplitLines(t)) == t
    decreases |t|
  {
    if t != [] {
      var rest := SplitLines(t[1..]);
      JoinSplit(t[1..]);
      var ls := SplitLines(t);
      if t[0] == '\n' {
        assert ls[1..] == rest;
      } else {
        assert ls[1..] == rest[1..];
        if |rest| > 1 {
          assert rest == [rest[0]] + rest[1..];
        }
        assert t == [t[0]] + t[1..];
      }
    }
  }

  /** A newline-free line followed by a newline is split off as the first line. */
  lemma {:induction false} SplitLeadingLine(l: string, rest: string)
    requires NewlineFree(l)
    ensures SplitLines(l + "\n" + rest) == [l] + SplitLines(rest)
    decreases |l|
  {
    var t := l + "\n" + rest;
    if l == [] {
      assert t == "\n" + rest;
      assert t[1..] == rest;
    } else {
      assert t[1..] == l[1..] + "\n" + rest;
      assert l[0] != '\n';
      SplitLeadingLine(l[1..], rest);
      assert [t[0]] + l[1..] == l;
    }
  }

  /** The lines of terminated lines followed by any text are those lines
      followed by the lines of that text. */
  lemma {:induction false} SplitTerminated(ls: seq<string>, rest: string)
    requires AllNewlineFree(ls)
    ensures SplitLines(Terminate(ls) + rest) == ls + SplitLines(rest)
    decreases |ls|
  {
    if ls != [] {
      var tail := Terminate(ls[1..]) + rest;
      assert NewlineFree(ls[0]);
      assert AllNewlineFree(ls[1..]) by {
        forall k | 0 <= k < |ls[1..]| ensures NewlineFree(ls[1..][k]) {
          assert ls[1..][k] == ls[k + 1];
        }
      }
      assert Terminate(ls) == ls[0] + "\n" + Terminate(ls[1..]);
      assert Terminate(ls) + rest == ls[0] + "\n" + tail;
      SplitLeadingLine(ls[0], tail);
      SplitTerminated(ls[1..], rest);
      calc {
        SplitLines(Terminate(ls) + rest);
        [ls[0]] + SplitLines(tail);
        [ls[0]] + (ls[1..] + SplitLines(rest));
        { assert ls == [ls[0]] + ls[1..]; }
        ls + SplitLines(rest);
      }
    } else {
      assert Terminate(ls) + rest == rest;
      assert ls + SplitLines(rest) == SplitLines(rest);
    }
  }

  /** Splitting undoes joining, for newline-free lines. */
  lemma {:induction false} SplitJoin(ls: seq<string>)
    requires |ls| >= 1
    requires AllNewlineFree(ls)
    ensures SplitLines(Join(ls)) == ls
    decreases |ls|
  {
    if |ls| == 1 {
      SplitSingle(ls[0]);
    } else {
      SplitLeadingLine(ls[0], Join(ls[1..]));
      SplitJoin(ls[1..]);
      assert ls == [ls[0]] + ls[1..];
    }
  }

  /** A newline-free text is a single line. */
  lemma {:induction false} SplitSingle(l: string)
    requires NewlineFree(l)
    ensures SplitLines(l) == [l]
    decreases |l|
  {
    if l != [] {
      SplitSingle(l[1..]);
      assert [l[0]] + l[1..] == l;
    }
  }

  /** Terminated lines are the lines joined, plus one final newline. */
  lemma {:induction false} TerminateIsJoin(ls: seq<string>)
    requires |ls| >= 1
    ensures Terminate(ls) == Join(ls) + "\n"
    decreases |ls|
  {
    if |ls| > 1 {
      TerminateIsJoin(ls[1..]);
    }
  }
}
