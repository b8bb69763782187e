/** The string operations of Python that the two batch scripts rely on:
    the `in` test on strings, `str.index`, `str.split(sep)` and `str.splitlines()`
    (on '\n' line breaks only), together with their inverses. */
module Text {

  datatype Option<+T> = None | Some(value: T)

  /** `sub` occurs in `s` starting at position `i`. */
  predicate OccursAt(s: string, sub: string, i: nat)
  {
    i + |sub| <= |s| && s[i..i + |sub|] == sub
  }

  /** Python's `sub in s` on two strings: `sub` occurs somewhere in `s`. */
  ghost predicate IsSubstring(sub: string, s: string)
  {
    exists i: nat :: OccursAt(s, sub, i)
  }

  /** Scans the positions of `s` from `from` on for an occurrence of `sub`. */
  function ContainsFrom(s: string, sub: string, from: nat): (found: bool)
    ensures found <==> exists i: nat :: from <= i && OccursAt(s, sub, i)
    decreases |s| - from
  {
    if |s| < from + |sub| then false
    else if s[from..from + |sub|] == sub then
      assert OccursAt(s, sub, from);
      true
    else ContainsFrom(s, sub, from + 1)
  }

  /** The executable `sub in s`. */
  function Contains(s: string, sub: string): (found: bool)
    ensures found <==> IsSubstring(sub, s)
  {
    ContainsFrom(s, sub, 0)
  }

  /** The empty string and `s` itself both occur in `s`. */
  lemma TrivialSubstrings(s: string)
    ensures IsSubstring("", s) && IsSubstring(s, s)
  {
    assert OccursAt(s, "", 0);
    assert OccursAt(s, s, 0);
  }

  /** Python's `s.index(c)`: the first position of `c`, or None where Python raises. */
  function IndexOf(s: string, c: char): (r: Option<nat>)
    ensures r.None? <==> c !in s
    ensures r.Some? ==> r.value < |s| && s[r.value] == c && c !in s[..r.value]
  {
    if s == [] then None
    else if s[0] == c then Some(0)
    else match IndexOf(s[1..], c)
      case None => None
      case Some(i) =>
        assert s[..i + 1] == [s[0]] + s[1..][..i];
        Some(i + 1)
  }

  /** The first `c` in a text made of a `c`-free part, `c` and anything. */
  lemma {:induction false} IndexOfAfter(a: string, c: char, rest: string)
    requires c !in a
    ensures IndexOf(a + [c] + rest, c) == Some(|a|)
  {
    var s := a + [c] + rest;
    if a != [] {
      assert s[1..] == a[1..] + [c] + rest;
      IndexOfAfter(a[1..], c, rest);
    }
  }

  /** Python's `s.split(sep)` for a one-character separator: the maximal runs
      of `s` that do not contain `sep`, one more than there are separators. */
  function Split(s: string, sep: char): (fields: seq<string>)
    ensures |fields| == multiset(s)[sep] + 1
    ensures forall f :: f in fields ==> sep !in f
    ensures fields[0] <= s && (fields[0] == s || s[|fields[0]|] == sep)
    decreases |s|
  {
    match IndexOf(s, sep)
    case None => [s]
    case Some(i) =>
      assert s == s[..i] + [s[i]] + s[i + 1..];
      assert multiset(s[..i])[sep] == 0;
      [s[..i]] + Split(s[i + 1..], sep)
  }

  /** Python's `sep.join(fields)`. */
  function Join(fields: seq<string>, sep: char): string
    requires |fields| >= 1
  {
    if |fields| == 1 then fields[0] else fields[0] + [sep] + Join(fields[1..], sep)
  }

  /** Joining the fields of a split gives the string back. */
  lemma {:induction false} JoinSplit(s: string, sep: char)
    ensures Join(Split(s, sep), sep) == s
    decreases |s|
  {
    match IndexOf(s, sep)
    case None =>
    case Some(i) =>
      JoinSplit(s[i + 1..], sep);
      assert s == s[..i] + [sep] + s[i + 1..];
  }

  /** Splitting a join of separator-free fields gives the fields back. */
  lemma {:induction false} SplitJoin(fields: seq<string>, sep: char)
    requires |fields| >= 1
    requires forall f :: f in fields ==> sep !in f
    ensures Split(Join(fields, sep), sep) == fields
  {
    var s := Join(fields, sep);
    if |fields| == 1 {
      assert IndexOf(s, sep).None?;
    } else {
      var f := fields[0];
      var rest := Join(fields[1..], sep);
      assert s == f + [sep] + rest;
      IndexOfAfter(f, sep, rest);
      assert s[..|f|] == f;
      assert s[|f| + 1..] == rest;
      assert forall g :: g in fields[1..] ==> g in fields;
      SplitJoin(fields[1..], sep);
    }
  }

  /** Python's `s.splitlines()`, with '\n' as the only line break: a final
      line break does not open an empty last line. */
  function SplitLines(s: string): (lines: seq<string>)
    ensures forall l :: l in lines ==> '\n' !in l
    decreases |s|
  {
    if s == [] then []
    else match IndexOf(s, '\n')
      case None => [s]
      case Some(i) => [s[..i]] + SplitLines(s[i + 1..])
  }

  /** The text a sequence of `write(line + "\n")` calls leaves in a file. */
  function Terminated(lines: seq<string>): string
  {
    if lines == [] then [] else lines[0] + "\n" + Terminated(lines[1..])
  }

  lemma TerminatedCons(line: string, rest: seq<string>)
    ensures Terminated([line] + rest) == line + "\n" + Terminated(rest)
  {
    assert ([line] + rest)[1..] == rest;
  }

  lemma {:induction false} TerminatedAppend(a: seq<string>, b: seq<string>)
    ensures Terminated(a + b) == Terminated(a) + Terminated(b)
  {
    if a != [] {
      assert (a + b)[1..] == a[1..] + b;
      TerminatedAppend(a[1..], b);
    } else {
      assert a + b == b;
    }
  }

  /** Reading back the lines of a file written line by line gives the lines. */
  lemma {:induction false} SplitLinesTerminated(lines: seq<string>)
    requires forall l :: l in lines ==> '\n' !in l
    ensures SplitLines(Terminated(lines)) == lines
  {
    if lines != [] {
      var s := Terminated(lines);
      var l := lines[0];
      var rest := Terminated(lines[1..]);
      assert s == l + "\n" + rest;
      IndexOfAfter(l, '\n', rest);
      assert s[..|l|] == l;
      assert s[|l| + 1..] == rest;
      assert forall g :: g in lines[1..] ==> g in lines;
      SplitLinesTerminated(lines[1..]);
    }
  }

  /** One step of `SplitLines` on a text that holds a line break. */
  lemma SplitLinesStep(s: string, i: nat)
    requires IndexOf(s, '\n') == Some(i)
    ensures SplitLines(s) == [s[..i]] + SplitLines(s[i + 1..])
    ensures s == s[..i] + "\n" + s[i + 1..]
  {
  }

  /** A text whose last line has no line break is its lines, each terminated,
      less the line break written after the last one. */
  lemma {:induction false} SplitLinesUnterminated(s: string)
    requires s != [] && s[|s| - 1] != '\n'
    ensures Terminated(SplitLines(s)) == s + "\n"
    decreases |s|
  {
    if '\n' !in s {
      assert SplitLines(s) == [s];
      TerminatedCons(s, []);
    } else {
      var i := IndexOf(s, '\n').value;
      var line, rest := s[..i], s[i + 1..];
      SplitLinesStep(s, i);
      assert i < |s| - 1;
      assert rest[|rest| - 1] == s[|s| - 1];
      SplitLinesUnterminated(rest);
      TerminatedCons(line, SplitLines(rest));
      AppendLineBreak(line, rest);
    }
  }

  lemma AppendLineBreak(line: string, rest: string)
    ensures line + "\n" + (rest + "\n") == (line + "\n" + rest) + "\n"
  {
  }

  /** A text that is empty or ends in a line break is exactly its lines, each terminated. */
  lemma {:induction false} TerminatedSplitLines(s: string)
    requires s == [] || s[|s| - 1] == '\n'
    ensures Terminated(SplitLines(s)) == s
    decreases |s|
  {
    if s != [] {
      assert s[|s| - 1] in s;
      var i := IndexOf(s, '\n').value;
      var rest := s[i + 1..];
      SplitLinesStep(s, i);
      assert rest == [] || rest[|rest| - 1] == '\n' by {
        if rest != [] { assert rest[|rest| - 1] == s[|s| - 1]; }
      }
      TerminatedSplitLines(rest);
      TerminatedCons(s[..i], SplitLines(rest));
    }
  }
}
