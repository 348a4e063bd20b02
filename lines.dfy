/**
  JavaScript's `s.split("\n")` and the "first line" rule every collector of
  the build client applies to captured command output.  A JavaScript split on
  a one-character separator always yields at least one segment: the empty
  string splits into `[""]`, and a trailing newline yields a trailing `""`.
 */
module Lines {

  /** Number of newline characters in `s`. */
  function NewlineCount(s: string): nat
  {
    if s == [] then 0 else (if s[0] == '\n' then 1 else 0) + NewlineCount(s[1..])
  }

  /** Index of the first newline of `s`, or `|s|` when there is none. */
  function LineEnd(s: string): (k: nat)
    ensures k <= |s|
    ensures forall i :: 0 <= i < k ==> s[i] != '\n'
    ensures k < |s| ==> s[k] == '\n'
  {
    if s == [] then 0 else if s[0] == '\n' then 0 else 1 + LineEnd(s[1..])
  }

  /** `s.split("\n")`: one more segment than there are newlines, none holding a newline. */
  function Split(s: string): (parts: seq<string>)
    ensures |parts| == NewlineCount(s) + 1
    ensures forall i :: 0 <= i < |parts| ==> '\n' !in parts[i]
  {
    if s == [] then [""]
    else
      var rest := Split(s[1..]);
      if s[0] == '\n' then [""] + rest
      else [[s[0]] + rest[0]] + rest[1..]
  }

  /** `parts.join("\n")`. */
  function Join(parts: seq<string>): string
  {
    if parts == [] then ""
    else if |parts| == 1 then parts[0]
    else parts[0] + "\n" + Join(parts[1..])
  }

  /** `s.split("\n")[0]`: the text before the first newline. */
  function FirstLine(s: string): (line: string)
    ensures line == s[..LineEnd(s)]
    ensures '\n' !in line
    ensures '\n' !in s ==> line == s
  {
    FirstLineIsPrefix(s);
    Split(s)[0]
  }

  /**
    `s.split("\n")[i]` as JavaScript's `+` renders it: an index past the last
    segment reads `undefined`, which concatenation turns into "undefined".
   */
  function Segment(s: string, i: nat): (seg: string)
    ensures i <= NewlineCount(s) ==> seg == Split(s)[i] && '\n' !in seg
    ensures i > NewlineCount(s) ==> seg == "undefined"
  {
    var parts := Split(s);
    if i < |parts| then parts[i] else "undefined"
  }

  /** `piece` occurs in `s` starting at position `k`. */
  predicate At(s: string, k: nat, piece: string)
  {
    k + |piece| <= |s| && forall j :: 0 <= j < |piece| ==> s[k + j] == piece[j]
  }

  lemma {:induction false} FirstLineIsPrefix(s: string)
    ensures Split(s)[0] == s[..LineEnd(s)]
  {
    if s != [] && s[0] != '\n' {
      FirstLineIsPrefix(s[1..]);
      assert s[..LineEnd(s)] == [s[0]] + s[1..][..LineEnd(s[1..])];
    }
  }

  /** A string without newlines is a single segment. */
  lemma {:induction false} SplitSingle(s: string)
    requires '\n' !in s
    ensures Split(s) == [s]
  {
    if s != [] {
      SplitSingle(s[1..]);
      assert [s[0]] + s[1..] == s;
    }
  }

  /** Splitting a line followed by a newline peels that line off as the first segment. */
  lemma {:induction false} SplitCons(line: string, tail: string)
    requires '\n' !in line
    ensures Split(line + "\n" + tail) == [line] + Split(tail)
  {
    var s := line + "\n" + tail;
    if line == [] {
      assert s[1..] == tail;
    } else {
      assert s[1..] == line[1..] + "\n" + tail;
      SplitCons(line[1..], tail);
      assert [s[0]] + line[1..] == line;
    }
  }

  /** Round trip: joining the segments with newlines restores the text. */
  lemma {:induction false} JoinSplit(s: string)
    ensures Join(Split(s)) == s
  {
    if s != [] {
      var rest := Split(s[1..]);
      JoinSplit(s[1..]);
      if s[0] == '\n' {
        assert Split(s)[1..] == rest;
      } else if |rest| == 1 {
        assert Join(Split(s)) == [s[0]] + rest[0];
      } else {
        assert Split(s)[1..] == rest[1..];
        assert Join(rest) == rest[0] + "\n" + Join(rest[1..]);
        assert Join(Split(s)) == [s[0]] + rest[0] + "\n" + Join(rest[1..]);
      }
    }
  }

  /** Round trip the other way: newline-free segments survive a join and a split. */
  lemma {:induction false} SplitJoin(parts: seq<string>)
    requires |parts| >= 1
    requires forall i :: 0 <= i < |parts| ==> '\n' !in parts[i]
    ensures Split(Join(parts)) == parts
  {
    if |parts| == 1 {
      SplitSingle(parts[0]);
    } else {
      SplitJoin(parts[1..]);
      SplitCons(parts[0], Join(parts[1..]));
    }
  }

  /** The first line of a first line is that first line. */
  lemma FirstLineIdempotent(s: string)
    ensures FirstLine(FirstLine(s)) == FirstLine(s)
  {
  }
}
