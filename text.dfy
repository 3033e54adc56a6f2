/**
  The pieces of Python's `str` that the tracing code relies on: `split` on a
  one-character separator (and the `[0]` / `[-1]` pieces the code keeps),
  `lower`, and `replace` of one character by another.
 */
module Text {

  /** `s.split(sep)`: the pieces between occurrences of `sep`, in order; never an empty list. */
  function Split(s: string, sep: char): (parts: seq<string>)
    ensures |parts| >= 1
    ensures forall i :: 0 <= i < |parts| ==> sep !in parts[i]
    decreases |s|
  {
    if s == [] then [""]
    else
      var rest := Split(s[1..], sep);
      if s[0] == sep then [""] + rest
      else [[s[0]] + rest[0]] + rest[1..]
  }

  /** `sep.join(parts)`: the inverse of `Split`. */
  function Join(parts: seq<string>, sep: char): string
    requires |parts| >= 1
    decreases |parts|
  {
    if |parts| == 1 then parts[0] else parts[0] + [sep] + Join(parts[1..], sep)
  }

  /** Joining the pieces of a split gives back the original string. */
  lemma {:induction false} JoinSplit(s: string, sep: char)
    ensures Join(Split(s, sep), sep) == s
    decreases |s|
  {
    if s != [] {
      JoinSplit(s[1..], sep);
      var rest := Split(s[1..], sep);
      if s[0] == sep {
        assert ([""] + rest)[1..] == rest;
      } else if |rest| > 1 {
        assert ([[s[0]] + rest[0]] + rest[1..])[1..] == rest[1..];
      }
      assert s == [s[0]] + s[1..];
    }
  }

  /** A string without the separator splits into itself alone. */
  lemma {:induction false} SplitNoSeparator(s: string, sep: char)
    requires sep !in s
    ensures Split(s, sep) == [s]
    decreases |s|
  {
    if s != [] {
      SplitNoSeparator(s[1..], sep);
      assert s == [s[0]] + s[1..];
    }
  }

  /** Splitting at one occurrence of the separator splits the two sides independently. */
  lemma {:induction false} SplitConcat(x: string, sep: char, y: string)
    ensures Split(x + [sep] + y, sep) == Split(x, sep) + Split(y, sep)
    decreases |x|
  {
    var s := x + [sep] + y;
    if x == [] {
      assert s[0] == sep && s[1..] == y;
    } else {
      assert s[0] == x[0] && s[1..] == x[1..] + [sep] + y;
      SplitConcat(x[1..], sep, y);
      var r, t := Split(x[1..], sep), Split(y, sep);
      if x[0] != sep {
        assert (r + t)[0] == r[0];
        assert (r + t)[1..] == r[1..] + t;
      }
    }
  }

  /** Splitting a join of separator-free pieces gives back the pieces. */
  lemma {:induction false} SplitJoin(parts: seq<string>, sep: char)
    requires |parts| >= 1
    requires forall i :: 0 <= i < |parts| ==> sep !in parts[i]
    ensures Split(Join(parts, sep), sep) == parts
    decreases |parts|
  {
    if |parts| == 1 {
      SplitNoSeparator(parts[0], sep);
    } else {
      SplitJoin(parts[1..], sep);
      SplitConcat(parts[0], sep, Join(parts[1..], sep));
      SplitNoSeparator(parts[0], sep);
      assert [parts[0]] + parts[1..] == parts;
    }
  }

  /** The join of two or more pieces ends with the separator and the last piece. */
  lemma {:induction false} JoinLast(parts: seq<string>, sep: char)
    requires |parts| >= 2
    ensures Join(parts, sep) == Join(parts[..|parts| - 1], sep) + [sep] + parts[|parts| - 1]
    decreases |parts|
  {
    if |parts| > 2 {
      JoinLast(parts[1..], sep);
      assert parts[1..][..|parts| - 2] == parts[..|parts| - 1][1..];
    }
  }

  /** `p` is the text of `s` before its first `/` (all of `s` when it has none). */
  ghost predicate IsFirstSegment(s: string, p: string)
  {
    |p| <= |s| && s[..|p|] == p && '/' !in p && (|p| == |s| || s[|p|] == '/')
  }

  /** `p` is the text of `s` after its last `/` (all of `s` when it has none). */
  ghost predicate IsLastSegment(s: string, p: string)
  {
    |p| <= |s| && s[|s| - |p|..] == p && '/' !in p && (|p| == |s| || s[|s| - |p| - 1] == '/')
  }

  lemma FirstPieceIsFirstSegment(s: string)
    ensures IsFirstSegment(s, Split(s, '/')[0])
  {
  }

  lemma LastPieceIsLastSegment(s: string)
    ensures var parts := Split(s, '/'); IsLastSegment(s, parts[|parts| - 1])
  {
    var parts := Split(s, '/');
    JoinSplit(s, '/');
    if |parts| > 1 {
      JoinLast(parts, '/');
      var front := Join(parts[..|parts| - 1], '/');
      assert s == front + ['/'] + parts[|parts| - 1];
    }
  }

  /** `s.split('/')[0]`. */
  function FirstSegment(s: string): (p: string)
    ensures IsFirstSegment(s, p)
  {
    FirstPieceIsFirstSegment(s);
    Split(s, '/')[0]
  }

  /** `s.split('/')[-1]`. */
  function LastSegment(s: string): (p: string)
    ensures IsLastSegment(s, p)
  {
    LastPieceIsLastSegment(s);
    var parts := Split(s, '/');
    parts[|parts| - 1]
  }

  /** The text before the first `/` is determined by the two conditions of `IsFirstSegment`. */
  lemma FirstSegmentUnique(s: string, p: string)
    ensures IsFirstSegment(s, p) <==> p == FirstSegment(s)
  {
  }

  /** The text after the last `/` is determined by the two conditions of `IsLastSegment`. */
  lemma LastSegmentUnique(s: string, p: string)
    ensures IsLastSegment(s, p) <==> p == LastSegment(s)
  {
  }

  /** Whatever precedes the last `/`, the piece after it is what `LastSegment` returns. */
  lemma LastSegmentAfterSlash(front: string, p: string)
    requires '/' !in p
    ensures LastSegment(front + ['/'] + p) == p
  {
    var s := front + ['/'] + p;
    assert s[|s| - |p|..] == p;
    assert s[|s| - |p| - 1] == '/';
    LastSegmentUnique(s, p);
  }

  /** Whatever follows the first `/`, the piece before it is what `FirstSegment` returns. */
  lemma FirstSegmentBeforeSlash(p: string, back: string)
    requires '/' !in p
    ensures FirstSegment(p + ['/'] + back) == p
  {
    var s := p + ['/'] + back;
    assert s[..|p|] == p && s[|p|] == '/';
    FirstSegmentUnique(s, p);
  }

  /** An ASCII upper-case letter. */
  predicate IsUpper(c: char)
  {
    'A' <= c <= 'Z'
  }

  function LowerChar(c: char): char
  {
    if IsUpper(c) then (c as int + 32) as char else c
  }

  /** `s.lower()`, on ASCII letters. */
  function Lower(s: string): string
  {
    seq(|s|, i requires 0 <= i < |s| => LowerChar(s[i]))
  }

  /** `lower()` keeps the length, maps each capital to its lower-case letter, and keeps every other character. */
  lemma LowerSpec(s: string)
    ensures |Lower(s)| == |s|
    ensures forall i :: 0 <= i < |s| ==> !IsUpper(Lower(s)[i])
    ensures forall i :: 0 <= i < |s| && !IsUpper(s[i]) ==> Lower(s)[i] == s[i]
    ensures forall i :: 0 <= i < |s| && IsUpper(s[i]) ==> Lower(s)[i] as int == s[i] as int + 32
  {
  }

  /** Lower-casing twice is lower-casing once. */
  lemma LowerIdempotent(s: string)
    ensures Lower(Lower(s)) == Lower(s)
  {
  }

  /** `s.replace(target, replacement)` for single characters. */
  function ReplaceChar(s: string, target: char, replacement: char): (r: string)
    ensures |r| == |s|
    ensures forall i :: 0 <= i < |s| ==> r[i] == (if s[i] == target then replacement else s[i])
    ensures target != replacement ==> target !in r
    decreases |s|
  {
    if s == [] then []
    else [if s[0] == target then replacement else s[0]] + ReplaceChar(s[1..], target, replacement)
  }
}
