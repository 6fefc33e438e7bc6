/**
 * The few pieces of JavaScript runtime behaviour the completion-context
 * classifier relies on: `undefined` as an absent value, the TypeError thrown
 * by reading a property of `undefined`, `String.prototype.includes`,
 * `String.prototype.slice`, `String.prototype.split` and `Array.prototype.join`.
 */
module Js {

  /** A value that may be `undefined` (or `null`). */
  datatype Option<+T> = None | Some(value: T)

  /** The TypeError thrown by reading a property of `undefined`; `read` is the property path. */
  datatype Fault = TypeError(read: string)

  /** A value, or the TypeError that was thrown instead of producing it. */
  datatype Result<+T> = Ok(value: T) | Err(fault: Fault)

  /** `s.includes(part)`: `part` occurs in `s` as a contiguous substring. */
  predicate Includes(s: string, part: string)
  {
    exists i: nat | i <= |s| :: OccursAt(s, part, i)
  }

  /** `part` occurs in `s` starting at index `i`. */
  predicate OccursAt(s: string, part: string, i: nat)
  {
    i + |part| <= |s| && s[i..i + |part|] == part
  }

  /** `s.slice(0, end)` for a non-negative `end`: the prefix, clamped to the length. */
  function SliceTo(s: string, end: nat): (r: string)
    ensures |r| == if end < |s| then end else |s|
    ensures r <= s
  {
    if end < |s| then s[..end] else s
  }

  /** `s.slice(start)` for a non-negative `start`: the suffix, empty past the end. */
  function SliceFrom(s: string, start: nat): (r: string)
    ensures SliceTo(s, start) + r == s
  {
    if start < |s| then s[start..] else ""
  }

  /** `lines.join(sep)` for a one-character separator. */
  function Join(lines: seq<string>, sep: char): string
  {
    if |lines| == 0 then ""
    else if |lines| == 1 then lines[0]
    else lines[0] + [sep] + Join(lines[1..], sep)
  }

  /**
   * `s.split(sep)` for a one-character separator: the maximal runs between
   * separators, including the empty ones, and never an empty list.
   */
  function Split(s: string, sep: char): (r: seq<string>)
    ensures |r| >= 1
    ensures forall i :: 0 <= i < |r| ==> sep !in r[i]
    ensures Join(r, sep) == s
    decreases |s|
  {
    if s == [] then [""]
    else
      var rest := Split(s[1..], sep);
      if s[0] == sep then
        assert ([""] + rest)[1..] == rest;
        [""] + rest
      else
        var r := [[s[0]] + rest[0]] + rest[1..];
        assert r[1..] == rest[1..];
        assert s == [s[0]] + s[1..];
        r
  }

  /** A string of `k` separators. */
  function Repeat(c: char, k: nat): (r: string)
    ensures |r| == k && forall i :: 0 <= i < k ==> r[i] == c
  {
    seq(k, _ => c)
  }

  /** `k` empty strings: the holes a JavaScript array gets when it is assigned past its end. */
  function Holes(k: nat): (r: seq<string>)
    ensures |r| == k && forall i :: 0 <= i < k ==> r[i] == ""
  {
    seq(k, _ => "")
  }

  /** Joining two non-empty lists puts one separator between their joins. */
  lemma {:induction false} JoinAppend(a: seq<string>, b: seq<string>, sep: char)
    requires |a| >= 1 && |b| >= 1
    ensures Join(a + b, sep) == Join(a, sep) + [sep] + Join(b, sep)
  {
    if |a| == 1 {
      assert (a + b)[1..] == b;
    } else {
      assert (a + b)[1..] == a[1..] + b;
      JoinAppend(a[1..], b, sep);
    }
  }

  /** Joining `k` empty strings before `x` yields `k` separators before `x`. */
  lemma {:induction false} JoinHoles(k: nat, x: string, sep: char)
    ensures Join(Holes(k) + [x], sep) == Repeat(sep, k) + x
  {
    if k > 0 {
      var l := Holes(k) + [x];
      assert l[1..] == Holes(k - 1) + [x];
      JoinHoles(k - 1, x, sep);
      assert Repeat(sep, k) == [sep] + Repeat(sep, k - 1);
    } else {
      assert Holes(0) + [x] == [x];
    }
  }

  /** Splitting a separator-free string yields it alone. */
  lemma {:induction false} SplitSingle(a: string, sep: char)
    requires sep !in a
    ensures Split(a, sep) == [a]
    decreases |a|
  {
    if a != [] {
      SplitSingle(a[1..], sep);
      assert a == [a[0]] + a[1..];
    }
  }

  /** Splitting at the first separator peels off the separator-free head. */
  lemma {:induction false} SplitHead(a: string, b: string, sep: char)
    requires sep !in a
    ensures Split(a + [sep] + b, sep) == [a] + Split(b, sep)
    decreases |a|
  {
    var s := a + [sep] + b;
    if a == [] {
      assert s[1..] == b;
    } else {
      assert s[1..] == a[1..] + [sep] + b;
      SplitHead(a[1..], b, sep);
      assert a == [a[0]] + a[1..];
    }
  }

  /** Split undoes Join when no piece contains the separator. */
  lemma {:induction false} SplitJoin(lines: seq<string>, sep: char)
    requires |lines| >= 1
    requires forall i :: 0 <= i < |lines| ==> sep !in lines[i]
    ensures Split(Join(lines, sep), sep) == lines
  {
    if |lines| == 1 {
      SplitSingle(lines[0], sep);
    } else {
      SplitJoin(lines[1..], sep);
      SplitHead(lines[0], Join(lines[1..], sep), sep);
      assert lines == [lines[0]] + lines[1..];
    }
  }
}
