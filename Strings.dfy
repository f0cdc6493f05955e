/**
 * The few pieces of Python's `str` that the services rely on, on `seq<char>`:
 * `sub in s`, `s.split(c)` for a one-character separator, `sep.join(parts)`,
 * and the `[0]` / `[-1]` picks after a split.
 */
module Strings {

  /** The first index of a character that occurs in `s`: where `Split` cuts. */
  function IndexOf(s: string, c: char): (i: nat)
    requires c in s
    ensures i < |s| && s[i] == c && c !in s[..i]
  {
    if s[0] == c then 0 else 1 + IndexOf(s[1..], c)
  }

  /** `sub` occurs in `s` at offset `i`. */
  predicate OccursAt(s: string, sub: string, i: int) {
    0 <= i && i + |sub| <= |s| && s[i..i + |sub|] == sub
  }

  /** Python's `sub in s` on strings: `sub` occurs at some offset of `s`. */
  function Contains(s: string, sub: string): (r: bool)
    ensures r <==> exists i :: OccursAt(s, sub, i)
  {
    if sub <= s then
      assert OccursAt(s, sub, 0);
      true
    else if |s| == 0 then
      false
    else
      var r := Contains(s[1..], sub);
      if r then
        var i :| OccursAt(s[1..], sub, i);
        assert OccursAt(s, sub, i + 1);
        r
      else
        assert forall i :: OccursAt(s, sub, i) ==> i > 0 && OccursAt(s[1..], sub, i - 1);
        r
  }

  /** Python's `sep.join(parts)`. */
  function Join(parts: seq<string>, sep: string): string
    decreases |parts|
  {
    if |parts| == 0 then []
    else if |parts| == 1 then parts[0]
    else parts[0] + sep + Join(parts[1..], sep)
  }

  /**
   * Python's `s.split(c)` for a single-character separator: the pieces of `s`
   * between occurrences of `c`, empty pieces kept; never an empty list.
   */
  function Split(s: string, c: char): (r: seq<string>)
    ensures |r| >= 1
    ensures forall i :: 0 <= i < |r| ==> c !in r[i]
    decreases |s|
  {
    if c !in s then [s]
    else
      var i := IndexOf(s, c);
      [s[..i]] + Split(s[i + 1..], c)
  }

  /** `Join` undoes `Split`: putting the separator back between the pieces gives `s`. */
  lemma {:induction false} JoinSplit(s: string, c: char)
    ensures Join(Split(s, c), [c]) == s
    decreases |s|
  {
    if c in s {
      var i := IndexOf(s, c);
      var rest := Split(s[i + 1..], c);
      JoinSplit(s[i + 1..], c);
      assert Split(s, c)[1..] == rest;
      assert s == s[..i] + [c] + s[i + 1..];
    }
  }

  /** Python's `s.split(c)[0]`: the part of `s` before its first `c`. */
  function FirstSegment(s: string, c: char): (r: string)
    ensures c !in r && r <= s
    ensures |r| < |s| ==> s[|r|] == c
    ensures c in s <==> |r| < |s|
  {
    var parts := Split(s, c);
    if c in s then
      assert parts[0] == s[..IndexOf(s, c)];
      parts[0]
    else
      parts[0]
  }

  /** Python's `s.split(c, 1)[1]` when `c` occurs, and the empty string otherwise. */
  function AfterFirst(s: string, c: char): (r: string)
    ensures c in s ==> s == FirstSegment(s, c) + [c] + r
    ensures c !in s ==> r == []
    ensures forall ch :: ch in r ==> ch in s
  {
    var head := FirstSegment(s, c);
    if |head| < |s| then
      assert s == head + [c] + s[|head| + 1..];
      s[|head| + 1..]
    else
      []
  }

  /** Python's `s.split(c)[-1]`: the part of `s` after its last `c`. */
  function LastSegment(s: string, c: char): (r: string)
    ensures c !in r && |r| <= |s| && s[|s| - |r|..] == r
    ensures |r| < |s| ==> s[|s| - |r| - 1] == c
    ensures c !in s ==> r == s
  {
    var parts := Split(s, c);
    var n := |parts|;
    JoinSplit(s, c);
    if n == 1 then
      parts[0]
    else
      assert parts == parts[..n - 1] + [parts[n - 1]];
      JoinSnoc(parts[..n - 1], parts[n - 1], [c]);
      assert c in s by {
        assert s[|s| - |parts[n - 1]| - 1] == c;
      }
      parts[n - 1]
  }

  /** Appending one more part appends the separator and that part. */
  lemma {:induction false} JoinSnoc(parts: seq<string>, last: string, sep: string)
    requires |parts| >= 1
    ensures Join(parts + [last], sep) == Join(parts, sep) + sep + last
    decreases |parts|
  {
    if |parts| == 1 {
      assert parts + [last] == [parts[0], last];
    } else {
      assert (parts + [last])[1..] == parts[1..] + [last];
      JoinSnoc(parts[1..], last, sep);
    }
  }

  /** Splitting at a known first separator peels off the part before it. */
  lemma SplitAtFirst(p: string, c: char, t: string)
    requires c !in p
    ensures Split(p + [c] + t, c) == [p] + Split(t, c)
  {
    var s := p + [c] + t;
    var i := IndexOf(s, c);
    assert s[|p|] == c;
    assert s[..i] == p;
    assert s[i + 1..] == t;
  }

  /** Splitting `a`, a separator, then `b` gives the pieces of `a` followed by the pieces of `b`. */
  lemma {:induction false} SplitConcat(a: string, b: string, c: char)
    ensures Split(a + [c] + b, c) == Split(a, c) + Split(b, c)
    decreases |a|
  {
    if c !in a {
      SplitAtFirst(a, c, b);
      assert Split(a, c) == [a];
    } else {
      var i := IndexOf(a, c);
      var head, rest := a[..i], a[i + 1..];
      assert Split(a, c) == [head] + Split(rest, c);
      calc {
        Split(a + [c] + b, c);
        { assert a + [c] + b == head + [c] + (rest + [c] + b); }
        Split(head + [c] + (rest + [c] + b), c);
        { SplitAtFirst(head, c, rest + [c] + b); }
        [head] + Split(rest + [c] + b, c);
        { SplitConcat(rest, b, c); }
        [head] + (Split(rest, c) + Split(b, c));
        ([head] + Split(rest, c)) + Split(b, c);
      }
    }
  }

  /**
   * `Split` undoes `Join`: pieces that do not contain the separator are
   * recovered exactly, empty ones included.
   */
  lemma {:induction false} SplitJoin(parts: seq<string>, c: char)
    requires |parts| >= 1
    requires forall i :: 0 <= i < |parts| ==> c !in parts[i]
    ensures Split(Join(parts, [c]), c) == parts
    decreases |parts|
  {
    if |parts| > 1 {
      SplitJoin(parts[1..], c);
      SplitAtFirst(parts[0], c, Join(parts[1..], [c]));
      assert parts == [parts[0]] + parts[1..];
    }
  }

  /**
   * A join with a non-empty separator is empty exactly when there is nothing
   * to join or a single empty part.
   */
  lemma JoinIsEmpty(parts: seq<string>, sep: string)
    requires |sep| > 0
    ensures Join(parts, sep) == [] <==> |parts| == 0 || (|parts| == 1 && parts[0] == [])
  {
    if |parts| > 1 {
      assert |Join(parts, sep)| >= |sep|;
    }
  }
}
