/** The pieces of Python's `str` that the transcription code relies on:
    `lower()`, `rfind`, the substring test `sub in s`, `sep.join(xs)` and
    `s.split(c)`. */
module PyStr {

  /** `str.lower()` on one character: the ASCII capitals, and the KELVIN
      SIGN U+212A, the one character outside ASCII that lower-cases to an
      ASCII letter. Other characters are kept as they are. */
  function LowerChar(c: char): (r: char)
    ensures 'a' <= r <= 'z' ==> 'a' <= c <= 'z' || 'A' <= c <= 'Z' || c == '\U{212A}'
    ensures !('A' <= c <= 'Z') && c != '\U{212A}' ==> r == c
  {
    if 'A' <= c <= 'Z' then (c as int + 32) as char
    else if c == '\U{212A}' then 'k'
    else c
  }

  /** `str.lower()`: maps every character and keeps the length. */
  function Lower(s: string): (r: string)
    ensures |r| == |s|
    ensures forall i :: 0 <= i < |s| ==> r[i] == LowerChar(s[i])
  {
    if s == [] then [] else [LowerChar(s[0])] + Lower(s[1..])
  }

  /** `s.rfind(c)`: the index of the last occurrence of `c`, or -1. */
  function RFind(s: string, c: char): (i: int)
    ensures -1 <= i < |s|
    ensures i >= 0 ==> s[i] == c
    ensures forall j :: i < j < |s| ==> s[j] != c
  {
    if s == [] then -1
    else if s[|s| - 1] == c then |s| - 1
    else RFind(s[..|s| - 1], c)
  }

  /** No `c` follows index `i`, so the rest of `s` after `i` holds no `c`. */
  lemma NoneAfter(s: string, c: char, i: int)
    requires -1 <= i < |s|
    requires forall j :: i < j < |s| ==> s[j] != c
    ensures c !in s[i + 1..]
  {
    var t := s[i + 1..];
    forall k | 0 <= k < |t| ensures t[k] != c {
      assert t[k] == s[i + 1 + k];
    }
  }

  /** The three facts RFind promises determine it. */
  lemma RFindUnique(s: string, c: char, i: int)
    requires -1 <= i < |s|
    requires i >= 0 ==> s[i] == c
    requires forall j :: i < j < |s| ==> s[j] != c
    ensures RFind(s, c) == i
  {
    var r := RFind(s, c);
    if i >= 0 { assert s[i] == c; }
    if r >= 0 { assert s[r] == c; }
  }

  /** The last `c` of `a + b` is the last `c` of `b` when `b` has one, and the
      last `c` of `a` otherwise. */
  lemma RFindConcat(a: string, b: string, c: char)
    ensures RFind(a + b, c) == if RFind(b, c) >= 0 then |a| + RFind(b, c) else RFind(a, c)
  {
    var q := RFind(b, c);
    var s := a + b;
    if q >= 0 {
      forall j | |a| + q < j < |s| ensures s[j] != c {
        assert s[j] == b[j - |a|];
      }
      RFindUnique(s, c, |a| + q);
    } else {
      var p := RFind(a, c);
      forall j | p < j < |s| ensures s[j] != c {
        if j >= |a| { assert s[j] == b[j - |a|]; }
      }
      RFindUnique(s, c, p);
    }
  }

  /** Lower-casing leaves every non-letter where it was, so the last '.' or
      '/' of a path does not move. */
  lemma {:induction false} RFindLower(s: string, c: char)
    requires !('A' <= c <= 'Z') && !('a' <= c <= 'z') && c != '\U{212A}'
    ensures RFind(Lower(s), c) == RFind(s, c)
  {
    var i := RFind(s, c);
    var l := Lower(s);
    forall j | i < j < |l| ensures l[j] != c {
      assert l[j] == LowerChar(s[j]);
    }
    if i >= 0 { assert l[i] == LowerChar(s[i]); }
    RFindUnique(l, c, i);
  }

  /** Lower-casing commutes with slicing. */
  lemma LowerSlice(s: string, i: int, j: int)
    requires 0 <= i <= j <= |s|
    ensures Lower(s)[i..j] == Lower(s[i..j])
  {
    var a := Lower(s)[i..j];
    var b := Lower(s[i..j]);
    forall k | 0 <= k < |a| ensures a[k] == b[k] {
      assert a[k] == Lower(s)[i + k];
      assert b[k] == LowerChar(s[i..j][k]);
    }
  }

  /** Lower-casing twice is lower-casing once. */
  lemma LowerIdempotent(s: string)
    ensures Lower(Lower(s)) == Lower(s)
  {
    assert forall k :: 0 <= k < |s| ==> Lower(Lower(s))[k] == Lower(s)[k];
  }

  lemma ConcatAssoc(a: string, b: string, c: string)
    ensures a + (b + c) == (a + b) + c
  {
  }

  predicate IsPrefix(p: string, s: string)
  {
    |p| <= |s| && s[..|p|] == p
  }

  /** `sub` occurs in `s` starting at index `i`. */
  predicate OccursAt(s: string, sub: string, i: int)
  {
    0 <= i <= |s| - |sub| && s[i..i + |sub|] == sub
  }

  /** Python's `sub in s`. */
  function Contains(s: string, sub: string): (r: bool)
    ensures r <==> exists i :: OccursAt(s, sub, i)
  {
    if IsPrefix(sub, s) then
      assert OccursAt(s, sub, 0);
      true
    else if s == [] then
      assert forall i :: !OccursAt(s, sub, i);
      false
    else
      var r := Contains(s[1..], sub);
      assert forall i :: OccursAt(s[1..], sub, i) <==> OccursAt(s, sub, i + 1) by {
        forall i ensures OccursAt(s[1..], sub, i) <==> OccursAt(s, sub, i + 1) {
          if 0 <= i <= |s| - 1 - |sub| { assert s[1..][i..i + |sub|] == s[i + 1..i + 1 + |sub|]; }
        }
      }
      assert !OccursAt(s, sub, 0);
      assert (exists i :: OccursAt(s, sub, i)) ==> r by {
        if exists i :: OccursAt(s, sub, i) {
          var k :| OccursAt(s, sub, k);
          assert OccursAt(s[1..], sub, k - 1);
        }
      }
      r
  }

  /** Whatever sits between two strings is contained in their concatenation. */
  lemma ContainsInfix(a: string, sub: string, b: string)
    ensures Contains(a + sub + b, sub)
  {
    assert OccursAt(a + sub + b, sub, |a|);
  }

  /** `sep.join(xs)`. */
  function JoinWith(sep: string, xs: seq<string>): string
  {
    if xs == [] then ""
    else if |xs| == 1 then xs[0]
    else xs[0] + sep + JoinWith(sep, xs[1..])
  }

  /** Every joined string occurs in the join, whatever the separator and
      whatever the strings contain. */
  lemma {:induction false} JoinWithContains(sep: string, xs: seq<string>, i: int)
    requires 0 <= i < |xs|
    ensures Contains(JoinWith(sep, xs), xs[i])
  {
    if |xs| == 1 {
      assert OccursAt(xs[0], xs[0], 0);
    } else if i == 0 {
      var rest := sep + JoinWith(sep, xs[1..]);
      assert JoinWith(sep, xs) == xs[0] + rest;
      assert OccursAt(xs[0] + rest, xs[0], 0);
    } else {
      JoinWithContains(sep, xs[1..], i - 1);
      var tail := JoinWith(sep, xs[1..]);
      var k :| OccursAt(tail, xs[i], k);
      var head := xs[0] + sep;
      assert JoinWith(sep, xs) == head + tail;
      assert (head + tail)[|head| + k..|head| + k + |xs[i]|] == tail[k..k + |xs[i]|];
      assert OccursAt(head + tail, xs[i], |head| + k);
    }
  }

  /** `s.split(c)` for a one-character separator: empty fields are kept, so
      the result always has one more field than `s` has separators. */
  function Split(s: string, c: char): (r: seq<string>)
    ensures |r| > 0
  {
    if s == [] then [""]
    else
      var rest := Split(s[1..], c);
      if s[0] == c then [""] + rest else [[s[0]] + rest[0]] + rest[1..]
  }

  /** A string without the separator is one field. */
  lemma {:induction false} SplitNoSeparator(a: string, c: char)
    requires c !in a
    ensures Split(a, c) == [a]
  {
    if a != [] {
      assert a[0] != c && c !in a[1..];
      SplitNoSeparator(a[1..], c);
      assert [a[0]] + a[1..] == a;
    }
  }

  /** Splitting at the first separator. */
  lemma {:induction false} SplitAtFirst(a: string, b: string, c: char)
    requires c !in a
    ensures Split(a + [c] + b, c) == [a] + Split(b, c)
  {
    var s := a + [c] + b;
    if a == [] {
      assert s[0] == c && s[1..] == b;
    } else {
      assert s[1..] == a[1..] + [c] + b;
      SplitAtFirst(a[1..], b, c);
      assert s[0] == a[0] && [a[0]] + a[1..] == a;
    }
  }

  /** `s.split(c)` undoes `c.join(xs)` as long as no field contains `c`:
      joining loses neither the fields nor their order. */
  lemma {:induction false} SplitJoin(xs: seq<string>, c: char)
    requires |xs| > 0
    requires forall i :: 0 <= i < |xs| ==> c !in xs[i]
    ensures Split(JoinWith([c], xs), c) == xs
  {
    if |xs| == 1 {
      SplitNoSeparator(xs[0], c);
    } else {
      SplitJoin(xs[1..], c);
      SplitAtFirst(xs[0], JoinWith([c], xs[1..]), c);
      assert [xs[0]] + xs[1..] == xs;
    }
  }
}
