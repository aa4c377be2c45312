/** The string operations the core relies on: Python's `str.strip()`,
    `str.lower()` (on ASCII letters) and the code-point order used to sort
    usernames. */
module Text {

  /** Python's `str.isspace()`: the characters `str.strip()` removes. */
  predicate IsSpace(c: char) {
    ('\t' <= c <= '\r') || ('\U{1c}' <= c <= ' ') || c == '\U{85}' || c == '\U{a0}' ||
    c == '\U{1680}' || ('\U{2000}' <= c <= '\U{200a}') || c == '\U{2028}' || c == '\U{2029}' ||
    c == '\U{202f}' || c == '\U{205f}' || c == '\U{3000}'
  }

  predicate AllSpace(s: string) {
    forall i :: 0 <= i < |s| ==> IsSpace(s[i])
  }

  function LowerChar(c: char): (r: char)
    ensures IsSpace(r) == IsSpace(c)
    ensures 'A' <= r <= 'Z' ==> false
  {
    if 'A' <= c <= 'Z' then (c as int + 32) as char else c
  }

  /** `str.lower()`, restricted to the ASCII letters. */
  function Lower(s: string): (r: string)
    ensures |r| == |s|
    ensures forall i :: 0 <= i < |s| ==> r[i] == LowerChar(s[i])
  {
    seq(|s|, i requires 0 <= i < |s| => LowerChar(s[i]))
  }

  /** Drops leading whitespace. */
  function TrimLeft(s: string): string {
    if s != [] && IsSpace(s[0]) then TrimLeft(s[1..]) else s
  }

  /** Drops trailing whitespace. */
  function TrimRight(s: string): string {
    if s != [] && IsSpace(s[|s| - 1]) then TrimRight(s[..|s| - 1]) else s
  }

  /** `str.strip()` with no argument. */
  function Strip(s: string): string {
    TrimRight(TrimLeft(s))
  }

  /** The strip of a string starts and ends with a non-space, and is a
      slice of the string. */
  lemma StripEnds(s: string)
    ensures Strip(s) == [] || (!IsSpace(Strip(s)[0]) && !IsSpace(Strip(s)[|Strip(s)| - 1]))
    ensures exists i, j :: 0 <= i <= j <= |s| && Strip(s) == s[i..j]
  {
    var i := TrimLeftSlice(s);
    var j := TrimRightSlice(TrimLeft(s));
    assert Strip(s) == s[i..][..j];
    assert s[i..][..j] == s[i..i + j];
    if Strip(s) != [] {
      TrimLeftStart(s);
      TrimRightEnd(TrimLeft(s));
      TrimRightKeepsStart(TrimLeft(s));
    }
  }

  lemma {:induction false} TrimLeftSlice(s: string) returns (i: nat)
    ensures i <= |s| && TrimLeft(s) == s[i..]
    decreases |s|
  {
    if s != [] && IsSpace(s[0]) {
      var k := TrimLeftSlice(s[1..]);
      assert s[1..][k..] == s[k + 1..];
      i := k + 1;
    } else {
      i := 0;
    }
  }

  lemma {:induction false} TrimRightSlice(s: string) returns (j: nat)
    ensures j <= |s| && TrimRight(s) == s[..j]
    decreases |s|
  {
    if s != [] && IsSpace(s[|s| - 1]) {
      j := TrimRightSlice(s[..|s| - 1]);
      assert s[..|s| - 1][..j] == s[..j];
    } else {
      j := |s|;
    }
  }

  lemma {:induction false} TrimLeftStart(s: string)
    ensures TrimLeft(s) == [] || !IsSpace(TrimLeft(s)[0])
    decreases |s|
  {
    if s != [] && IsSpace(s[0]) {
      TrimLeftStart(s[1..]);
    }
  }

  lemma {:induction false} TrimRightEnd(s: string)
    ensures TrimRight(s) == [] || !IsSpace(TrimRight(s)[|TrimRight(s)| - 1])
    decreases |s|
  {
    if s != [] && IsSpace(s[|s| - 1]) {
      TrimRightEnd(s[..|s| - 1]);
    }
  }

  /** Trimming the right of a string that starts with a non-space keeps that start. */
  lemma {:induction false} TrimRightKeepsStart(s: string)
    requires s == [] || !IsSpace(s[0])
    ensures TrimRight(s) == [] || TrimRight(s)[0] == s[0]
    decreases |s|
  {
    if s != [] && IsSpace(s[|s| - 1]) {
      TrimRightKeepsStart(s[..|s| - 1]);
    }
  }

  /** A string with no whitespace at either end is its own strip. */
  lemma StripNoSpace(s: string)
    requires s == [] || (!IsSpace(s[0]) && !IsSpace(s[|s| - 1]))
    ensures Strip(s) == s
  {
  }

  /** A string without upper-case ASCII letters is its own lower-case form. */
  lemma LowerOfLowerCase(s: string)
    requires forall i :: 0 <= i < |s| ==> 'a' <= s[i] <= 'z'
    ensures Lower(s) == s
  {
  }

  lemma LowerIdempotent(s: string)
    ensures Lower(Lower(s)) == Lower(s)
  {
  }

  lemma {:induction false} TrimLeftLower(s: string)
    ensures TrimLeft(Lower(s)) == Lower(TrimLeft(s))
    decreases |s|
  {
    if s != [] && IsSpace(s[0]) {
      assert Lower(s)[1..] == Lower(s[1..]);
      TrimLeftLower(s[1..]);
    }
  }

  lemma {:induction false} TrimRightLower(s: string)
    ensures TrimRight(Lower(s)) == Lower(TrimRight(s))
    decreases |s|
  {
    if s != [] && IsSpace(s[|s| - 1]) {
      assert Lower(s)[..|s| - 1] == Lower(s[..|s| - 1]);
      TrimRightLower(s[..|s| - 1]);
    }
  }

  /** Stripping and lower-casing commute: whitespace is never a letter. */
  lemma StripLower(s: string)
    ensures Strip(Lower(s)) == Lower(Strip(s))
  {
    TrimLeftLower(s);
    TrimRightLower(TrimLeft(s));
  }

  lemma {:induction false} TrimLeftSpacePrefix(p: string, t: string)
    requires AllSpace(p)
    ensures TrimLeft(p + t) == TrimLeft(t)
    decreases |p|
  {
    if p != [] {
      assert (p + t)[0] == p[0] && IsSpace(p[0]);
      assert (p + t)[1..] == p[1..] + t;
      assert TrimLeft(p + t) == TrimLeft(p[1..] + t);
      TrimLeftSpacePrefix(p[1..], t);
    } else {
      assert p + t == t;
    }
  }

  lemma {:induction false} TrimRightSpaceSuffix(t: string, q: string)
    requires AllSpace(q)
    ensures TrimRight(t + q) == TrimRight(t)
    decreases |q|
  {
    if q != [] {
      assert (t + q)[|t + q| - 1] == q[|q| - 1] && IsSpace(q[|q| - 1]);
      assert (t + q)[..|t + q| - 1] == t + q[..|q| - 1];
      assert TrimRight(t + q) == TrimRight(t + q[..|q| - 1]);
      TrimRightSpaceSuffix(t, q[..|q| - 1]);
    } else {
      assert t + q == t;
    }
  }

  lemma {:induction false} TrimLeftAppend(t: string, q: string)
    requires AllSpace(q)
    ensures TrimLeft(t + q) == if TrimLeft(t) == [] then [] else TrimLeft(t) + q
    decreases |t|
  {
    if t == [] {
      assert t + q == q;
      TrimLeftAllSpace(q);
    } else if IsSpace(t[0]) {
      assert (t + q)[1..] == t[1..] + q;
      TrimLeftAppend(t[1..], q);
    }
  }

  lemma {:induction false} TrimLeftAllSpace(q: string)
    requires AllSpace(q)
    ensures TrimLeft(q) == []
    decreases |q|
  {
    if q != [] {
      TrimLeftAllSpace(q[1..]);
    }
  }

  /** Whitespace around a string does not change its strip. */
  lemma StripSurrounded(p: string, s: string, q: string)
    requires AllSpace(p) && AllSpace(q)
    ensures Strip(p + s + q) == Strip(s)
  {
    assert p + s + q == p + (s + q);
    TrimLeftSpacePrefix(p, s + q);
    TrimLeftAppend(s, q);
    if TrimLeft(s) != [] {
      TrimRightSpaceSuffix(TrimLeft(s), q);
    }
  }

  /** Code-point lexicographic order, the order `ORDER BY username` is modelled with. */
  predicate LexLe(a: string, b: string) {
    a == [] || (b != [] && (a[0] < b[0] || (a[0] == b[0] && LexLe(a[1..], b[1..]))))
  }

  lemma {:induction false} LexLeTotal(a: string, b: string)
    ensures LexLe(a, b) || LexLe(b, a)
    decreases |a|
  {
    if a != [] && b != [] && a[0] == b[0] {
      LexLeTotal(a[1..], b[1..]);
    }
  }

  lemma {:induction false} LexLeTransitive(a: string, b: string, c: string)
    requires LexLe(a, b) && LexLe(b, c)
    ensures LexLe(a, c)
    decreases |a|
  {
    if a != [] && b != [] && c != [] && a[0] == b[0] && b[0] == c[0] {
      LexLeTransitive(a[1..], b[1..], c[1..]);
    }
  }
}
