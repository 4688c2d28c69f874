/**
 * Python's `str.strip()` with no argument: remove the leading and trailing
 * characters for which `str.isspace()` holds.
 */
module Text {

  /** The characters `str.isspace()` accepts. */
  predicate IsSpace(c: char) {
    || ('\t' <= c <= '\r')
    || ('\U{1C}' <= c <= '\U{1F}')
    || c == ' '
    || c == '\U{85}'
    || c == '\U{A0}'
    || c == '\U{1680}'
    || ('\U{2000}' <= c <= '\U{200A}')
    || c == '\U{2028}'
    || c == '\U{2029}'
    || c == '\U{202F}'
    || c == '\U{205F}'
    || c == '\U{3000}'
  }

  predicate AllSpace(s: string) {
    forall i :: 0 <= i < |s| ==> IsSpace(s[i])
  }

  /** Neither end of `s` is whitespace: what `strip` leaves behind. */
  predicate Trimmed(s: string) {
    s == [] || (!IsSpace(s[0]) && !IsSpace(s[|s| - 1]))
  }

  /** `s` without its leading whitespace: the longest suffix of `s` that
      does not start with whitespace. */
  function TrimStart(s: string): (r: string)
    ensures |r| <= |s| && r == s[|s| - |r|..]
    ensures forall i :: 0 <= i < |s| - |r| ==> IsSpace(s[i])
    ensures r == [] || !IsSpace(r[0])
  {
    if s != [] && IsSpace(s[0]) then TrimStart(s[1..]) else s
  }

  /** `s` without its trailing whitespace: the longest prefix of `s` that
      does not end with whitespace. */
  function TrimEnd(s: string): (r: string)
    ensures |r| <= |s| && r == s[..|r|]
    ensures forall i :: |r| <= i < |s| ==> IsSpace(s[i])
    ensures r == [] || !IsSpace(r[|r| - 1])
  {
    if s != [] && IsSpace(s[|s| - 1]) then TrimEnd(s[..|s| - 1]) else s
  }

  /** `s.strip()`. */
  function Strip(s: string): (r: string)
    ensures Trimmed(r)
    ensures |r| <= |s|
    ensures r == [] <==> AllSpace(s)
  {
    var t := TrimStart(s);
    var r := TrimEnd(t);
    var k := |s| - |t|;
    assert t != [] ==> !IsSpace(s[k]) by {
      if t != [] { assert t[0] == s[k]; }
    }
    assert r == [] ==> t == [] by {
      if t != [] { assert IsSpace(t[0]) || r != []; }
    }
    assert r != [] ==> r[0] == t[0];
    r
  }

  /** Leading whitespace in front of a string that does not start with
      whitespace is exactly what `TrimStart` removes. */
  lemma {:induction false} TrimStartAfterSpace(p: string, r: string)
    requires AllSpace(p)
    requires r == [] || !IsSpace(r[0])
    ensures TrimStart(p + r) == r
  {
    if p == [] {
      assert p + r == r;
    } else {
      assert (p + r)[0] == p[0];
      assert (p + r)[1..] == p[1..] + r;
      TrimStartAfterSpace(p[1..], r);
    }
  }

  /** Trailing whitespace behind a string that does not end with whitespace
      is exactly what `TrimEnd` removes. */
  lemma {:induction false} TrimEndBeforeSpace(r: string, q: string)
    requires AllSpace(q)
    requires r == [] || !IsSpace(r[|r| - 1])
    ensures TrimEnd(r + q) == r
  {
    if q == [] {
      assert r + q == r;
    } else {
      var s := r + q;
      assert s[|s| - 1] == q[|q| - 1];
      assert s[..|s| - 1] == r + q[..|q| - 1];
      TrimEndBeforeSpace(r, q[..|q| - 1]);
    }
  }

  /** Whatever whitespace surrounds a string with non-space ends, `strip`
      gives back exactly that string: this pins `Strip` down completely. */
  lemma {:induction false} StripSurrounded(p: string, t: string, q: string)
    requires AllSpace(p) && AllSpace(q) && Trimmed(t)
    ensures Strip(p + t + q) == t
  {
    assert p + t + q == p + (t + q);
    if t == [] {
      assert t + q == q;
      TrimStartAfterSpace(p + q, []);
      assert p + q + [] == p + q;
    } else {
      assert (t + q)[0] == t[0];
      TrimStartAfterSpace(p, t + q);
      TrimEndBeforeSpace(t, q);
    }
  }

  /** Stripping twice is stripping once. */
  lemma StripIdempotent(s: string)
    ensures Strip(Strip(s)) == Strip(s)
  {
    var t := Strip(s);
    assert [] + t + [] == t;
    StripSurrounded([], t, []);
  }
}
