/** The two pieces of JavaScript string semantics the client relies on:
    `String.prototype.trim` and the default comparator of `Array.prototype.sort`. */
module JsStrings {

  /** The characters `trim` strips: the WhiteSpace and LineTerminator productions of
      ECMAScript (tab, vertical tab, form feed, space, no-break space, the Unicode space
      separators, line feed, carriage return, the line and paragraph separators, and the
      byte order mark). */
  predicate IsWhiteSpace(c: char) {
    c == ' ' || c == '\t' || c == '\n' || c == '\r'
    || c == '\U{000B}' || c == '\U{000C}' || c == '\U{00A0}' || c == '\U{1680}'
    || ('\U{2000}' <= c <= '\U{200A}')
    || c == '\U{2028}' || c == '\U{2029}' || c == '\U{202F}' || c == '\U{205F}'
    || c == '\U{3000}' || c == '\U{FEFF}'
  }

  predicate AllWhiteSpace(s: string) {
    forall i :: 0 <= i < |s| ==> IsWhiteSpace(s[i])
  }

  /** `s` with its leading white space removed. */
  function TrimStart(s: string): (r: string)
    ensures |r| <= |s| && r == s[|s| - |r|..]
    ensures AllWhiteSpace(s[..|s| - |r|])
    ensures r == [] || !IsWhiteSpace(r[0])
  {
    if |s| > 0 && IsWhiteSpace(s[0]) then
      var t := TrimStart(s[1..]);
      assert s[..|s| - |t|] == [s[0]] + s[1..][..|s[1..]| - |t|];
      t
    else s
  }

  /** `s` with its trailing white space removed. */
  function TrimEnd(s: string): (r: string)
    ensures |r| <= |s| && r == s[..|r|]
    ensures AllWhiteSpace(s[|r|..])
    ensures r == [] || !IsWhiteSpace(r[|r| - 1])
  {
    if |s| > 0 && IsWhiteSpace(s[|s| - 1]) then
      var t := TrimEnd(s[..|s| - 1]);
      assert s[|t|..] == s[..|s| - 1][|t|..] + [s[|s| - 1]];
      t
    else s
  }

  /** `s.trim()`: a contiguous slice of `s` that neither starts nor ends with white space,
      everything outside the slice being white space. */
  function Trim(s: string): (r: string)
    ensures exists i, j :: 0 <= i <= j <= |s| && r == s[i..j]
                           && AllWhiteSpace(s[..i]) && AllWhiteSpace(s[j..])
    ensures r == [] || (!IsWhiteSpace(r[0]) && !IsWhiteSpace(r[|r| - 1]))
  {
    var t := TrimStart(s);
    var r := TrimEnd(t);
    var i := |s| - |t|;
    assert r == s[i..i + |r|];
    assert s[i + |r|..] == t[|r|..];
    assert r != [] ==> r[0] == t[0];
    r
  }

  /** A string trims to the empty string exactly when every character of it is white space:
      the test `!newMessage.trim()` of the chat input. */
  lemma TrimEmptyIffAllWhiteSpace(s: string)
    ensures Trim(s) == [] <==> AllWhiteSpace(s)
  {
    var t := TrimStart(s);
    var n := |s| - |t|;
    assert t[0..] == t;
    forall k | 0 <= k < |s| && AllWhiteSpace(t) ensures IsWhiteSpace(s[k]) {
      assert s[k] == s[..n][k];
    }
    assert t != [] ==> t[0] == s[n];
  }

  /** `a <= b` under the default comparator of `Array.prototype.sort`: lexicographic order
      on characters, a proper prefix coming first. */
  predicate SortsBefore(a: string, b: string) {
    if a == [] then true
    else if b == [] then false
    else if a[0] != b[0] then a[0] < b[0]
    else SortsBefore(a[1..], b[1..])
  }

  lemma {:induction false} SortsBeforeTotal(a: string, b: string)
    ensures SortsBefore(a, b) || SortsBefore(b, a)
  {
    if a != [] && b != [] && a[0] == b[0] {
      SortsBeforeTotal(a[1..], b[1..]);
    }
  }

  lemma {:induction false} SortsBeforeAntisymmetric(a: string, b: string)
    ensures SortsBefore(a, b) && SortsBefore(b, a) ==> a == b
  {
    if a != [] && b != [] && a[0] == b[0] {
      SortsBeforeAntisymmetric(a[1..], b[1..]);
      assert a == [a[0]] + a[1..];
      assert b == [b[0]] + b[1..];
    }
  }

  /** `[a, b].sort()`: the two strings in ascending order, whichever order they came in. */
  function SortPair(a: string, b: string): (r: (string, string))
    ensures SortsBefore(r.0, r.1)
    ensures SortsBefore(a, b) ==> r == (a, b)
    ensures SortsBefore(b, a) ==> r == (b, a)
  {
    SortsBeforeTotal(a, b);
    SortsBeforeAntisymmetric(a, b);
    if SortsBefore(a, b) then (a, b) else (b, a)
  }

  /** Sorting two strings does not depend on the order they were given in. */
  lemma SortPairSymmetric(a: string, b: string)
    ensures SortPair(a, b) == SortPair(b, a)
  {
    SortsBeforeTotal(a, b);
  }
}
