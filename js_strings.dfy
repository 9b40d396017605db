/**
 * The JavaScript string built-ins the two screens rely on: the whitespace class `\s`
 * (which is also the set `String.prototype.trim` removes), `length` in UTF-16 code units,
 * `trim` and `startsWith`.
 *
 * A Dafny `char` is a Unicode scalar value; a JavaScript string is a sequence of UTF-16 code
 * units.  A character outside the Basic Multilingual Plane is one `char` here and two code
 * units there, which is what `Utf16Length` accounts for.
 */
module JsStrings {

  /** ECMAScript LineTerminator: LF, CR, LINE SEPARATOR, PARAGRAPH SEPARATOR. */
  predicate IsLineTerminator(c: char) {
    c == '\n' || c == '\r' || c as int == 0x2028 || c as int == 0x2029
  }

  /** ECMAScript WhiteSpace: TAB, VT, FF, ZWNBSP and the Space_Separator characters. */
  predicate IsWhiteSpace(c: char) {
    var n := c as int;
    n == 0x09 || n == 0x0B || n == 0x0C || n == 0x20 || n == 0xA0 || n == 0x1680
    || (0x2000 <= n && n <= 0x200A) || n == 0x202F || n == 0x205F || n == 0x3000 || n == 0xFEFF
  }

  /** The regular-expression class `\s`; also exactly what `trim` strips (WhiteSpace or LineTerminator). */
  predicate IsSpace(c: char) {
    IsWhiteSpace(c) || IsLineTerminator(c)
  }

  /** The regular-expression class `\d` (ASCII digits only). */
  predicate IsAsciiDigit(c: char) {
    '0' <= c && c <= '9'
  }

  /** A character that occupies a single UTF-16 code unit. */
  predicate IsBmp(c: char) {
    c as int < 0x1_0000
  }

  predicate AllSpace(s: string) {
    forall i :: 0 <= i < |s| ==> IsSpace(s[i])
  }

  predicate AllBmp(s: string) {
    forall i :: 0 <= i < |s| ==> IsBmp(s[i])
  }

  /** `s.length`: the number of UTF-16 code units of `s`. */
  function Utf16Length(s: string): (n: nat)
    ensures |s| <= n <= 2 * |s|
    ensures AllBmp(s) ==> n == |s|
  {
    if s == [] then 0 else (if IsBmp(s[0]) then 1 else 2) + Utf16Length(s[1..])
  }

  /** What `trim` removes at the front. */
  function TrimStart(s: string): (r: string)
    ensures |r| <= |s|
  {
    if s != [] && IsSpace(s[0]) then TrimStart(s[1..]) else s
  }

  /** What `trim` removes at the back. */
  function TrimEnd(s: string): (r: string)
    ensures |r| <= |s|
  {
    if s != [] && IsSpace(s[|s| - 1]) then TrimEnd(s[..|s| - 1]) else s
  }

  /** `s.trim()`. */
  function Trim(s: string): string {
    TrimEnd(TrimStart(s))
  }

  /** `TrimStart` drops a prefix of white space and stops at the first other character. */
  lemma {:induction false} TrimStartShape(s: string)
    ensures var r := TrimStart(s);
      |r| <= |s| && r == s[|s| - |r|..] && AllSpace(s[..|s| - |r|]) && (r == [] || !IsSpace(r[0]))
    decreases |s|
  {
    if s != [] && IsSpace(s[0]) {
      TrimStartShape(s[1..]);
      var r := TrimStart(s);
      assert s[1..][..|s| - 1 - |r|] == s[1..|s| - |r|];
      assert s[..|s| - |r|] == [s[0]] + s[1..|s| - |r|];
    }
  }

  /** `TrimEnd` drops a suffix of white space and stops at the last other character. */
  lemma {:induction false} TrimEndShape(s: string)
    ensures var r := TrimEnd(s);
      |r| <= |s| && r == s[..|r|] && AllSpace(s[|r|..]) && (r == [] || !IsSpace(r[|r| - 1]))
    decreases |s|
  {
    if s != [] && IsSpace(s[|s| - 1]) {
      var s' := s[..|s| - 1];
      TrimEndShape(s');
      var r := TrimEnd(s);
      assert s'[..|r|] == s[..|r|];
      assert s[|r|..] == s'[|r|..] + [s[|s| - 1]];
    }
  }

  /**
   * `trim` removes only white space, from both ends, and what it keeps starts and ends with
   * something else: the result is a slice of `s` with nothing but white space around it.
   */
  lemma TrimShape(s: string)
    ensures var k := |s| - |TrimStart(s)|; var r := Trim(s);
      k + |r| <= |s| && r == s[k..k + |r|] &&
      (forall i :: 0 <= i < k ==> IsSpace(s[i])) &&
      (forall i :: k + |r| <= i < |s| ==> IsSpace(s[i])) &&
      (r == [] || (!IsSpace(r[0]) && !IsSpace(r[|r| - 1])))
  {
    var a := TrimStart(s);
    var r := TrimEnd(a);
    var k := |s| - |a|;
    TrimStartShape(s);
    TrimEndShape(a);
    assert r != [] ==> r[0] == a[0];
    forall i | 0 <= i < k ensures IsSpace(s[i]) {
      assert s[i] == s[..k][i];
    }
    forall i | k + |r| <= i < |s| ensures IsSpace(s[i]) {
      assert s[i] == a[i - k] == a[|r|..][i - k - |r|];
    }
  }

  /** `s.startsWith(prefix)`. */
  predicate StartsWith(s: string, prefix: string) {
    |prefix| <= |s| && s[..|prefix|] == prefix
  }

  lemma {:induction false} TrimStartOfSpaces(p: string, m: string)
    requires AllSpace(p)
    requires m == [] || !IsSpace(m[0])
    ensures TrimStart(p + m) == m
    decreases |p|
  {
    if p != [] {
      assert (p + m)[1..] == p[1..] + m;
      TrimStartOfSpaces(p[1..], m);
    } else {
      assert p + m == m;
    }
  }

  lemma {:induction false} TrimEndOfSpaces(m: string, q: string)
    requires AllSpace(q)
    requires m == [] || !IsSpace(m[|m| - 1])
    ensures TrimEnd(m + q) == m
    decreases |q|
  {
    if q != [] {
      var q' := q[..|q| - 1];
      assert (m + q)[..|m + q| - 1] == m + q';
      TrimEndOfSpaces(m, q');
    } else {
      assert m + q == m;
    }
  }

  /**
   * `trim` is determined by what it keeps: whenever `s` is white space, then a text with no
   * white space at either end, then white space, `trim` returns exactly that text.
   */
  lemma TrimUnique(p: string, m: string, q: string)
    requires AllSpace(p) && AllSpace(q)
    requires m == [] || (!IsSpace(m[0]) && !IsSpace(m[|m| - 1]))
    ensures Trim(p + m + q) == m
  {
    if m == [] {
      assert p + m + q == p + q;
      assert AllSpace(p + q);
      TrimStartOfSpaces(p + q, []);
      assert p + q + [] == p + q;
      assert TrimStart(p + m + q) == [];
    } else {
      assert p + m + q == p + (m + q);
      TrimStartOfSpaces(p, m + q);
      TrimEndOfSpaces(m, q);
    }
  }

  /** Trimming twice is trimming once. */
  lemma TrimIdempotent(s: string)
    ensures Trim(Trim(s)) == Trim(s)
  {
    var t := Trim(s);
    TrimShape(s);
    TrimStartOfSpaces([], t);
    assert [] + t == t;
    TrimEndOfSpaces(t, []);
    assert t + [] == t;
  }
}
