/**
 * The few Python string operations the server's decisions rest on:
 * `str.lower()`, `str.strip()`, `'..' in s`, `str.startswith` and `str.endswith`.
 */
module Text {

  /** Python's `str.isspace()` for one character: the characters `str.strip()` removes */
  predicate IsSpace(c: char) {
    c == ' ' || '\U{9}' <= c <= '\U{d}' || '\U{1c}' <= c <= '\U{1f}'
    || c == '\U{85}' || c == '\U{a0}' || c == '\U{1680}' || '\U{2000}' <= c <= '\U{200a}'
    || c == '\U{2028}' || c == '\U{2029}' || c == '\U{202f}' || c == '\U{205f}' || c == '\U{3000}'
  }

  predicate IsUpper(c: char) {
    'A' <= c <= 'Z'
  }

  /** `str.lower()` on one character, for the ASCII letters */
  function LowerChar(c: char): (d: char)
    ensures !IsUpper(d)
    ensures !IsUpper(c) ==> d == c
    ensures IsUpper(c) ==> 'a' <= d <= 'z' && d as int - 'a' as int == c as int - 'A' as int
  {
    if IsUpper(c) then (c as int - 'A' as int + 'a' as int) as char else c
  }

  /** `s.lower()`: every character lowered in place */
  function Lower(s: string): (r: string)
    ensures |r| == |s|
    ensures forall i :: 0 <= i < |s| ==> r[i] == LowerChar(s[i])
  {
    if s == [] then [] else [LowerChar(s[0])] + Lower(s[1..])
  }

  /** every character of `t` is whitespace */
  predicate AllSpace(t: string) {
    forall k :: 0 <= k < |t| ==> IsSpace(t[k])
  }

  /** `s.lstrip()`: the suffix of `s` left after its leading whitespace */
  function TrimStart(s: string): (r: string)
    ensures |r| <= |s| && r == s[|s| - |r|..]
    ensures AllSpace(s[..|s| - |r|])
    ensures r != [] ==> !IsSpace(r[0])
  {
    if s != [] && IsSpace(s[0]) then
      var r := TrimStart(s[1..]);
      assert s[..|s| - |r|] == [s[0]] + s[1..][..|s| - 1 - |r|];
      r
    else s
  }

  /** `s.rstrip()`: the prefix of `s` left before its trailing whitespace */
  function TrimEnd(s: string): (r: string)
    ensures |r| <= |s| && r == s[..|r|]
    ensures AllSpace(s[|r|..])
    ensures r != [] ==> !IsSpace(r[|r| - 1])
  {
    if s != [] && IsSpace(s[|s| - 1]) then
      var r := TrimEnd(s[..|s| - 1]);
      assert s[|r|..] == s[..|s| - 1][|r|..] + [s[|s| - 1]];
      r
    else s
  }

  /** `r` is the slice of `s` at offset `i` with only whitespace around it */
  predicate StripsTo(s: string, i: int, r: string) {
    0 <= i <= |s| - |r| && r == s[i..i + |r|] && AllSpace(s[..i]) && AllSpace(s[i + |r|..])
  }

  /** `s.strip()`: `s` without its leading and trailing whitespace */
  function Strip(s: string): (r: string)
    ensures exists i :: StripsTo(s, i, r)
    ensures r != [] ==> !IsSpace(r[0]) && !IsSpace(r[|r| - 1])
  {
    var t := TrimStart(s);
    var r := TrimEnd(t);
    var i := |s| - |t|;
    assert s[i..i + |r|] == t[..|r|];
    assert s[i + |r|..] == t[|r|..];
    assert StripsTo(s, i, r);
    r
  }

  /** a `..` token starts at index `i` of `s` */
  predicate DotDotAt(s: string, i: int) {
    0 <= i < |s| - 1 && s[i] == '.' && s[i + 1] == '.'
  }

  /** Python's `'..' in s` */
  predicate HasDotDot(s: string) {
    exists i | 0 <= i < |s| - 1 :: DotDotAt(s, i)
  }

  /** `'..' in s` is substring containment: `s` splits into some `p`, a `..` and some `q` */
  lemma HasDotDotMeansInfix(s: string)
    ensures HasDotDot(s) <==> exists p, q :: s == p + ".." + q
  {
    if HasDotDot(s) {
      var i :| 0 <= i < |s| - 1 && DotDotAt(s, i);
      assert s == s[..i] + ".." + s[i + 2..];
    }
    if exists p, q :: s == p + ".." + q {
      var p, q :| s == p + ".." + q;
      assert DotDotAt(s, |p|);
    }
  }

  /** `s.startswith(p)` */
  predicate StartsWith(s: string, p: string) {
    p <= s
  }

  /** `s.startswith(p)` holds exactly when `s` is `p` followed by something */
  lemma StartsWithMeansPrefix(s: string, p: string)
    ensures StartsWith(s, p) <==> exists u :: s == p + u
  {
    if StartsWith(s, p) {
      assert s == p + s[|p|..];
    }
    if exists u :: s == p + u {
      var u :| s == p + u;
      assert s[..|p|] == p;
    }
  }

  /** `s.endswith(t)` */
  predicate EndsWith(s: string, t: string) {
    |t| <= |s| && s[|s| - |t|..] == t
  }

  /** `s.endswith(t)` holds exactly when `s` is something followed by `t` */
  lemma EndsWithMeansSuffix(s: string, t: string)
    ensures EndsWith(s, t) <==> exists u :: s == u + t
  {
    if EndsWith(s, t) {
      assert s == s[..|s| - |t|] + t;
    }
    if exists u :: s == u + t {
      var u :| s == u + t;
      assert s[|s| - |t|..] == t;
    }
  }

  /** stripping whitespace off a string without upper-case letters leaves none */
  lemma StripKeepsNoUpper(s: string)
    requires forall k :: 0 <= k < |s| ==> !IsUpper(s[k])
    ensures forall k :: 0 <= k < |Strip(s)| ==> !IsUpper(Strip(s)[k])
  {
    var r := Strip(s);
    var i :| StripsTo(s, i, r);
    forall k | 0 <= k < |r| ensures !IsUpper(r[k]) {
      assert r[k] == s[i + k];
    }
  }
}
