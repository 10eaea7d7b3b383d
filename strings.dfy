/** The two string operations the widgets use: `toLowerCase` (for ASCII
    letters) and `trim` (with ECMAScript's whitespace and line terminators). */
module Strings {

  function LowerChar(c: char): char
  {
    if 'A' <= c <= 'Z' then (c as int + 32) as char else c
  }

  function Lower(s: string): (r: string)
    ensures |r| == |s|
    ensures forall k | 0 <= k < |s| :: r[k] == LowerChar(s[k])
    ensures forall k | 0 <= k < |r| :: !('A' <= r[k] <= 'Z')
  {
    if s == [] then [] else [LowerChar(s[0])] + Lower(s[1..])
  }

  /** Lower-casing twice is lower-casing once. */
  lemma LowerIdempotent(s: string)
    ensures Lower(Lower(s)) == Lower(s)
  {
  }

  /** `Lower(s)` is `t` when `t` is `s` lower-cased character by character. */
  lemma LowerPointwise(s: string, t: string)
    requires |s| == |t| && forall k | 0 <= k < |s| :: LowerChar(s[k]) == t[k]
    ensures Lower(s) == t
  {
  }

  /** The code points `String.prototype.trim` strips: WhiteSpace and LineTerminator. */
  predicate IsWhitespace(c: char)
  {
    var n := c as int;
    n == 0x09 || n == 0x0A || n == 0x0B || n == 0x0C || n == 0x0D || n == 0x20
    || n == 0xA0 || n == 0x1680 || (0x2000 <= n <= 0x200A) || n == 0x2028 || n == 0x2029
    || n == 0x202F || n == 0x205F || n == 0x3000 || n == 0xFEFF
  }

  function TrimStart(s: string): (r: string)
    ensures |r| <= |s| && r == s[|s| - |r|..]
    ensures r != [] ==> !IsWhitespace(r[0])
    ensures forall k | 0 <= k < |s| - |r| :: IsWhitespace(s[k])
  {
    if s != [] && IsWhitespace(s[0]) then TrimStart(s[1..]) else s
  }

  function TrimEnd(s: string): (r: string)
    ensures |r| <= |s| && r == s[..|r|]
    ensures r != [] ==> !IsWhitespace(r[|r| - 1])
    ensures forall k | |r| <= k < |s| :: IsWhitespace(s[k])
  {
    if s != [] && IsWhitespace(s[|s| - 1]) then TrimEnd(s[..|s| - 1]) else s
  }

  /** `s.trim()`: `s` with a whitespace-only prefix and suffix cut off; it neither starts nor ends with
      whitespace, and it is empty exactly when `s` is all whitespace. */
  function Trim(s: string): (r: string)
    ensures |r| <= |s|
    ensures r != [] ==> !IsWhitespace(r[0]) && !IsWhitespace(r[|r| - 1])
    ensures r == [] <==> forall k | 0 <= k < |s| :: IsWhitespace(s[k])
    ensures exists a, b | 0 <= a <= b <= |s| ::
      && r == s[a..b]
      && (forall k | 0 <= k < a :: IsWhitespace(s[k]))
      && (forall k | b <= k < |s| :: IsWhitespace(s[k]))
  {
    var t := TrimStart(s);
    var r := TrimEnd(t);
    TrimCuts(s, t, r);
    r
  }

  /** The cuts `Trim` makes: `t` drops a whitespace prefix of `s` and `r` a whitespace suffix of `t`, so `r`
      is a slice of `s` with whitespace on both sides of it, and it is empty exactly when `s` is all whitespace. */
  lemma TrimCuts(s: string, t: string, r: string)
    requires |t| <= |s| && t == s[|s| - |t|..] && forall k | 0 <= k < |s| - |t| :: IsWhitespace(s[k])
    requires |r| <= |t| && r == t[..|r|] && forall k | |r| <= k < |t| :: IsWhitespace(t[k])
    requires r != [] ==> !IsWhitespace(r[0]) && !IsWhitespace(r[|r| - 1])
    ensures |r| <= |s|
    ensures r == [] <==> forall k | 0 <= k < |s| :: IsWhitespace(s[k])
    ensures exists a, b | 0 <= a <= b <= |s| ::
      && r == s[a..b]
      && (forall k | 0 <= k < a :: IsWhitespace(s[k]))
      && (forall k | b <= k < |s| :: IsWhitespace(s[k]))
  {
    var a := |s| - |t|;
    var b := a + |r|;
    forall k | b <= k < |s|
      ensures IsWhitespace(s[k])
    {
      assert s[k] == t[k - a];
    }
    assert r == s[a..b];
    if r != [] {
      assert r[0] == s[a];
    }
  }
}
