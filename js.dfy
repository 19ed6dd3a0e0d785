/** JavaScript value semantics that the modelled code relies on: values that may
    be null or undefined, the truthiness of strings, the `||` operator on
    strings, and String.prototype.trim (section 22.1.3.32 of ECMA-262), which
    removes the code points of WhiteSpace (section 12.2) and LineTerminator
    (section 12.3) from both ends. */
module Js {

  /** A value that may be null or undefined. */
  datatype Option<+T> = None | Some(value: T)

  /** A string that may be null is truthy iff it is present and not empty. */
  predicate Truthy(s: Option<string>) {
    s.Some? && s.value != ""
  }

  /** `s || fallback` where `s` is a string or null. */
  function Or(s: Option<string>, fallback: string): string {
    if Truthy(s) then s.value else fallback
  }

  /** The code points that trim removes: WhiteSpace (TAB, VT, FF, SPACE,
      NO-BREAK SPACE, ZERO WIDTH NO-BREAK SPACE and every other Space_Separator)
      and LineTerminator (LF, CR, LINE SEPARATOR, PARAGRAPH SEPARATOR). */
  predicate IsWhiteSpace(c: char) {
    || c == '\t' || c == '\U{000B}' || c == '\U{000C}' || c == ' '
    || c == '\U{00A0}' || c == '\U{FEFF}' || c == '\U{1680}'
    || ('\U{2000}' <= c <= '\U{200A}')
    || c == '\U{202F}' || c == '\U{205F}' || c == '\U{3000}'
    || c == '\n' || c == '\r' || c == '\U{2028}' || c == '\U{2029}'
  }

  /** Every character of `s` is white space (this includes the empty string). */
  predicate IsBlank(s: string) {
    forall i :: 0 <= i < |s| ==> IsWhiteSpace(s[i])
  }

  /** Removes the leading white space: the result is the longest suffix of
      `s` that does not start with white space. */
  function TrimStart(s: string): (r: string)
    ensures |r| <= |s| && r == s[|s| - |r|..]
    ensures r == [] || !IsWhiteSpace(r[0])
    ensures IsBlank(s[..|s| - |r|])
  {
    if s != [] && IsWhiteSpace(s[0]) then TrimStart(s[1..]) else s
  }

  /** Removes the trailing white space: the result is the longest prefix of
      `s` that does not end with white space. */
  function TrimEnd(s: string): (r: string)
    ensures |r| <= |s| && r == s[..|r|]
    ensures r == [] || !IsWhiteSpace(r[|r| - 1])
    ensures IsBlank(s[|r|..])
  {
    if s != [] && IsWhiteSpace(s[|s| - 1]) then TrimEnd(s[..|s| - 1]) else s
  }

  /** `s` is a blank prefix of length `k`, then `r`, then a blank suffix. */
  predicate BlankFramed(s: string, r: string, k: int) {
    && 0 <= k && k + |r| <= |s| && r == s[k..k + |r|]
    && IsBlank(s[..k]) && IsBlank(s[k + |r|..])
  }

  /** String.prototype.trim: `s` with its leading and trailing white space
      removed, and nothing else. */
  function Trim(s: string): (r: string)
    ensures |r| <= |s|
    ensures exists k :: BlankFramed(s, r, k)
    ensures r == [] || (!IsWhiteSpace(r[0]) && !IsWhiteSpace(r[|r| - 1]))
  {
    var t := TrimStart(s);
    var r := TrimEnd(t);
    FramedByBlanks(s, t, r);
    r
  }

  /** Cutting a blank prefix off `s`, giving `t`, and then a blank suffix off
      `t`, giving `r`, leaves `r` framed by blanks in `s`. */
  lemma FramedByBlanks(s: string, t: string, r: string)
    requires |t| <= |s| && t == s[|s| - |t|..] && IsBlank(s[..|s| - |t|])
    requires |r| <= |t| && r == t[..|r|] && IsBlank(t[|r|..])
    ensures BlankFramed(s, r, |s| - |t|)
  {
    var k := |s| - |t|;
    assert r == s[k..k + |r|];
    assert t[|r|..] == s[k + |r|..];
  }

  /** `s.trim()` is the empty string exactly when `s` is blank. */
  lemma TrimEmptyIffBlank(s: string)
    ensures Trim(s) == [] <==> IsBlank(s)
  {
    var t := TrimStart(s);
    var k := |s| - |t|;
    assert s[k..] == t;
    if t == [] {
      assert s[..k] == s;
      assert TrimEnd(t) == [];
    } else {
      TrimEndKeepsFirst(t);
      assert !IsWhiteSpace(s[k]);
    }
  }

  /** Trimming the end of a string that starts with a character other than
      white space leaves that character. */
  lemma TrimEndKeepsFirst(t: string)
    requires t != [] && !IsWhiteSpace(t[0])
    ensures TrimEnd(t) != []
  {
  }
}
