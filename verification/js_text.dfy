/** String primitives of the JavaScript runtime that the components rely on:
    `String.prototype.trim`, the `.length` of a string (UTF-16 code units)
    and the truthiness of a string. */
module JsText {

  /** The characters `trim` removes: the ECMAScript WhiteSpace and
      LineTerminator code points (TAB, VT, FF, SP, NBSP, ZWNBSP, the
      Unicode space separators, LF, CR, LS and PS). */
  predicate IsJsWhitespace(c: char)
  {
    || c == '\t' || c == '\n' || c == '\U{000B}' || c == '\U{000C}' || c == '\r'
    || c == ' ' || c == '\U{00A0}' || c == '\U{1680}'
    || ('\U{2000}' <= c <= '\U{200A}')
    || c == '\U{2028}' || c == '\U{2029}' || c == '\U{202F}' || c == '\U{205F}'
    || c == '\U{3000}' || c == '\U{FEFF}'
  }

  /** Every character of `s` is whitespace (the empty string included). */
  predicate Blank(s: string)
  {
    forall i | 0 <= i < |s| :: IsJsWhitespace(s[i])
  }

  /** A string is truthy in JavaScript exactly when it is not empty. */
  predicate Truthy(s: string)
  {
    s != ""
  }

  /** A whitespace character in front of a blank string leaves it blank. */
  lemma BlankCons(c: char, t: string)
    requires IsJsWhitespace(c) && Blank(t)
    ensures Blank([c] + t)
  {
    assert forall i | 1 <= i < |t| + 1 :: ([c] + t)[i] == t[i - 1];
  }

  /** `trimStart`: drops the longest whitespace prefix. */
  function TrimStart(s: string): (r: string)
    ensures |r| <= |s| && r == s[|s| - |r|..]
    ensures Blank(s[..|s| - |r|])
    ensures |r| > 0 ==> !IsJsWhitespace(r[0])
    decreases |s|
  {
    if |s| > 0 && IsJsWhitespace(s[0]) then
      var r := TrimStart(s[1..]);
      BlankCons(s[0], s[1..][..|s| - 1 - |r|]);
      assert s[..|s| - |r|] == [s[0]] + s[1..][..|s| - 1 - |r|];
      r
    else
      s
  }

  /** `trimEnd`: drops the longest whitespace suffix. */
  function TrimEnd(s: string): (r: string)
    ensures |r| <= |s| && r == s[..|r|]
    ensures Blank(s[|r|..])
    ensures |r| > 0 ==> !IsJsWhitespace(r[|r| - 1])
    decreases |s|
  {
    if |s| > 0 && IsJsWhitespace(s[|s| - 1]) then
      var r := TrimEnd(s[..|s| - 1]);
      assert s[|r|..] == s[..|s| - 1][|r|..] + [s[|s| - 1]];
      r
    else
      s
  }

  /** `String.prototype.trim`: removes the whitespace at both ends, so the
      result starts and ends with a non-whitespace character unless it is
      empty. */
  function Trim(s: string): (r: string)
    ensures |r| <= |s|
    ensures |r| > 0 ==> !IsJsWhitespace(r[0]) && !IsJsWhitespace(r[|r| - 1])
  {
    TrimEnd(TrimStart(s))
  }

  /** The trimmed string is empty exactly when the string is blank. */
  lemma TrimEmptyIffBlank(s: string)
    ensures Trim(s) == "" <==> Blank(s)
  {
    if !Blank(s) {
      var i :| 0 <= i < |s| && !IsJsWhitespace(s[i]);
      NonBlankSurvivesTrim(s, i);
    }
  }

  /** A non-whitespace character survives trimming. */
  lemma NonBlankSurvivesTrim(s: string, i: nat)
    requires i < |s| && !IsJsWhitespace(s[i])
    ensures Trim(s) != ""
  {
    var a := TrimStart(s);
    var k := |s| - |a|;
    assert i >= k;
    var j := i - k;
    assert a[j] == s[i];
    var r := TrimEnd(a);
    assert j < |r|;
  }

  /** The number of UTF-16 code units of one character: two for a
      character outside the Basic Multilingual Plane, one otherwise. */
  function CodeUnits(c: char): nat
  {
    if c as int > 0xFFFF then 2 else 1
  }

  /** The JavaScript `.length` of a string, counted in UTF-16 code units. */
  function Utf16Length(s: string): (n: nat)
    ensures |s| <= n <= 2 * |s|
    ensures n == 0 <==> s == ""
  {
    if s == "" then 0 else CodeUnits(s[0]) + Utf16Length(s[1..])
  }

  /** The JavaScript length equals the character count exactly when no
      character needs a surrogate pair. */
  lemma {:induction false} Utf16LengthIsCountIffBmp(s: string)
    ensures Utf16Length(s) == |s| <==> forall i | 0 <= i < |s| :: s[i] as int <= 0xFFFF
  {
    if s != "" {
      Utf16LengthIsCountIffBmp(s[1..]);
      assert forall i | 1 <= i < |s| :: s[1..][i - 1] == s[i];
    }
  }
}
