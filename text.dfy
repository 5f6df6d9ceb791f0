/** Whitespace and `String.prototype.trim`, as the browser defines them for the client. */
module Text {

  /** The characters `trim` removes, which are also exactly the characters the regular-expression
      class `\s` matches (so `\S` is their complement): the WhiteSpace and LineTerminator code
      points of ECMAScript, the Unicode space separators included. */
  predicate IsWhitespace(c: char) {
    || c == '\t' || c == '\n' || c == '\U{B}' || c == '\U{C}' || c == '\r' || c == ' '
    || c == '\U{A0}' || c == '\U{1680}' || ('\U{2000}' <= c <= '\U{200A}')
    || c == '\U{2028}' || c == '\U{2029}' || c == '\U{202F}' || c == '\U{205F}'
    || c == '\U{3000}' || c == '\U{FEFF}'
  }

  /** Every character of `s` is whitespace; the empty string is blank. This is the test
      `!s.trim()` the client makes before sending anything (see TrimEmptyIffBlank). */
  predicate Blank(s: string) {
    s == [] || (IsWhitespace(s[0]) && Blank(s[1..]))
  }

  /** A string is blank exactly when each of its characters is whitespace. */
  lemma {:induction false} BlankAt(s: string, i: int)
    requires Blank(s) && 0 <= i < |s|
    ensures IsWhitespace(s[i])
  {
    if i > 0 {
      BlankAt(s[1..], i - 1);
    }
  }

  /** A string with a non-whitespace character is not blank. */
  lemma NotBlankAt(s: string, i: int)
    requires 0 <= i < |s| && !IsWhitespace(s[i])
    ensures !Blank(s)
  {
    if Blank(s) {
      BlankAt(s, i);
    }
  }

  /** Blankness read from the end: the last character and everything before it. */
  lemma {:induction false} BlankFromEnd(s: string)
    requires s != []
    ensures Blank(s) <==> IsWhitespace(s[|s| - 1]) && Blank(s[..|s| - 1])
  {
    if |s| > 1 {
      BlankFromEnd(s[1..]);
      assert s[1..][..|s| - 2] == s[..|s| - 1][1..];
    }
  }

  /** A blank prefix of `s[1..]` after a whitespace `s[0]` makes a blank prefix of `s`. */
  lemma BlankPrefixStep(s: string, k: nat)
    requires k < |s| && IsWhitespace(s[0]) && Blank(s[1..][..k])
    ensures Blank(s[..k + 1])
  {
    assert s[..k + 1][1..] == s[1..][..k];
  }

  /** Drops the leading whitespace: the result is a suffix of `s` that starts with a
      non-whitespace character, and it is empty exactly when `s` is blank. */
  function TrimStart(s: string): (r: string)
    ensures |r| <= |s| && r == s[|s| - |r|..]
    ensures r == [] || !IsWhitespace(r[0])
    ensures r == [] <==> Blank(s)
  {
    if s != [] && IsWhitespace(s[0]) then
      TrimStart(s[1..])
    else s
  }

  /** Drops the trailing whitespace: the result is a prefix of `s` that ends with a
      non-whitespace character, and it is empty exactly when `s` is blank. */
  function TrimEnd(s: string): (r: string)
    ensures |r| <= |s| && r == s[..|r|]
    ensures r == [] || !IsWhitespace(r[|r| - 1])
    ensures r == [] <==> Blank(s)
  {
    if s == [] then s
    else
      BlankFromEnd(s);
      if IsWhitespace(s[|s| - 1]) then
        TrimEnd(s[..|s| - 1])
      else s
  }

  /** What `TrimStart` drops is blank. */
  lemma {:induction false} TrimStartDropsBlank(s: string)
    ensures Blank(s[..|s| - |TrimStart(s)|])
  {
    if s != [] && IsWhitespace(s[0]) {
      TrimStartDropsBlank(s[1..]);
      BlankPrefixStep(s, |s| - 1 - |TrimStart(s[1..])|);
    } else {
      assert s[..0] == [];
    }
  }

  /** What `TrimEnd` drops is blank. */
  lemma {:induction false} TrimEndDropsBlank(s: string)
    ensures Blank(s[|TrimEnd(s)|..])
  {
    if s != [] {
      BlankFromEnd(s);
      if IsWhitespace(s[|s| - 1]) {
        var n := |TrimEnd(s[..|s| - 1])|;
        TrimEndDropsBlank(s[..|s| - 1]);
        BlankFromEnd(s[n..]);
        assert s[n..][..|s| - 1 - n] == s[..|s| - 1][n..];
      }
    }
  }

  /** JavaScript's `s.trim()`: `TrimStart` then `TrimEnd`, so by `TrimStartDropsBlank` and
      `TrimEndDropsBlank` only a blank prefix and a blank suffix are removed. The model decides
      blankness with `Blank`, which `TrimEmptyIffBlank` ties to this function. */
  function Trim(s: string): (r: string)
    ensures |r| <= |s|
    ensures r == [] || (!IsWhitespace(r[0]) && !IsWhitespace(r[|r| - 1]))
  {
    TrimEnd(TrimStart(s))
  }

  /** `!s.trim()` holds, that is the trimmed string is empty, exactly when `s` is blank. */
  lemma TrimEmptyIffBlank(s: string)
    ensures Trim(s) == "" <==> Blank(s)
  {
  }
}
