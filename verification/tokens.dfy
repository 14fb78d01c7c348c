/**
 * The two string tests the handler applies to a retrieved token before it
 * considers introspecting it: `IsMissing` (IdentityModel's extension, which is
 * `string.IsNullOrWhiteSpace`) and `Contains('.')`.
 */
module Tokens {
  import opened Wrappers

  /** The character that separates the segments of a structured (JWT-style) token. */
  const Dot: char := '.'

  /** .NET `char.IsWhiteSpace`: the Unicode space, line and paragraph
      separators plus the control characters U+0009..U+000D and U+0085. */
  predicate IsWhiteSpace(c: char) {
    || ('\U{0009}' <= c <= '\U{000D}')
    || c == '\U{0020}'
    || c == '\U{0085}'
    || c == '\U{00A0}'
    || c == '\U{1680}'
    || ('\U{2000}' <= c <= '\U{200A}')
    || c == '\U{2028}'
    || c == '\U{2029}'
    || c == '\U{202F}'
    || c == '\U{205F}'
    || c == '\U{3000}'
  }

  /** Scans `s` from the front for a character that is not white space. */
  function AllWhiteSpace(s: string): (r: bool)
    ensures r <==> forall i :: 0 <= i < |s| ==> IsWhiteSpace(s[i])
  {
    if s == [] then true
    else IsWhiteSpace(s[0]) && AllWhiteSpace(s[1..])
  }

  /** `string.IsNullOrWhiteSpace`: null, empty, or nothing but white space. */
  function IsMissing(token: Option<string>): (r: bool)
    ensures r <==> token.None? || forall i :: 0 <= i < |token.value| ==> IsWhiteSpace(token.value[i])
  {
    match token
    case None => true
    case Some(s) => AllWhiteSpace(s)
  }

  /** The first position of `c` in `s`, or -1. */
  function IndexOf(s: string, c: char): (r: int)
    ensures -1 <= r < |s|
    ensures r == -1 <==> c !in s
    ensures r >= 0 ==> s[r] == c && forall j :: 0 <= j < r ==> s[j] != c
  {
    if s == [] then -1
    else if s[0] == c then 0
    else
      var k := IndexOf(s[1..], c);
      if k == -1 then -1
      else
        k + 1
  }

  /** `token.Contains('.')`: whether `c` occurs in `s`. */
  function Contains(s: string, c: char): (r: bool)
    ensures r <==> c in s
  {
    IndexOf(s, c) != -1
  }

  /** A missing token is exactly a null one or one made of white space only;
      in particular the empty string is missing and any token holding a
      visible character such as the dot is not. */
  lemma MissingIffBlank(token: Option<string>)
    ensures IsMissing(token) <==>
              (token.None? || forall i :: 0 <= i < |token.value| ==> IsWhiteSpace(token.value[i]))
    ensures token.Some? && Dot in token.value ==> !IsMissing(token)
  {
  }
}
