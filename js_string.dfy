/** `String.prototype.trim` as the store form uses it: strip the longest prefix
    and the longest suffix made of ECMAScript white space and line terminators. */
module JsString {

  /** The WhiteSpace and LineTerminator code points of ECMAScript: tab, vertical
      tab, form feed, the byte order mark, every Zs space separator, line feed,
      carriage return, and the line and paragraph separators. */
  predicate IsWhiteSpace(c: char) {
    c == '\t' || c == '\n' || c == '\U{000B}' || c == '\U{000C}' || c == '\r' || c == ' '
    || c == '\U{00A0}' || c == '\U{1680}' || ('\U{2000}' <= c <= '\U{200A}')
    || c == '\U{2028}' || c == '\U{2029}' || c == '\U{202F}' || c == '\U{205F}'
    || c == '\U{3000}' || c == '\U{FEFF}'
  }

  /** The length of the longest prefix of `s` made of white space. */
  function LeadingWhiteSpace(s: string): (n: nat)
    ensures n <= |s|
    ensures forall i :: 0 <= i < n ==> IsWhiteSpace(s[i])
    ensures n < |s| ==> !IsWhiteSpace(s[n])
  {
    if |s| > 0 && IsWhiteSpace(s[0]) then 1 + LeadingWhiteSpace(s[1..]) else 0
  }

  /** The length of the longest suffix of `s` made of white space. */
  function TrailingWhiteSpace(s: string): (n: nat)
    ensures n <= |s|
    ensures forall i :: |s| - n <= i < |s| ==> IsWhiteSpace(s[i])
    ensures n < |s| ==> !IsWhiteSpace(s[|s| - n - 1])
  {
    if |s| > 0 && IsWhiteSpace(s[|s| - 1]) then 1 + TrailingWhiteSpace(s[..|s| - 1]) else 0
  }

  /** `s.trim()`: what lies between the leading and the trailing white space. */
  function Trim(s: string): (r: string)
    ensures |r| <= |s|
    ensures r == [] || (!IsWhiteSpace(r[0]) && !IsWhiteSpace(r[|r| - 1]))
  {
    var t := s[LeadingWhiteSpace(s)..];
    t[..|t| - TrailingWhiteSpace(t)]
  }

  /** `!s.trim()`: the trimmed string is empty exactly when every character of `s`
      is white space. */
  lemma BlankIff(s: string)
    ensures Trim(s) == "" <==> forall i :: 0 <= i < |s| ==> IsWhiteSpace(s[i])
  {
  }

  /** Trimming keeps the characters between the first and the last character that
      is not white space, so it never lengthens a string and leaves a string with
      no white space at either end as it is. */
  lemma TrimKeepsInner(s: string)
    ensures |Trim(s)| <= |s|
    ensures |s| > 0 && !IsWhiteSpace(s[0]) && !IsWhiteSpace(s[|s| - 1]) ==> Trim(s) == s
  {
  }
}
