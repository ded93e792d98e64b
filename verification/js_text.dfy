/** The two JavaScript string operations the component relies on:
    `String.prototype.trim` and `split(' ')[0]`. */
module JsText {

  /** The WhiteSpace and LineTerminator code points of ECMAScript
      (sections 12.2 and 12.3 of ECMA-262), which `trim` removes. */
  predicate IsWhitespace(c: char) {
    || c == '\t' || c == '\U{000B}' || c == '\U{000C}' || c == ' '
    || c == '\U{00A0}' || c == '\U{FEFF}' || c == '\U{1680}'
    || ('\U{2000}' <= c <= '\U{200A}')
    || c == '\U{202F}' || c == '\U{205F}' || c == '\U{3000}'
    || c == '\n' || c == '\r' || c == '\U{2028}' || c == '\U{2029}'
  }

  /** Every character of `s` is whitespace (the empty string included). */
  predicate IsBlank(s: string) {
    forall i :: 0 <= i < |s| ==> IsWhitespace(s[i])
  }

  /** Length of the whitespace run at the start of `s`. */
  function LeadingBlank(s: string): (k: nat)
    ensures k <= |s|
    ensures forall i :: 0 <= i < k ==> IsWhitespace(s[i])
    ensures k < |s| ==> !IsWhitespace(s[k])
  {
    if |s| == 0 || !IsWhitespace(s[0]) then 0 else 1 + LeadingBlank(s[1..])
  }

  /** Index where the whitespace run at the end of `s` begins. */
  function TrailingBlank(s: string): (k: nat)
    ensures k <= |s|
    ensures forall i :: k <= i < |s| ==> IsWhitespace(s[i])
    ensures 0 < k ==> !IsWhitespace(s[k - 1])
  {
    if |s| == 0 || !IsWhitespace(s[|s| - 1]) then |s| else TrailingBlank(s[..|s| - 1])
  }

  /** `s.trim()`: `s` without its leading and trailing whitespace. */
  function Trim(s: string): (r: string)
    ensures |r| <= |s|
    ensures r == [] <==> IsBlank(s)
    ensures r != [] ==> !IsWhitespace(r[0]) && !IsWhitespace(r[|r| - 1])
    ensures exists a, b :: 0 <= a <= b <= |s| && r == s[a..b] && IsBlank(s[..a]) && IsBlank(s[b..])
  {
    var a := LeadingBlank(s);
    var rest := s[a..];
    var b := a + TrailingBlank(rest);
    assert rest[..TrailingBlank(rest)] == s[a..b];
    assert IsBlank(s[..a]);
    assert IsBlank(s[b..]) by {
      forall i | 0 <= i < |s| - b
        ensures IsWhitespace(s[b..][i])
      {
        assert s[b..][i] == rest[TrailingBlank(rest) + i];
      }
    }
    rest[..TrailingBlank(rest)]
  }

  /** `s.split(' ')[0]`: the text before the first space, or all of `s`
      when it has no space. */
  function BeforeFirstSpace(s: string): (r: string)
    ensures r <= s
    ensures ' ' !in r
    ensures |r| < |s| ==> s[|r|] == ' '
  {
    if |s| == 0 || s[0] == ' ' then [] else [s[0]] + BeforeFirstSpace(s[1..])
  }

  /** Splitting a "<date> <time>" stamp gives back the date, provided the
      date holds no space. */
  lemma {:induction false} BeforeFirstSpaceOfStamp(date: string, time: string)
    requires ' ' !in date
    ensures BeforeFirstSpace(date + " " + time) == date
  {
    var s := date + " " + time;
    if date != [] {
      assert s[0] == date[0] && s[1..] == date[1..] + " " + time;
      BeforeFirstSpaceOfStamp(date[1..], time);
      assert date == [date[0]] + date[1..];
    }
  }
}
