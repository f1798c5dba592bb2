/** The image URL pattern `/^https?:\/\/.+/` of the product form, read as an ECMAScript
    regular expression (ECMA-262 section 22.2) with no flags, and a direct check that
    decides it. */
module HttpUrl {

  /** The LineTerminator characters of ECMA-262 section 12.3; without the `s` flag the
      pattern atom `.` matches every character except these. */
  predicate IsLineTerminator(c: char)
  {
    c == '\n' || c == '\r' || c == '\U{2028}' || c == '\U{2029}'
  }

  /** "http://" + body when `secure` is false, "https://" + body when it is true:
      the alternatives of `https?://` followed by what `.+` consumed. */
  function Candidate(secure: bool, body: string): string
  {
    (if secure then "https" else "http") + "://" + body
  }

  /** The language of `https?://.+`: the scheme, then one or more non-line-terminators. */
  ghost predicate InPatternLanguage(m: string)
  {
    exists secure: bool, body: string ::
      m == Candidate(secure, body) &&
      |body| >= 1 &&
      forall i :: 0 <= i < |body| ==> !IsLineTerminator(body[i])
  }

  /** `RegExp.prototype.test` for the pattern: with `^` and no `m` flag a match can only
      start at index 0, and nothing anchors its end, so the pattern matches `s` iff some
      prefix of `s` is in the language. */
  ghost predicate PatternMatches(s: string)
  {
    exists n :: 0 <= n <= |s| && InPatternLanguage(s[..n])
  }

  /** The check the model runs: a scheme prefix and one more character that is not a
      line terminator. */
  predicate HasHttpUrlPrefix(s: string)
  {
    (|s| > 7 && s[..7] == "http://" && !IsLineTerminator(s[7])) ||
    (|s| > 8 && s[..8] == "https://" && !IsLineTerminator(s[8]))
  }

  /** The direct check decides the regular expression, in both directions. */
  lemma HttpUrlPrefixDecidesPattern(s: string)
    ensures HasHttpUrlPrefix(s) <==> PatternMatches(s)
  {
    if HasHttpUrlPrefix(s) {
      PrefixGivesMatch(s);
    }
    if PatternMatches(s) {
      MatchGivesPrefix(s);
    }
  }

  /** The one-character match that the direct check found. */
  lemma PrefixGivesMatch(s: string)
    requires HasHttpUrlPrefix(s)
    ensures PatternMatches(s)
  {
    var secure := !(|s| > 7 && s[..7] == "http://" && !IsLineTerminator(s[7]));
    var k := if secure then 8 else 7;
    var body := [s[k]];
    var scheme := if secure then "https://" else "http://";
    assert s[..k] == scheme;
    assert s[..k + 1] == s[..k] + body;
    assert Candidate(secure, body) == scheme + body;
    assert InPatternLanguage(s[..k + 1]);
  }

  /** Any match starts with the scheme and one non-line-terminator. */
  lemma MatchGivesPrefix(s: string)
    requires PatternMatches(s)
    ensures HasHttpUrlPrefix(s)
  {
    var n :| 0 <= n <= |s| && InPatternLanguage(s[..n]);
    var m := s[..n];
    var secure: bool, body: string :|
      m == Candidate(secure, body) && |body| >= 1 &&
      forall i :: 0 <= i < |body| ==> !IsLineTerminator(body[i]);
    var k := if secure then 8 else 7;
    var scheme := if secure then "https://" else "http://";
    assert m == scheme + body;
    assert s[..k] == m[..k] == scheme;
    assert s[k] == m[k] == body[0];
  }

  /** A rejected value: "notaurl" has no prefix in the language. */
  lemma NotAUrlRejected()
    ensures !PatternMatches("notaurl")
  {
    HttpUrlPrefixDecidesPattern("notaurl");
  }
}
