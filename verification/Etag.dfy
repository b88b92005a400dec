/**
 * Strong numeric entity tags, in the syntax of section 8.8.3 of RFC 9110: how a version is written
 * into If-Match and read back from a response.
 */
module Etag {
  import opened Options

  const MAX_SAFE_INTEGER: nat := 9007199254740991

  predicate IsDigit(c: char) {
    '0' <= c <= '9'
  }

  predicate AllDigits(s: string) {
    forall i | 0 <= i < |s| :: IsDigit(s[i])
  }

  function Value(s: string): nat
    requires AllDigits(s)
  {
    if s == "" then 0 else 10 * Value(s[..|s| - 1]) + (s[|s| - 1] as int - '0' as int)
  }

  function Digits(n: nat): string
    decreases n
  {
    var last := ['0' + (n % 10) as char];
    if n < 10 then last else Digits(n / 10) + last
  }

  function FormatEtag(version: nat): string {
    "\"" + Digits(version) + "\""
  }

  /** A pair of quotes around at least one digit, and nothing else. */
  predicate IsStrongNumeric(s: string) {
    |s| >= 3 && s[0] == '"' && s[|s| - 1] == '"' && AllDigits(s[1..|s| - 1])
  }

  function StrongNumericEtag(s: string): Option<nat> {
    if !IsStrongNumeric(s) then None
    else
      var version := Value(s[1..|s| - 1]);
      if version <= MAX_SAFE_INTEGER then Some(version) else None
  }

  lemma {:induction false} DigitsValue(n: nat)
    ensures |Digits(n)| >= 1 && AllDigits(Digits(n)) && Value(Digits(n)) == n
    decreases n
  {
    var last := ['0' + (n % 10) as char];
    if n < 10 {
      assert Digits(n)[..0] == "";
    } else {
      DigitsValue(n / 10);
      assert Digits(n)[..|Digits(n)| - 1] == Digits(n / 10);
    }
  }

  /** A written version is read back exactly when it is a safe integer; otherwise it reads as absent. */
  lemma EtagRoundTrip(version: nat)
    ensures StrongNumericEtag(FormatEtag(version)) == Some(version) <==> version <= MAX_SAFE_INTEGER
    ensures StrongNumericEtag(FormatEtag(version)) == None <==> version > MAX_SAFE_INTEGER
  {
    DigitsValue(version);
    var s := FormatEtag(version);
    assert s[1..|s| - 1] == Digits(version);
  }

  /** Weak, unquoted and empty tags are never taken for a version. */
  lemma OnlyStrongTagsAreRead(s: string)
    ensures StrongNumericEtag(s).Some? ==> |s| >= 3 && s[0] == '"' == s[|s| - 1]
    ensures StrongNumericEtag("W/" + s).None?
    ensures StrongNumericEtag("\"\"").None?
  {
    assert ("W/" + s)[0] == 'W';
  }
}
