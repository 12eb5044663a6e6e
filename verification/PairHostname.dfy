/** The pairing probe's hostname: printing a token as a name and reading it back from a DNS query. */
module PairHostname {
  import opened Common
  import opened Text

  predicate HexDigit(c: char) { '0' <= c <= '9' || 'a' <= c <= 'f' }

  predicate HyphenAt(i: nat) { i == 8 || i == 13 || i == 18 || i == 23 }

  /** The lower-case text form of a UUID: 8-4-4-4-12 hexadecimal digits (section 4 of RFC 9562). */
  predicate IsUuid(t: string) {
    && |t| == 36
    && forall i | 0 <= i < 36 :: if HyphenAt(i) then t[i] == '-' else HexDigit(t[i])
  }

  /** Configured zone names: lower-case letters, digits, hyphens and dots. */
  predicate IsSuffix(s: string) {
    forall i | 0 <= i < |s| :: 'a' <= s[i] <= 'z' || '0' <= s[i] <= '9' || s[i] == '-' || s[i] == '.'
  }

  function PairHostnameFor(token: string, suffix: string): string { token + "." + suffix }

  /** The pattern, anchored at both ends: a UUID, a dot, the suffix. */
  predicate MatchesPattern(name: string, suffix: string) {
    && |name| == 37 + |suffix|
    && IsUuid(name[..36]) && name[36] == '.' && name[37..] == suffix
  }

  function ExtractPairToken(domain: string, suffix: string): Option<string> {
    var lower := Normalise(domain);
    if MatchesPattern(lower, suffix) then Some(lower[..36]) else None
  }

  lemma LowerSuffix(s: string)
    requires IsSuffix(s)
    ensures ToLower(s) == s
  {
  }

  /** A name that lower-cases to the printed hostname reads back as the token, if the suffix ends in something other than a dot. */
  lemma RoundTrip(token: string, suffix: string, spelled: string)
    requires IsUuid(ToLower(token)) && IsSuffix(suffix)
    requires ToLower(spelled) == ToLower(PairHostnameFor(token, suffix))
    ensures ExtractPairToken(spelled + ".", suffix) == Some(ToLower(token))
    ensures ExtractPairToken(spelled, suffix) == Some(ToLower(token)) <==> suffix != "" && suffix[|suffix| - 1] != '.'
  {
    var low := ToLower(token);
    var name := low + "." + suffix;
    LowerSuffix(suffix);
    assert ToLower(PairHostnameFor(token, suffix)) == name;
    assert ToLower(spelled + ".") == name + ".";
    assert Normalise(spelled + ".") == name;
    assert name[..36] == low && name[36] == '.' && name[37..] == suffix;
    assert name[|name| - 1] == if suffix == "" then '.' else suffix[|suffix| - 1];
  }

  /** Conversely, whatever reads back as a token is, after normalising, exactly that token's hostname. */
  lemma OnlyHostnamesParse(domain: string, suffix: string, token: string)
    ensures ExtractPairToken(domain, suffix) == Some(token)
       <==> IsUuid(token) && Normalise(domain) == PairHostnameFor(token, suffix)
  {
    var lower := Normalise(domain);
    if MatchesPattern(lower, suffix) {
      assert lower == lower[..36] + "." + lower[37..];
    }
    if IsUuid(token) && lower == PairHostnameFor(token, suffix) {
      assert lower[..36] == token && lower[37..] == suffix;
    }
  }

  /** The default zone meets the round trip's condition. */
  lemma DefaultSuffixWorks()
    ensures var s := "pair.guardtime.local"; IsSuffix(s) && s[|s| - 1] != '.'
  {
  }
}
