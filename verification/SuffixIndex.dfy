/**
 * The blocklist lookup of the DNS policy engine. The code looks a query up by
 * the list of its own suffixes; the specification is a scan over the list for a
 * name the query equals or lies under.
 */
module SuffixIndex {
  import opened Text

  /** The specification: the query is the listed name or lies under it, and the name has a dot. */
  predicate Under(query: string, name: string) {
    '.' in name && (query == name || EndsWith(query, "." + name))
  }

  /** The suffixes the lookup asks for, longest first. */
  function Candidates(query: string): seq<string> {
    var parts := Split(query);
    seq(|parts| - 1, i requires 0 <= i < |parts| => Join(parts[i..]))
  }

  /** The loop of the lookup: one pass over the labels, pushing each rejoined suffix. */
  method BuildCandidates(query: string) returns (candidates: seq<string>)
    ensures candidates == Candidates(query)
    ensures forall name :: name in candidates <==> Under(query, name)
  {
    var parts := Split(query);
    candidates := [];
    for i := 0 to |parts| - 1
      invariant candidates == Candidates(query)[..i]
    {
      candidates := candidates + [Join(parts[i..])];
    }
    forall name {
      CandidatesAreTheNamesAbove(query, name);
    }
  }

  lemma CandidatesUnfold(query: string)
    ensures Candidates(query)
         == if '.' in query then [query] + Candidates(query[FirstDot(query) + 1..]) else []
  {
    var k := FirstDot(query);
    if k < |query| {
      var rest := query[k + 1..];
      assert Split(query)[0..] == Split(query);
      JoinSplit(query);
      forall i | 1 <= i < |Split(query)| - 1
        ensures Candidates(query)[i] == Candidates(rest)[i - 1]
      {
        assert Split(query)[i..] == Split(rest)[i - 1..];
      }
    }
  }

  /** `endsWith('.' + name)`: a dot just before an occurrence of the name at the end. */
  lemma EndsWithDot(query: string, name: string)
    ensures EndsWith(query, "." + name)
       <==> |name| < |query| && query[|query| - |name| - 1] == '.' && query[|query| - |name|..] == name
  {
    if |name| < |query| {
      var tail := query[|query| - |name| - 1..];
      assert tail == [tail[0]] + query[|query| - |name|..];
      assert ("." + name)[1..] == name && tail[1..] == query[|query| - |name|..];
    }
  }

  /** Being under a name, one label at a time. */
  lemma UnderUnfold(query: string, name: string)
    ensures Under(query, name)
       <==> '.' in query && '.' in name && (query == name || Under(query[FirstDot(query) + 1..], name))
  {
    EndsWithDot(query, name);
    if '.' in query {
      var k := FirstDot(query);
      var rest := query[k + 1..];
      EndsWithDot(rest, name);
      if |name| <= |rest| {
        assert rest[|rest| - |name|..] == query[|query| - |name|..];
      }
    }
  }

  /** The suffix index agrees with the scan, in both directions, for every query and name. */
  lemma {:induction false} CandidatesAreTheNamesAbove(query: string, name: string)
    ensures name in Candidates(query) <==> Under(query, name)
    decreases |query|
  {
    CandidatesUnfold(query);
    UnderUnfold(query, name);
    if '.' in query {
      CandidatesAreTheNamesAbove(query[FirstDot(query) + 1..], name);
    }
  }

  /** A list that matches a name matches everything below it: `x.q` is under whatever `q` is under. */
  lemma UnderIsClosedUnderSubdomains(sub: string, query: string, name: string)
    requires Under(query, name)
    ensures Under(sub + "." + query, name)
  {
    var q := sub + "." + query;
    if query == name {
      assert q[|q| - |name| - 1..] == "." + name;
    } else {
      assert q[|q| - |name| - 1..] == query[|query| - |name| - 1..];
    }
  }

  const STRICT_MODE_DOH_DOMAINS: seq<string> := [
    "dns.google", "dns.google.com", "cloudflare-dns.com", "one.one.one.one", "doh.opendns.com",
    "dns.quad9.net", "doh.cleanbrowsing.org", "nextdns.io", "dns.nextdns.io", "doh.dns.sb",
    "dns.adguard.com", "dns.adguard-dns.com", "mozilla.cloudflare-dns.com", "chrome.cloudflare-dns.com"
  ]

  /** The strict-mode test, written in the code as a scan with `endsWith`. */
  predicate IsStrictDohDomain(names: seq<string>, domain: string) {
    exists d :: d in names && (Normalise(domain) == d || EndsWith(Normalise(domain), "." + d))
  }

  predicate Dotted(names: seq<string>) {
    forall d | d in names :: '.' in d
  }

  /** The two matchers of the file are one: the strict scan hits exactly when the suffix index would. */
  lemma StrictScanIsTheSuffixIndex(names: seq<string>, domain: string)
    requires Dotted(names)
    ensures IsStrictDohDomain(names, domain)
       <==> exists d :: d in names && d in Candidates(Normalise(domain))
  {
    forall d | d in names
      ensures Under(Normalise(domain), d) <==> d in Candidates(Normalise(domain))
    {
      CandidatesAreTheNamesAbove(Normalise(domain), d);
    }
  }

  /** The hard-coded list meets the one condition that agreement needs. */
  lemma StrictNamesAreDotted()
    ensures Dotted(STRICT_MODE_DOH_DOMAINS)
  {
    assert forall j | 0 <= j < |STRICT_MODE_DOH_DOMAINS| ::
        var n := STRICT_MODE_DOH_DOMAINS[j];
        n[3] == '.' || n[6] == '.' || (|n| > 7 && n[7] == '.') || (|n| > 14 && n[14] == '.');
  }
}
