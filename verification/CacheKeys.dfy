/** The text keys of the shared cache: decisions, versions, device ids and heartbeats live in one key space. */
module CacheKeys {
  /** How long decisions and version counters last, in milliseconds. */
  const DECISION_TTL: nat := 30000
  const VERSION_TTL: nat := 24 * 60 * 60 * 1000

  function Digit(n: nat): char requires n < 10 { '0' + n as char }

  /** A number as template literals print it. */
  function Decimal(n: nat): (s: string)
    ensures s != "" && forall i | 0 <= i < |s| :: '0' <= s[i] <= '9'
  {
    if n < 10 then [Digit(n)] else Decimal(n / 10) + [Digit(n % 10)]
  }

  function CacheKey(ip: string, version: nat, domain: string): string {
    "dns:" + ip + ":" + Decimal(version) + ":" + domain
  }

  function VersionKey(ip: string): string { "dnsver:" + ip }
  function DeviceIdKey(ip: string): string { "dnsdev:" + ip }
  function HeartbeatKey(deviceId: string): string { "dnshb:" + deviceId }

  lemma {:induction false} DecimalInjective(m: nat, n: nat)
    requires Decimal(m) == Decimal(n)
    ensures m == n
  {
    if m < 10 && n < 10 {
      assert Decimal(m)[0] == Decimal(n)[0];
    } else if m < 10 || n < 10 {
      assert false;
    } else {
      var a, b := Decimal(m / 10), Decimal(n / 10);
      assert Decimal(m)[|a|] == Digit(m % 10) && Decimal(n)[|b|] == Digit(n % 10);
      assert Decimal(m)[..|a|] == a && Decimal(n)[..|b|] == b;
      DecimalInjective(m / 10, n / 10);
    }
  }

  /** The last colon of a text fixes where it splits. */
  lemma SplitAtLastColon(a: string, b: string, c: string, d: string)
    requires a + ":" + b == c + ":" + d
    requires ':' !in b && ':' !in d
    ensures a == c && b == d
  {
    var s := a + ":" + b;
    assert s[|a|] == ':' && s[|c|] == ':';
    assert forall i | |a| < i < |s| :: s[i] == b[i - |a| - 1];
    assert forall i | |c| < i < |s| :: s[i] == d[i - |c| - 1];
    assert s[..|a|] == a && s[..|c|] == c && s[|a| + 1..] == b && s[|c| + 1..] == d;
  }

  /** Decision keys are injective for every source IP, IPv6 included, as long as the domains hold no colon. */
  lemma CacheKeyInjective(ip: string, v: nat, domain: string, ip': string, v': nat, domain': string)
    requires ':' !in domain && ':' !in domain'
    requires CacheKey(ip, v, domain) == CacheKey(ip', v', domain')
    ensures ip == ip' && v == v' && domain == domain'
  {
    SplitAtLastColon("dns:" + ip + ":" + Decimal(v), domain, "dns:" + ip' + ":" + Decimal(v'), domain');
    SplitAtLastColon("dns:" + ip, Decimal(v), "dns:" + ip', Decimal(v'));
    DecimalInjective(v, v');
    assert ("dns:" + ip)[4..] == ip && ("dns:" + ip')[4..] == ip';
  }

  /** With a colon in a domain two different checks can share a key. */
  lemma ColonsBreakInjectivity()
    ensures CacheKey("1", 2, "0:x") == CacheKey("1:2", 0, "x")
  {
    assert Decimal(2) == "2" && Decimal(0) == "0";
  }

  /** Two different checks of these domains share a key. */
  ghost predicate Collide(domain: string, domain': string) {
    exists ip, v, ip', v' :: CacheKey(ip, v, domain) == CacheKey(ip', v', domain') && (ip, v, domain) != (ip', v', domain')
  }

  /** `longer` is `shorter` behind a colon, and what stands before that colon is, from the colon before it on, a printed number. */
  ghost predicate Behind(longer: string, shorter: string) {
    exists p, n :: (p == "" || p[|p| - 1] == ':') && longer == p + Decimal(n) + ":" + shorter
  }

  lemma Regroup(h: string, x: string, y: string)
    ensures h + ":" + (x + ":" + y) == h + ":" + x + ":" + y
  {
  }

  lemma BehindCollides(longer: string, shorter: string)
    requires Behind(longer, shorter)
    ensures Collide(longer, shorter) && Collide(shorter, longer)
  {
    var p, n :| (p == "" || p[|p| - 1] == ':') && longer == p + Decimal(n) + ":" + shorter;
    var ip := ":" + Decimal(0);
    var h := "dns:" + "" + ":" + Decimal(0);
    assert h == "dns:" + ip;
    if p == "" {
      assert longer == Decimal(n) + ":" + shorter;
    } else {
      var front := p[..|p| - 1];
      assert p == front + ":";
      Regroup(front, Decimal(n), shorter);
      assert longer == front + ":" + (Decimal(n) + ":" + shorter);
      Regroup(h, front, Decimal(n) + ":" + shorter);
      assert h + ":" + front == "dns:" + (ip + ":" + front);
      h, ip := h + ":" + front, ip + ":" + front;
    }
    Regroup(h, Decimal(n), shorter);
    assert CacheKey("", 0, longer) == CacheKey(ip, n, shorter);
  }

  /** A text that ends in a colon and a printed number, split at an earlier colon. */
  lemma EndsInNumber(a: string, q: string, ip: string, n: nat)
    requires a + ":" + q == ip + ":" + Decimal(n)
    ensures var k := |q| - |Decimal(n)|; k >= 0 && q == q[..k] + Decimal(n) && (k == 0 || q[k - 1] == ':')
  {
    var s, number := a + ":" + q, Decimal(n);
    assert s[|a|] == ':' && s[|ip|] == ':';
    assert forall i | |ip| < i < |s| :: s[i] == number[i - |ip| - 1];
    assert |a| <= |ip|;
    assert forall i | |a| < i < |s| :: s[i] == q[i - |a| - 1];
    var k := |q| - |number|;
    assert s[|ip| + 1..] == number && s[|a| + 1..] == q;
    assert q[k..] == number;
    if k > 0 {
      assert q[k - 1] == s[|ip|];
    }
  }

  /** The longer of two endings of one text is something in front of the shorter. */
  lemma LongerEnding(a: string, longer: string, b: string, shorter: string) returns (q: string)
    requires a + ":" + longer == b + ":" + shorter && |longer| > |shorter|
    ensures longer == q + ":" + shorter && b == a + ":" + q
  {
    var s, m := a + ":" + longer, |longer| - |shorter| - 1;
    q := longer[..m];
    assert s[|a| + 1..] == longer && s[|b| + 1..] == shorter && s[|b|] == ':';
    assert longer[m] == s[|b|] && longer[m + 1..] == shorter;
    assert s[..|b|] == b && s[..|b|] == a + ":" + q;
  }

  lemma CollisionIsBehind(ip: string, v: nat, longer: string, ip': string, v': nat, shorter: string)
    requires CacheKey(ip, v, longer) == CacheKey(ip', v', shorter) && |longer| > |shorter|
    ensures Behind(longer, shorter)
  {
    var a := "dns:" + ip + ":" + Decimal(v);
    var q := LongerEnding(a, longer, "dns:" + ip' + ":" + Decimal(v'), shorter);
    EndsInNumber(a, q, "dns:" + ip', v');
    var k := |q| - |Decimal(v')|;
    assert longer == q[..k] + Decimal(v') + ":" + shorter;
  }

  /** Exactly which pairs of domains can share a key. */
  lemma CollideExactlyWhenBehind(domain: string, domain': string)
    ensures Collide(domain, domain') <==> Behind(domain, domain') || Behind(domain', domain)
  {
    if Behind(domain, domain') {
      BehindCollides(domain, domain');
    }
    if Behind(domain', domain) {
      BehindCollides(domain', domain);
    }
    if Collide(domain, domain') {
      var ip, v, ip', v' :|
        CacheKey(ip, v, domain) == CacheKey(ip', v', domain') && (ip, v, domain) != (ip', v', domain');
      if |domain| > |domain'| {
        CollisionIsBehind(ip, v, domain, ip', v', domain');
      } else if |domain| < |domain'| {
        CollisionIsBehind(ip', v', domain', ip, v, domain);
      } else {
        SameLengthIsSame(ip, v, domain, ip', v', domain');
      }
    }
  }

  lemma SameLengthIsSame(ip: string, v: nat, domain: string, ip': string, v': nat, domain': string)
    requires CacheKey(ip, v, domain) == CacheKey(ip', v', domain') && |domain| == |domain'|
    ensures ip == ip' && v == v' && domain == domain'
  {
    var s := CacheKey(ip, v, domain);
    var a, b := "dns:" + ip + ":" + Decimal(v), "dns:" + ip' + ":" + Decimal(v');
    assert s == a + ":" + domain == b + ":" + domain';
    assert s[..|a|] == a && s[..|b|] == b && s[|a| + 1..] == domain && s[|b| + 1..] == domain';
    SplitAtLastColon("dns:" + ip, Decimal(v), "dns:" + ip', Decimal(v'));
    DecimalInjective(v, v');
    assert ("dns:" + ip)[4..] == ip && ("dns:" + ip')[4..] == ip';
  }

  /** The four key families never meet. */
  lemma KeyFamiliesDisjoint(ip: string, v: nat, domain: string, other: string)
    ensures CacheKey(ip, v, domain) != VersionKey(other)
    ensures CacheKey(ip, v, domain) != DeviceIdKey(other)
    ensures CacheKey(ip, v, domain) != HeartbeatKey(other)
    ensures VersionKey(ip) != DeviceIdKey(other) && VersionKey(ip) != HeartbeatKey(other)
    ensures DeviceIdKey(ip) != HeartbeatKey(other)
  {
    assert CacheKey(ip, v, domain)[3] == ':';
    assert VersionKey(ip)[3] == VersionKey(other)[3] == 'v';
    assert DeviceIdKey(ip)[3] == DeviceIdKey(other)[3] == 'd';
    assert HeartbeatKey(other)[3] == 'h';
  }
}
