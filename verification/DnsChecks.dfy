/** One check with nothing in between: how many reads it makes, and where they lead. */
module DnsChecks {
  import opened Rows
  import opened DnsPolicy
  import opened CacheKeys
  import opened DnsCache

  function PolicyEngine(strict: seq<string>): Engine {
    (p: Phase, m: Moment, ip: string, domain: string) => NextPhase(strict, p, m, ip, domain)
  }

  // ---- Reads of one moment.

  /** Where a check at phase `p` is after at most `n` reads that all see moment `m`. */
  function After(engine: Engine, p: Phase, m: Moment, ip: string, domain: string, n: nat): Phase
    decreases n
  {
    if n == 0 || p.Decided? then p else After(engine, engine(p, m, ip, domain), m, ip, domain, n - 1)
  }

  /** Past the session at most two reads remain. */
  lemma TwoReadsDecide(strict: seq<string>, device: Device, m: Moment, ip: string, domain: string, n: nat)
    requires n >= 2
    ensures
      var p := NextPhase(strict, PastSession(device), m, ip, domain);
      After(PolicyEngine(strict), PastSession(device), m, ip, domain, n)
      == if p.HasDomain? then NextPhase(strict, p, m, ip, domain) else p
  {
    var p := NextPhase(strict, PastSession(device), m, ip, domain);
    assert After(PolicyEngine(strict), PastSession(device), m, ip, domain, n) == After(PolicyEngine(strict), p, m, ip, domain, n - 1);
    if p.HasDomain? {
      var q := NextPhase(strict, p, m, ip, domain);
      assert After(PolicyEngine(strict), p, m, ip, domain, n - 1) == After(PolicyEngine(strict), q, m, ip, domain, n - 2) == q;
    }
  }

  /** With a device at most four reads remain. */
  lemma FourReadsDecide(strict: seq<string>, device: Device, m: Moment, ip: string, domain: string)
    ensures
      var p2 := NextPhase(strict, HasDevice(device), m, ip, domain);
      var p3 := if p2.HasSession? then NextPhase(strict, p2, m, ip, domain) else p2;
      var p4 := if p3.PastSession? then NextPhase(strict, p3, m, ip, domain) else p3;
      After(PolicyEngine(strict), HasDevice(device), m, ip, domain, 4)
      == if p4.HasDomain? then NextPhase(strict, p4, m, ip, domain) else p4
  {
    var e := PolicyEngine(strict);
    var p2 := NextPhase(strict, HasDevice(device), m, ip, domain);
    assert After(e, HasDevice(device), m, ip, domain, 4) == After(e, p2, m, ip, domain, 3);
    if p2.HasSession? {
      var p3 := NextPhase(strict, p2, m, ip, domain);
      assert After(e, p2, m, ip, domain, 3) == After(e, p3, m, ip, domain, 2);
    }
    TwoReadsDecide(strict, device, m, ip, domain, 2);
    TwoReadsDecide(strict, device, m, ip, domain, 3);
  }

  /** The policy engine decides within five reads, and then as the uncached engine does. */
  lemma FiveReadsDecide(strict: seq<string>, m: Moment, ip: string, domain: string)
    ensures After(PolicyEngine(strict), Start, m, ip, domain, 5) == Decided(Uncached(strict, m.db, m.now, ip, domain))
  {
    var e := PolicyEngine(strict);
    var p1 := NextPhase(strict, Start, m, ip, domain);
    assert After(e, Start, m, ip, domain, 5) == After(e, p1, m, ip, domain, 4);
    if p1.HasDevice? {
      FourReadsDecide(strict, p1.device, m, ip, domain);
    }
  }

  /** From any phase a check is decided five reads later. */
  lemma AnyPhaseDecides(strict: seq<string>, p: Phase, m: Moment, ip: string, domain: string)
    ensures After(PolicyEngine(strict), p, m, ip, domain, 5).Decided?
  {
    var e := PolicyEngine(strict);
    match p
    case Start => FiveReadsDecide(strict, m, ip, domain);
    case HasDevice(device) =>
      var q := NextPhase(strict, p, m, ip, domain);
      assert After(e, p, m, ip, domain, 5) == After(e, q, m, ip, domain, 4);
      if q.HasSession? {
        assert After(e, q, m, ip, domain, 4) == After(e, NextPhase(strict, q, m, ip, domain), m, ip, domain, 3);
      }
      TwoReadsDecide(strict, device, m, ip, domain, 3);
      TwoReadsDecide(strict, device, m, ip, domain, 4);
    case HasSession(device, _) =>
      assert After(e, p, m, ip, domain, 5) == After(e, NextPhase(strict, p, m, ip, domain), m, ip, domain, 4);
      TwoReadsDecide(strict, device, m, ip, domain, 4);
    case PastSession(device) => TwoReadsDecide(strict, device, m, ip, domain, 5);
    case HasDomain(_, _) =>
      assert After(e, p, m, ip, domain, 5) == After(e, NextPhase(strict, p, m, ip, domain), m, ip, domain, 4);
    case Decided(_) =>
  }

  // ---- Steps of one check.

  function Reads(c: nat, n: nat): seq<Event> { if n == 0 then [] else [Read(c)] + Reads(c, n - 1) }

  lemma GoesConcat(s: State, a: seq<Event>, t: State, b: seq<Event>, u: State)
    requires Goes(s, a, t) && Goes(t, b, u)
    ensures Goes(s, a + b, u)
  {
    RunConcat(s, a, b);
  }

  lemma GoesOne(s: State, e: Event)
    requires CanStep(s, e)
    ensures Goes(s, [e], Apply(s, e))
  {
    assert [e][1..] == [];
  }

  lemma GoesTwo(s: State, a: Event, b: Event)
    requires CanStep(s, a) && CanStep(Apply(s, a), b)
    ensures Goes(s, [a, b], Apply(Apply(s, a), b))
  {
    assert [a, b][1..] == [b];
    GoesOne(Apply(s, a), b);
  }

  /** A check that is reading, at some phase. */
  predicate AtPhase(s: State, c: nat, stamp: Stamp, domain: string, p: Phase) {
    && c in s.checks && s.checks[c].stamp == stamp && s.checks[c].domain == domain
    && s.checks[c].stage == Reading(p)
  }

  /** All that a check's reads change is the check, whose trail they extend. */
  ghost predicate OnlyReads(s: State, t: State, c: nat) {
    && c in s.checks && c in t.checks && s.checks[c].trail <= t.checks[c].trail
    && t.checks == s.checks[c := t.checks[c]]
    && t.hist == s.hist && t.versions == s.versions && t.decisions == s.decisions && t.replies == s.replies
    && t.bumps == s.bumps && t.pending == s.pending && t.engine == s.engine && t.maxCheck == s.maxCheck
  }

  lemma ReadState(s: State, c: nat, stamp: Stamp, domain: string, p: Phase)
    requires s.hist != [] && AtPhase(s, c, stamp, domain, p) && !p.Decided?
    ensures Enabled(s, Read(c))
    ensures var t := Apply(s, Read(c));
      AtPhase(t, c, stamp, domain, s.engine(p, s.hist[Last(s)], stamp.ip, domain)) && OnlyReads(s, t, c)
  {
  }

  /** The reads of a check with nothing in between all see the same moment. */
  lemma {:induction false} ReadsLead(s: State, c: nat, stamp: Stamp, domain: string, p: Phase, n: nat) returns (k: nat, t: State)
    requires s.hist != [] && AtPhase(s, c, stamp, domain, p)
    ensures k <= n && Goes(s, Reads(c, k), t) && OnlyReads(s, t, c)
    ensures AtPhase(t, c, stamp, domain, After(s.engine, p, s.hist[Last(s)], stamp.ip, domain, n))
    decreases n
  {
    k, t := 0, s;
    if n > 0 && !p.Decided? {
      ReadState(s, c, stamp, domain, p);
      var s1 := Apply(s, Read(c));
      GoesOne(s, Read(c));
      k, t := ReadsLead(s1, c, stamp, domain, s.engine(p, s.hist[Last(s)], stamp.ip, domain), n - 1);
      GoesConcat(s, [Read(c)], s1, Reads(c, k), t);
      k := k + 1;
    }
  }

  /** The state after the decision is stored. */
  lemma StoredState(s: State, c: nat, stamp: Stamp, domain: string, r: Response)
    requires s.hist != [] && AtPhase(s, c, stamp, domain, Decided(r))
    ensures Enabled(s, Store(c))
    ensures var t := Apply(s, Store(c));
      && t.versions == s.versions && t.hist == s.hist && t.bumps == s.bumps && t.checks == s.checks - {c}
      && c in t.replies && t.replies[c].response == r && t.replies[c].stamp == stamp && t.replies[c].domain == domain
      && t.decisions == s.decisions[KeyOf(stamp, domain) := t.decisions[KeyOf(stamp, domain)]]
      && t.decisions[KeyOf(stamp, domain)].response == r
      && t.decisions[KeyOf(stamp, domain)].trail == s.checks[c].trail
      && t.decisions[KeyOf(stamp, domain)].expiry == Now(s) + DECISION_TTL
      && t.replies.Keys == s.replies.Keys + {c}
  {
  }

  /** The state after a check that hits. */
  lemma HitState(s: State, c: nat, ip: string, domain: string)
    requires s.hist != [] && c !in s.checks && c !in s.replies
    requires var k := Key(ip, CurrentVersion(s, ip), domain); k in s.decisions && Now(s) < s.decisions[k].expiry
    ensures Enabled(s, Begin(c, ip, domain)) && Enabled(Apply(s, Begin(c, ip, domain)), Hit(c))
    ensures var t, d := Apply(Apply(s, Begin(c, ip, domain)), Hit(c)), s.decisions[Key(ip, CurrentVersion(s, ip), domain)];
      && t.hist == s.hist && t.versions == s.versions && t.decisions == s.decisions && t.bumps == s.bumps
      && c in t.replies
      && t.replies[c] == Reply(Stamp(ip, CurrentVersion(s, ip), |Log(s, ip)|, Now(s), Last(s)), domain, d.response, d.trail, Now(s))
  {
  }
}
