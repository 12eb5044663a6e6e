/** The main results about the DNS decision cache, with the policy engine plugged in. */
module DnsTheorems {
  import opened Common
  import opened Rows
  import opened DnsPolicy
  import opened CacheKeys
  import opened DnsCache
  import opened DnsFresh
  import opened DnsChecks

  /** The moments behind the five reads of an answer; a read the chain did not need counts as made with the one before. */
  datatype ReadTimes = ReadTimes(device: nat, session: nat, clock: nat, domain: nat, category: nat)

  predicate Within(r: ReadTimes, lo: nat, hi: nat) {
    lo <= r.device < hi && lo <= r.session < hi && lo <= r.clock < hi && lo <= r.domain < hi && lo <= r.category < hi
  }

  function ViewOf(hist: seq<Moment>, r: ReadTimes): View
    requires Within(r, 0, |hist|)
  {
    View(hist[r.device], hist[r.session], hist[r.clock], hist[r.domain], hist[r.category])
  }

  /** The chain of reads in `v` passes through, or ends in, phase `p`. */
  predicate Reaches(strict: seq<string>, v: View, p: Phase, ip: string, domain: string) {
    var p1 := NextPhase(strict, Start, v.device, ip, domain);
    var p2 := if p1.HasDevice? then NextPhase(strict, p1, v.session, ip, domain) else p1;
    var p3 := if p2.HasSession? then NextPhase(strict, p2, v.clock, ip, domain) else p2;
    var p4 := if p3.PastSession? then NextPhase(strict, p3, v.domain, ip, domain) else p3;
    var p5 := if p4.HasDomain? then NextPhase(strict, p4, v.category, ip, domain) else p4;
    match p
    case Start => true
    case HasDevice(_) => p == p1
    case HasSession(_, _) => p == p2
    case PastSession(_) => p == p3
    case HasDomain(_, _) => p == p4
    case Decided(_) => p == p5
  }

  predicate FromTrail(trail: seq<nat>, m: nat, default: nat) { m == default || m in trail }

  predicate AllFromTrail(trail: seq<nat>, r: ReadTimes, default: nat) {
    FromTrail(trail, r.device, default) && FromTrail(trail, r.session, default) && FromTrail(trail, r.clock, default)
    && FromTrail(trail, r.domain, default) && FromTrail(trail, r.category, default)
  }

  function PutRead(p: Phase, r: ReadTimes, m: nat): ReadTimes {
    match p
    case Start => ReadTimes(m, m, m, m, m)
    case HasDevice(_) => ReadTimes(r.device, m, m, m, m)
    case HasSession(_, _) => ReadTimes(r.device, r.session, m, m, m)
    case PastSession(_) => ReadTimes(r.device, r.session, r.clock, m, m)
    case HasDomain(_, _) => r.(category := m)
    case Decided(_) => r
  }

  /** The reads are made one after another. */
  predicate InOrder(r: ReadTimes) { r.device <= r.session <= r.clock <= r.domain <= r.category }

  /** The moments of a trail follow one another from `first` on. */
  predicate Ascending(first: nat, trail: seq<nat>) {
    trail == [] || (Ascending(first, trail[..|trail| - 1]) && Latest(first, trail[..|trail| - 1]) <= trail[|trail| - 1])
  }

  function Latest(first: nat, trail: seq<nat>): nat { if trail == [] then first else trail[|trail| - 1] }

  lemma PutReadInOrder(p: Phase, r: ReadTimes, latest: nat, m: nat)
    requires InOrder(r) && r.category <= latest <= m
    ensures InOrder(PutRead(p, r, m)) && PutRead(p, r, m).category <= m
  {
  }

  lemma OneMoreRead(strict: seq<string>, hist: seq<Moment>, r: ReadTimes, m: nat, p: Phase, ip: string, domain: string)
    requires Within(r, 0, |hist|) && m < |hist|
    requires Reaches(strict, ViewOf(hist, r), p, ip, domain)
    ensures Reaches(strict, ViewOf(hist, PutRead(p, r, m)), NextPhase(strict, p, hist[m], ip, domain), ip, domain)
  {
  }

  lemma PutReadFromTrail(trail: seq<nat>, p: Phase, r: ReadTimes, default: nat)
    requires trail != [] && AllFromTrail(trail[..|trail| - 1], r, default)
    ensures AllFromTrail(trail, PutRead(p, r, trail[|trail| - 1]), default)
  {
    assert trail == trail[..|trail| - 1] + [trail[|trail| - 1]];
  }

  lemma ReplaySnoc(strict: seq<string>, hist: seq<Moment>, trail: seq<nat>, ip: string, domain: string)
    requires trail != [] && forall i | 0 <= i < |trail| :: trail[i] < |hist|
    ensures var n := |trail| - 1;
      Replay(PolicyEngine(strict), hist, trail, ip, domain)
      == NextPhase(strict, Replay(PolicyEngine(strict), hist, trail[..n], ip, domain), hist[trail[n]], ip, domain)
  {
  }

  /** Replaying a trail is the step-by-step chain on the view its moments give. */
  lemma {:induction false} ReplayIsChain(strict: seq<string>, hist: seq<Moment>, trail: seq<nat>, ip: string, domain: string, default: nat)
    returns (r: ReadTimes)
    requires default < |hist|
    requires forall i | 0 <= i < |trail| :: trail[i] < |hist|
    ensures Within(r, 0, |hist|) && AllFromTrail(trail, r, default)
    ensures Reaches(strict, ViewOf(hist, r), Replay(PolicyEngine(strict), hist, trail, ip, domain), ip, domain)
    ensures Ascending(default, trail) ==> InOrder(r) && r.category <= Latest(default, trail)
    decreases |trail|
  {
    if trail == [] {
      r := ReadTimes(default, default, default, default, default);
    } else {
      var n := |trail| - 1;
      var before := ReplayIsChain(strict, hist, trail[..n], ip, domain, default);
      var p := Replay(PolicyEngine(strict), hist, trail[..n], ip, domain);
      OneMoreRead(strict, hist, before, trail[n], p, ip, domain);
      r := PutRead(p, before, trail[n]);
      PutReadFromTrail(trail, p, before, default);
      if Ascending(default, trail) {
        PutReadInOrder(p, before, Latest(default, trail[..n]), trail[n]);
      }
      ReplaySnoc(strict, hist, trail, ip, domain);
    }
  }

  // ---- Trails go forward.

  predicate Forward(s: State, trail: seq<nat>)
    requires s.hist != []
  {
    Ascending(0, trail) && Latest(0, trail) <= Last(s)
  }

  /** Every read in use was made no earlier than the one before it. */
  ghost predicate TrailsForward(s: State)
    requires s.hist != []
  {
    && (forall c | c in s.checks :: Forward(s, s.checks[c].trail))
    && (forall key | key in s.decisions :: Forward(s, s.decisions[key].trail))
    && (forall c | c in s.replies :: Forward(s, s.replies[c].trail))
  }

  lemma ReadGoesForward(s: State, c: nat)
    requires s.hist != [] && Enabled(s, Read(c)) && Forward(s, s.checks[c].trail)
    ensures Forward(s, AfterRead(s, s.checks[c]).trail)
  {
    var trail := s.checks[c].trail;
    assert (trail + [Last(s)])[..|trail|] == trail;
  }

  lemma ForwardPreserved(s: State, e: Event)
    requires CanStep(s, e) && TrailsForward(s)
    ensures TrailsForward(Apply(s, e))
  {
    if e.Read? {
      ReadGoesForward(s, e.id);
    }
  }

  lemma {:induction false} ForwardAlways(s: State, es: seq<Event>)
    requires s.hist != [] && TrailsForward(s) && Runs(s, es)
    ensures TrailsForward(Run(s, es))
    decreases |es|
  {
    if es != [] {
      ForwardPreserved(s, es[0]);
      ForwardAlways(Apply(s, es[0]), es[1..]);
    }
  }

  lemma {:induction false} FromItsFirst(trail: seq<nat>)
    requires trail != [] && Ascending(0, trail)
    ensures Ascending(trail[0], trail)
  {
    if |trail| > 1 {
      FromItsFirst(trail[..|trail| - 1]);
    } else {
      assert Ascending(trail[0], trail[..0]);
    }
  }

  // ---- The reads behind a reply.

  predicate RecentMoment(s: State, m: nat, at: nat) {
    m < |s.hist| && s.hist[m].now <= at <= s.hist[m].now + s.maxCheck + DECISION_TTL
  }

  predicate RecentReads(s: State, r: ReadTimes, at: nat) {
    RecentMoment(s, r.device, at) && RecentMoment(s, r.session, at) && RecentMoment(s, r.clock, at)
    && RecentMoment(s, r.domain, at) && RecentMoment(s, r.category, at)
  }

  /** The reads behind one reply of a run. */
  lemma ReplyHasReads(s: State, strict: seq<string>, c: nat, lo: nat) returns (r: ReadTimes)
    requires s.engine == PolicyEngine(strict) && c in s.replies && ReplyOk(s, s.replies[c])
    requires forall i | 0 <= i < |s.replies[c].trail| :: lo <= s.replies[c].trail[i]
    ensures RecentReads(s, r, s.replies[c].at) && Within(r, lo, |s.hist|)
    ensures s.replies[c].response == Answer(strict, ViewOf(s.hist, r), s.replies[c].stamp.ip, s.replies[c].domain)
    ensures Ascending(0, s.replies[c].trail) ==> InOrder(r)
  {
    var reply := s.replies[c];
    if Ascending(0, reply.trail) {
      FromItsFirst(reply.trail);
    }
    r := ReplayIsChain(strict, s.hist, reply.trail, reply.stamp.ip, reply.domain, reply.trail[0]);
  }

  /**
   * Bounded staleness, for every run and every writer, disciplined or not: each reply is
   * what the policy chain gives on reads made one after another at most D + 30 s before the reply.
   */
  lemma BoundedStaleness(strict: seq<string>, maxCheck: nat, m: Moment, es: seq<Event>, c: nat) returns (r: ReadTimes)
    requires Runs(Init(PolicyEngine(strict), maxCheck, m), es)
    requires c in Run(Init(PolicyEngine(strict), maxCheck, m), es).replies
    ensures
      var s := Run(Init(PolicyEngine(strict), maxCheck, m), es);
      var reply := s.replies[c];
      && RecentReads(s, r, reply.at) && InOrder(r)
      && reply.response == Answer(strict, ViewOf(s.hist, r), reply.stamp.ip, reply.domain)
      // With no write between its reads, the reply is the uncached engine at one moment of that window.
      && (SameDb(ViewOf(s.hist, r)) ==>
            reply.response == Uncached(strict, s.hist[r.clock].db, s.hist[r.clock].now, reply.stamp.ip, reply.domain))
  {
    var s0 := Init(PolicyEngine(strict), maxCheck, m);
    BaseAlways(s0, es);
    ForwardAlways(s0, es);
    var s := Run(s0, es);
    r := ReplyHasReads(s, strict, c, 0);
    if SameDb(ViewOf(s.hist, r)) {
      UndisturbedIsUncached(strict, ViewOf(s.hist, r), s.replies[c].stamp.ip, s.replies[c].domain);
    }
  }

  predicate SameDb(v: View) {
    v.device.db == v.clock.db && v.session.db == v.clock.db && v.domain.db == v.clock.db && v.category.db == v.clock.db
  }

  lemma UndisturbedIsUncached(strict: seq<string>, v: View, ip: string, domain: string)
    requires SameDb(v)
    ensures Answer(strict, v, ip, domain) == Uncached(strict, v.clock.db, v.clock.now, ip, domain)
  {
  }

  /** A request is a check in flight or has replied, never both, and keeps its stamp. */
  predicate Stamped(s: State, c: nat, st: Stamp) {
    if c in s.checks then c !in s.replies && s.checks[c].stamp == st else c in s.replies && s.replies[c].stamp == st
  }

  lemma {:induction false} StampPersists(s: State, es: seq<Event>, c: nat, st: Stamp)
    requires s.hist != [] && Runs(s, es) && Stamped(s, c, st)
    ensures Stamped(Run(s, es), c, st)
    decreases |es|
  {
    if es != [] {
      StampPersists(Apply(s, es[0]), es[1..], c, st);
    }
  }

  /** The steps `es`, every one enabled and every bump of them written safely, lead from `s` to `t`. */
  ghost predicate Leads(s: State, es: seq<Event>, t: State) {
    Goes(s, es, t) && SafeRun(s, es)
  }

  ghost predicate Reachable(strict: seq<string>, maxCheck: nat, s: State) {
    exists m, es :: Leads(Init(PolicyEngine(strict), maxCheck, m), es, s)
  }

  lemma ReachableInv(strict: seq<string>, maxCheck: nat, s: State)
    requires maxCheck + DECISION_TTL <= VERSION_TTL && Reachable(strict, maxCheck, s)
    ensures Inv(s) && s.engine == PolicyEngine(strict) && s.maxCheck == maxCheck
  {
    var m, es :| Leads(Init(PolicyEngine(strict), maxCheck, m), es, s);
    InitInv(PolicyEngine(strict), maxCheck, m);
    InvAlways(Init(PolicyEngine(strict), maxCheck, m), es);
    BaseAlways(Init(PolicyEngine(strict), maxCheck, m), es);
  }

  lemma LeadsKeeps(s: State, es: seq<Event>, t: State)
    requires Inv(s) && Leads(s, es, t)
    ensures Inv(t) && Grows(s, t)
  {
    InvAlways(s, es);
    BaseAlways(s, es);
  }

  lemma StepThenLeads(s: State, e: Event, es: seq<Event>, t: State)
    requires Inv(s) && Enabled(s, e) && SafeStep(s, e) && Leads(Apply(s, e), es, t)
    ensures Inv(Apply(s, e)) && Inv(t) && Grows(Apply(s, e), t)
  {
    StepIsSafeExactlyWhenFresh(s, e);
    LeadsKeeps(Apply(s, e), es, t);
  }

  lemma TrailIsFresh(s: State, c: nat, k: nat)
    requires Inv(s) && c in s.replies && k < s.replies[c].stamp.era
    ensures k < |Log(s, s.replies[c].stamp.ip)|
    ensures TrailSince(s.replies[c].trail, Log(s, s.replies[c].stamp.ip)[k].moment)
  {
    assert ReplyFresh(s, s.replies[c]);
  }

  /** What a fresh reply is: computed by the policy chain from recent reads at or after moment `lo`. */
  predicate FreshReply(strict: seq<string>, s: State, c: nat, ip: string, lo: nat, r: ReadTimes) {
    && c in s.replies
    && Within(r, lo, |s.hist|)
    && RecentReads(s, r, s.replies[c].at)
    && s.replies[c].stamp.ip == ip
    && s.replies[c].response == Answer(strict, ViewOf(s.hist, r), ip, s.replies[c].domain)
  }

  lemma TrailFromBegin(s: State, c: nat, ip: string, domain: string, rest: seq<Event>, t: State, k: nat)
    requires Inv(s) && Enabled(s, Begin(c, ip, domain)) && k < |Log(s, ip)|
    requires Leads(Apply(s, Begin(c, ip, domain)), rest, t) && c in t.replies
    ensures t.engine == s.engine && ReplyOk(t, t.replies[c]) && t.replies[c].stamp.ip == ip
    ensures TrailSince(t.replies[c].trail, Log(s, ip)[k].moment)
  {
    var started := Apply(s, Begin(c, ip, domain));
    assert t.replies[c].stamp == NewStamp(s, ip) by {
      StampPersists(started, rest, c, NewStamp(s, ip));
    }
    StepThenLeads(s, Begin(c, ip, domain), rest, t);
    assert Log(s, ip) == Log(started, ip) <= Log(t, ip);
    TrailIsFresh(t, c, k);
  }

  /** A check begun after the k-th bump of its IP rests on reads since that bump. */
  lemma FreshFromBegin(strict: seq<string>, s: State, c: nat, ip: string, domain: string, rest: seq<Event>, t: State, k: nat)
    returns (r: ReadTimes)
    requires Inv(s) && s.engine == PolicyEngine(strict)
    requires Enabled(s, Begin(c, ip, domain)) && k < |Log(s, ip)|
    requires Leads(Apply(s, Begin(c, ip, domain)), rest, t) && c in t.replies
    ensures FreshReply(strict, t, c, ip, Log(s, ip)[k].moment, r)
  {
    TrailFromBegin(s, c, ip, domain, rest, t, k);
    r := ReplyHasReads(t, strict, c, Log(s, ip)[k].moment);
  }

  lemma FreshFromBump(
      strict: seq<string>, s: State, w: nat, later: seq<Event>, s': State, c: nat, ip: string, domain: string,
      rest: seq<Event>, t: State)
    returns (r: ReadTimes)
    requires Inv(s) && s.engine == PolicyEngine(strict)
    requires w in s.pending && s.pending[w].ip == ip && SafeWrite(s, w)
    requires Leads(Apply(s, BumpSet(w)), later, s') && s'.hist != [] && Enabled(s', Begin(c, ip, domain))
    requires Leads(Apply(s', Begin(c, ip, domain)), rest, t) && c in t.replies
    ensures FreshReply(strict, t, c, ip, |s.hist| - 1, r)
    ensures s.hist <= t.hist
  {
    var k := |Log(s, ip)|;
    StepThenLeads(s, BumpSet(w), later, s');
    assert Log(Apply(s, BumpSet(w)), ip)[k].moment == |s.hist| - 1;
    assert Log(Apply(s, BumpSet(w)), ip) <= Log(s', ip);
    r := FreshFromBegin(strict, s', c, ip, domain, rest, t, k);
    StepThenLeads(s', Begin(c, ip, domain), rest, t);
  }

  /**
   * Freshness. From any reachable state some writer writes the database; later a bump of `ip`
   * completes; later still a check of `ip` begins and, at the end, has replied. Whatever else
   * interleaves, with bumps written safely the reply rests on reads no older than the write.
   */
  lemma FreshAfterInvalidation(
      strict: seq<string>, maxCheck: nat, s1: State, db: Db, between: seq<Event>, s2: State, w: nat,
      later: seq<Event>, s3: State, c: nat, ip: string, domain: string, rest: seq<Event>, s4: State)
    returns (r: ReadTimes)
    requires maxCheck + DECISION_TTL <= VERSION_TTL
    requires Reachable(strict, maxCheck, s1) && s1.hist != []
    requires Leads(Apply(s1, Write(db)), between, s2)
    requires w in s2.pending && s2.pending[w].ip == ip && s2.hist != [] && SafeWrite(s2, w)
    requires Leads(Apply(s2, BumpSet(w)), later, s3)
    requires s3.hist != [] && Enabled(s3, Begin(c, ip, domain))
    requires Leads(Apply(s3, Begin(c, ip, domain)), rest, s4) && c in s4.replies
    ensures FreshReply(strict, s4, c, ip, |s1.hist|, r)
    ensures s4.hist[|s1.hist|].db == db
  {
    ReachableInv(strict, maxCheck, s1);
    StepThenLeads(s1, Write(db), between, s2);
    assert Apply(s1, Write(db)).hist[|s1.hist|].db == db;
    r := FreshFromBump(strict, s2, w, later, s3, c, ip, domain, rest, s4);
  }

  /**
   * What a parent sees: if since the write every database resolves `ip` to a device that is
   * internet-locked or blocked, that check is answered BLOCK.
   */
  lemma LockTakesEffect(strict: seq<string>, hist: seq<Moment>, r: ReadTimes, write: nat, ip: string, domain: string)
    requires Within(r, write, |hist|)
    requires forall i | write <= i < |hist| ::
        var d := FindDevice(hist[i].db.devices, ip); d.Some? && (d.value.internetLocked || d.value.status == BLOCKED)
    ensures Answer(strict, ViewOf(hist, r), ip, domain).action == BLOCK
  {
    LockedIsBlocked(strict, ViewOf(hist, r), ip, domain);
  }

  /** At every moment from `lo` on, the database resolves the IP to a device that is locked or blocked. */
  predicate StaysLocked(hist: seq<Moment>, lo: nat, ip: string) {
    forall i | lo <= i < |hist| ::
      var d := FindDevice(hist[i].db.devices, ip); d.Some? && (d.value.internetLocked || d.value.status == BLOCKED)
  }

  /** A fresh reply while the device stays locked is BLOCK. */
  lemma FreshReplyIsBlock(strict: seq<string>, s: State, c: nat, ip: string, lo: nat, r: ReadTimes)
    requires FreshReply(strict, s, c, ip, lo, r) && StaysLocked(s.hist, lo, ip)
    ensures s.replies[c].response.action == BLOCK
  {
    LockTakesEffect(strict, s.hist, r, lo, ip, s.replies[c].domain);
  }

  /** At every moment from `lo` on, the device that the IP resolves to, if any, is neither locked nor blocked. */
  predicate StaysFree(hist: seq<Moment>, lo: nat, ip: string) {
    forall i | lo <= i < |hist| ::
      var d := FindDevice(hist[i].db.devices, ip); d.None? || (!d.value.internetLocked && d.value.status != BLOCKED)
  }

  /** A fresh reply while the device stays free names neither a lock nor a manual block. */
  lemma FreshReplyIsFree(strict: seq<string>, s: State, c: nat, ip: string, lo: nat, r: ReadTimes)
    requires FreshReply(strict, s, c, ip, lo, r) && StaysFree(s.hist, lo, ip)
    ensures s.replies[c].response.reason != Some(INTERNET_LOCKED) && s.replies[c].response.reason != Some(MANUAL_BLOCK)
  {
    FreeReadIsFree(strict, ViewOf(s.hist, r), ip, s.replies[c].domain);
  }

  lemma FreeReadIsFree(strict: seq<string>, v: View, ip: string, domain: string)
    requires var d := FindDevice(v.device.db.devices, ip); d.None? || (!d.value.internetLocked && d.value.status != BLOCKED)
    ensures var r := Answer(strict, v, ip, domain); r.reason != Some(INTERNET_LOCKED) && r.reason != Some(MANUAL_BLOCK)
  {
  }

  /**
   * End to end: after the write of a lock or block, and a later bump of one of the row's IPs, every
   * check of that IP begun later is answered BLOCK, whatever interleaves, while the device stays so.
   */
  lemma LockIsEnforced(
      strict: seq<string>, maxCheck: nat, s1: State, db: Db, between: seq<Event>, s2: State, w: nat,
      later: seq<Event>, s3: State, c: nat, ip: string, domain: string, rest: seq<Event>, s4: State)
    requires maxCheck + DECISION_TTL <= VERSION_TTL
    requires Reachable(strict, maxCheck, s1) && s1.hist != []
    requires Leads(Apply(s1, Write(db)), between, s2)
    requires w in s2.pending && s2.pending[w].ip == ip && s2.hist != [] && SafeWrite(s2, w)
    requires Leads(Apply(s2, BumpSet(w)), later, s3)
    requires s3.hist != [] && Enabled(s3, Begin(c, ip, domain))
    requires Leads(Apply(s3, Begin(c, ip, domain)), rest, s4) && c in s4.replies
    requires StaysLocked(s4.hist, |s1.hist|, ip)
    ensures s4.replies[c].response.action == BLOCK
  {
    var r := FreshAfterInvalidation(strict, maxCheck, s1, db, between, s2, w, later, s3, c, ip, domain, rest, s4);
    FreshReplyIsBlock(strict, s4, c, ip, |s1.hist|, r);
  }
}
