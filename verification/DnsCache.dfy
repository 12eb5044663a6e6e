/**
 * The versioned decision cache as a state machine. Every awaited read or write of a
 * check, of a version bump and of any database writer is one step, and steps of
 * different requests interleave freely.
 *
 * `hist` records every moment (clock and database) the system went through and `bumps`
 * every completed version bump. Steps append to them but never branch on them, except
 * that the last moment is the current one.
 */
module DnsCache {
  import opened DnsPolicy
  import opened CacheKeys

  /** What the next await of a check does with the moment it happens at. */
  type Engine = (Phase, Moment, string, string) -> Phase

  /** A completed bump of one IP: when, and which moment was current. */
  datatype Bump = Bump(at: nat, moment: nat)

  /** Who a check is: its IP, the version it read, and when it read it (`era`: bumps of the IP completed by then). */
  datatype Stamp = Stamp(ip: string, version: nat, era: nat, startedAt: nat, startMoment: nat)

  datatype Stage = Versioned | Reading(phase: Phase)

  /** `trail`: the moments of the reads made so far. */
  datatype Check = Check(stamp: Stamp, domain: string, stage: Stage, trail: seq<nat>)

  /** A decision's key; `CacheKeys` proves its text form injective for domains without a colon. */
  datatype Key = Key(ip: string, version: nat, domain: string)

  datatype Entry = Entry(response: Response, stamp: Stamp, domain: string, trail: seq<nat>, expiry: nat)
  datatype Counter = Counter(value: nat, expiry: nat)
  datatype PendingBump = PendingBump(ip: string, found: nat)

  /** What a check replied at time `at`; `trail` is that of the check that computed the response. */
  datatype Reply = Reply(stamp: Stamp, domain: string, response: Response, trail: seq<nat>, at: nat)

  datatype State = State(
    engine: Engine,
    maxCheck: nat,                        // D: the longest a check may take, in milliseconds
    hist: seq<Moment>,
    versions: map<string, Counter>,       // by source IP
    decisions: map<Key, Entry>,
    pending: map<nat, PendingBump>,       // bumps between their read and their write
    checks: map<nat, Check>,
    replies: map<nat, Reply>,
    bumps: map<string, seq<Bump>>)

  datatype Event =
    | Tick(to: nat)
    | Write(db: Db)                       // any writer of any table
    | BumpGet(id: nat, ip: string)
    | BumpSet(id: nat)
    | Begin(id: nat, ip: string, domain: string)
    | Hit(id: nat)                        // the four awaited steps of a check: a live cached decision is returned,
    | Miss(id: nat)                       // or the cache has none,
    | Read(id: nat)                       // then one read of the database or the clock at a time,
    | Store(id: nat)                      // until the decision is cached and returned

  function Last(s: State): nat requires s.hist != [] { |s.hist| - 1 }
  function Now(s: State): nat requires s.hist != [] { s.hist[Last(s)].now }

  function Log(s: State, ip: string): seq<Bump> { if ip in s.bumps then s.bumps[ip] else [] }

  /** `getVersion`: zero when the counter is missing or expired. */
  function CurrentVersion(s: State, ip: string): nat
    requires s.hist != []
  {
    if ip in s.versions && Now(s) < s.versions[ip].expiry then s.versions[ip].value else 0
  }

  function Init(engine: Engine, maxCheck: nat, m: Moment): State {
    State(engine, maxCheck, [m], map[], map[], map[], map[], map[], map[])
  }

  function KeyOf(stamp: Stamp, domain: string): Key { Key(stamp.ip, stamp.version, domain) }

  /** A live decision under the check's key. */
  predicate Cached(s: State, c: Check)
    requires s.hist != []
  {
    KeyOf(c.stamp, c.domain) in s.decisions && Now(s) < s.decisions[KeyOf(c.stamp, c.domain)].expiry
  }

  /** The environment's obligations: clocks move forward, a check lasts at most D, request ids are new. */
  predicate Enabled(s: State, e: Event)
    requires s.hist != []
  {
    match e
    case Tick(to) => Now(s) <= to && forall c | c in s.checks :: to <= s.checks[c].stamp.startedAt + s.maxCheck
    case Write(_) => true
    case BumpGet(w, _) => w !in s.pending
    case BumpSet(w) => w in s.pending
    case Begin(c, _, _) => c !in s.checks && c !in s.replies
    case Hit(c) => c in s.checks && s.checks[c].stage.Versioned? && Cached(s, s.checks[c])
    case Miss(c) => c in s.checks && s.checks[c].stage.Versioned? && !Cached(s, s.checks[c])
    case Read(c) => c in s.checks && s.checks[c].stage.Reading? && !s.checks[c].stage.phase.Decided?
    case Store(c) => c in s.checks && s.checks[c].stage.Reading? && s.checks[c].stage.phase.Decided?
  }

  /** Enabled, in a state that has a moment to be in. */
  predicate CanStep(s: State, e: Event) { s.hist != [] && Enabled(s, e) }

  function AfterRead(s: State, c: Check): Check
    requires s.hist != [] && c.stage.Reading?
  {
    c.(stage := Reading(s.engine(c.stage.phase, s.hist[Last(s)], c.stamp.ip, c.domain)), trail := c.trail + [Last(s)])
  }

  function Apply(s: State, e: Event): (t: State)
    requires s.hist != [] && Enabled(s, e)
    ensures t.hist != []
  {
    match e
    case Tick(to) => s.(hist := s.hist + [Moment(to, s.hist[Last(s)].db)])
    case Write(db) => s.(hist := s.hist + [Moment(Now(s), db)])
    case BumpGet(w, ip) => s.(pending := s.pending[w := PendingBump(ip, CurrentVersion(s, ip))])
    case BumpSet(w) =>
      var PendingBump(ip, found) := s.pending[w];
      s.(pending := s.pending - {w},
         versions := s.versions[ip := Counter(found + 1, Now(s) + VERSION_TTL)],
         bumps := s.bumps[ip := Log(s, ip) + [Bump(Now(s), Last(s))]])
    case Begin(c, ip, domain) =>
      var stamp := Stamp(ip, CurrentVersion(s, ip), |Log(s, ip)|, Now(s), Last(s));
      s.(checks := s.checks[c := Check(stamp, domain, Versioned, [])])
    case Hit(c) =>
      var check := s.checks[c];
      var hit := s.decisions[KeyOf(check.stamp, check.domain)];
      s.(checks := s.checks - {c},
         replies := s.replies[c := Reply(check.stamp, check.domain, hit.response, hit.trail, Now(s))])
    case Miss(c) => s.(checks := s.checks[c := s.checks[c].(stage := Reading(Start), trail := [])])
    case Read(c) => s.(checks := s.checks[c := AfterRead(s, s.checks[c])])
    case Store(c) =>
      var check := s.checks[c];
      var r := check.stage.phase.response;
      s.(decisions := s.decisions[KeyOf(check.stamp, check.domain) :=
                        Entry(r, check.stamp, check.domain, check.trail, Now(s) + DECISION_TTL)],
         checks := s.checks - {c},
         replies := s.replies[c := Reply(check.stamp, check.domain, r, check.trail, Now(s))])
  }

  /** Every step of the run is enabled where it is taken. */
  predicate Runs(s: State, es: seq<Event>)
    requires s.hist != []
    decreases |es|
  {
    es == [] || (Enabled(s, es[0]) && Runs(Apply(s, es[0]), es[1..]))
  }

  function Run(s: State, es: seq<Event>): (t: State)
    requires s.hist != [] && Runs(s, es)
    ensures t.hist != []
    decreases |es|
  {
    if es == [] then s else Run(Apply(s, es[0]), es[1..])
  }

  lemma {:induction false} RunConcat(s: State, a: seq<Event>, b: seq<Event>)
    requires s.hist != []
    ensures Runs(s, a + b) <==> Runs(s, a) && Runs(Run(s, a), b)
    ensures Runs(s, a + b) ==> Run(s, a + b) == Run(Run(s, a), b)
    decreases |a|
  {
    if a == [] {
      assert a + b == b;
    } else {
      assert (a + b)[1..] == a[1..] + b;
      if Enabled(s, a[0]) {
        RunConcat(Apply(s, a[0]), a[1..], b);
      }
    }
  }

  /** The steps `es`, every one enabled, lead from `s` to `t`. */
  ghost predicate Goes(s: State, es: seq<Event>, t: State) { s.hist != [] && Runs(s, es) && t == Run(s, es) }

  lemma Go(s0: State, es: seq<Event>, s: State, e: Event) returns (es': seq<Event>, t: State)
    requires Goes(s0, es, s) && s.hist != [] && Enabled(s, e)
    ensures Goes(s0, es', t) && t == Apply(s, e)
  {
    assert [e][1..] == [];
    RunConcat(s0, es, [e]);
    es', t := es + [e], Apply(s, e);
  }

  // ---- What holds in every run.

  /** The phase reached by making one read at each moment of the trail. */
  function Replay(engine: Engine, hist: seq<Moment>, trail: seq<nat>, ip: string, domain: string): Phase
    requires forall i | 0 <= i < |trail| :: trail[i] < |hist|
    decreases |trail|
  {
    if trail == [] then Start
    else
      var n := |trail| - 1;
      engine(Replay(engine, hist, trail[..n], ip, domain), hist[trail[n]], ip, domain)
  }

  predicate Moments(s: State) {
    && s.hist != []
    && forall i | 0 <= i < |s.hist| :: s.hist[i].now <= Now(s)
  }

  /** Every read was made at a known moment, at or after moment `lo` and time `since`. */
  predicate TrailFrom(s: State, trail: seq<nat>, lo: nat, since: nat) {
    forall i | 0 <= i < |trail| :: lo <= trail[i] < |s.hist| && since <= s.hist[trail[i]].now
  }

  predicate StampKnown(s: State, st: Stamp) {
    && st.startMoment < |s.hist|
    && s.hist[st.startMoment].now == st.startedAt
    && st.era <= |Log(s, st.ip)|
    && forall k | 0 <= k < st.era :: Log(s, st.ip)[k].moment <= st.startMoment
  }

  predicate CheckOk(s: State, c: Check)
    requires s.hist != []
  {
    && StampKnown(s, c.stamp)
    && TrailFrom(s, c.trail, c.stamp.startMoment, c.stamp.startedAt)
    && (c.stage.Reading? ==> c.stage.phase == Replay(s.engine, s.hist, c.trail, c.stamp.ip, c.domain))
    && Now(s) <= c.stamp.startedAt + s.maxCheck
  }

  predicate EntryOk(s: State, key: Key, e: Entry) {
    && StampKnown(s, e.stamp)
    && TrailFrom(s, e.trail, e.stamp.startMoment, e.stamp.startedAt)
    && Replay(s.engine, s.hist, e.trail, e.stamp.ip, e.domain) == Decided(e.response)
    && key == KeyOf(e.stamp, e.domain)
    && e.expiry <= e.stamp.startedAt + s.maxCheck + DECISION_TTL
  }

  /** A reply is what the engine gives on its reads, all of them made in the last D + 30 s. */
  predicate ReplyOk(s: State, r: Reply) {
    && StampKnown(s, r.stamp)
    && TrailFrom(s, r.trail, 0, 0)
    && Replay(s.engine, s.hist, r.trail, r.stamp.ip, r.domain) == Decided(r.response)
    && (forall i | 0 <= i < |r.trail| ::
          s.hist[r.trail[i]].now <= r.at <= s.hist[r.trail[i]].now + s.maxCheck + DECISION_TTL)
    && r.stamp.startedAt <= r.at
  }

  ghost predicate Base(s: State) {
    && Moments(s)
    && (forall ip, k | 0 <= k < |Log(s, ip)| :: Log(s, ip)[k].moment < |s.hist|)
    && (forall c | c in s.checks :: CheckOk(s, s.checks[c]))
    && (forall key | key in s.decisions :: EntryOk(s, key, s.decisions[key]))
    && (forall c | c in s.replies :: ReplyOk(s, s.replies[c]))
  }

  /** Histories only grow. */
  ghost predicate Grows(s: State, t: State) {
    && s.engine == t.engine && s.maxCheck == t.maxCheck
    && s.hist <= t.hist
    && (forall ip :: Log(s, ip) <= Log(t, ip))
  }

  lemma {:induction false} ReplayGrows(engine: Engine, h: seq<Moment>, g: seq<Moment>, trail: seq<nat>, ip: string, domain: string)
    requires h <= g
    requires forall i | 0 <= i < |trail| :: trail[i] < |h|
    ensures Replay(engine, h, trail, ip, domain) == Replay(engine, g, trail, ip, domain)
    decreases |trail|
  {
    if trail != [] {
      ReplayGrows(engine, h, g, trail[..|trail| - 1], ip, domain);
    }
  }

  lemma KnownPersists(s: State, t: State, st: Stamp, trail: seq<nat>, domain: string)
    requires Grows(s, t)
    requires StampKnown(s, st)
    requires forall i | 0 <= i < |trail| :: trail[i] < |s.hist|
    ensures StampKnown(t, st)
    ensures Replay(t.engine, t.hist, trail, st.ip, domain) == Replay(s.engine, s.hist, trail, st.ip, domain)
  {
    assert Log(s, st.ip) <= Log(t, st.ip);
    ReplayGrows(s.engine, s.hist, t.hist, trail, st.ip, domain);
  }

  lemma ApplyGrows(s: State, e: Event)
    requires Moments(s) && Enabled(s, e)
    ensures Grows(s, Apply(s, e)) && Moments(Apply(s, e))
  {
  }

  lemma {:induction false} BasePreserved(s: State, e: Event)
    requires Base(s) && Enabled(s, e)
    ensures Base(Apply(s, e))
  {
    var t := Apply(s, e);
    ApplyGrows(s, e);
    LogsStayKnown(s, e);
    forall c | c in t.checks ensures CheckOk(t, t.checks[c]) {
      ChecksStayOk(s, e, c);
    }
    forall key | key in t.decisions ensures EntryOk(t, key, t.decisions[key]) {
      EntriesStayOk(s, e, key);
    }
    forall c | c in t.replies ensures ReplyOk(t, t.replies[c]) {
      RepliesStayOk(s, e, c);
    }
  }

  lemma LogsStayKnown(s: State, e: Event)
    requires CanStep(s, e)
    requires forall ip, k | 0 <= k < |Log(s, ip)| :: Log(s, ip)[k].moment < |s.hist|
    ensures forall ip, k | 0 <= k < |Log(Apply(s, e), ip)| :: Log(Apply(s, e), ip)[k].moment < |Apply(s, e).hist|
  {
    var t := Apply(s, e);
    forall ip, k | 0 <= k < |Log(t, ip)| ensures Log(t, ip)[k].moment < |t.hist| {
      assert k < |Log(s, ip)| ==> Log(t, ip)[k] == Log(s, ip)[k];
    }
  }

  lemma CheckKept(s: State, t: State, c: Check)
    requires s.hist != [] && CheckOk(s, c)
    requires Grows(s, t) && t.hist != [] && Now(t) <= c.stamp.startedAt + t.maxCheck
    ensures CheckOk(t, c)
  {
    KnownPersists(s, t, c.stamp, c.trail, c.domain);
  }

  /** One more read keeps a check honest. */
  lemma CheckReads(s: State, c: Check)
    requires Moments(s) && CheckOk(s, c) && c.stage.Reading?
    ensures CheckOk(s, AfterRead(s, c))
  {
    assert (c.trail + [Last(s)])[..|c.trail|] == c.trail;
    assert s.hist[c.stamp.startMoment].now <= Now(s);
  }

  lemma ChecksStayOk(s: State, e: Event, c: nat)
    requires CanStep(s, e) && c in Apply(s, e).checks
    requires Moments(s)
    requires forall k | k in s.checks :: CheckOk(s, s.checks[k])
    requires forall ip, k | 0 <= k < |Log(s, ip)| :: Log(s, ip)[k].moment < |s.hist|
    ensures CheckOk(Apply(s, e), Apply(s, e).checks[c])
  {
    var t := Apply(s, e);
    ApplyGrows(s, e);
    match e
    case Read(d) =>
      if c == d {
        CheckReads(s, s.checks[c]);
      }
      CheckKept(s, t, t.checks[c]);
    case Miss(d) => CheckKept(s, t, t.checks[c]);
    case Begin(d, _, _) => CheckKept(s, t, t.checks[c]);
    case _ => CheckKept(s, t, s.checks[c]);
  }

  lemma EntryKept(s: State, t: State, key: Key, entry: Entry)
    requires EntryOk(s, key, entry) && Grows(s, t)
    ensures EntryOk(t, key, entry)
  {
    KnownPersists(s, t, entry.stamp, entry.trail, entry.domain);
  }

  lemma EntriesStayOk(s: State, e: Event, key: Key)
    requires CanStep(s, e) && key in Apply(s, e).decisions
    requires Moments(s)
    requires forall k | k in s.checks :: CheckOk(s, s.checks[k])
    requires forall k | k in s.decisions :: EntryOk(s, k, s.decisions[k])
    ensures EntryOk(Apply(s, e), key, Apply(s, e).decisions[key])
  {
    var t := Apply(s, e);
    ApplyGrows(s, e);
    match e
    case Store(c) =>
      assert CheckOk(s, s.checks[c]);
      EntryKept(s, t, key, t.decisions[key]);
    case _ =>
      EntryKept(s, t, key, s.decisions[key]);
  }

  lemma ReplyKept(s: State, t: State, r: Reply)
    requires ReplyOk(s, r) && Grows(s, t)
    ensures ReplyOk(t, r)
  {
    KnownPersists(s, t, r.stamp, r.trail, r.domain);
  }

  lemma HitReplyOk(s: State, d: nat)
    requires CanStep(s, Hit(d)) && Moments(s)
    requires CheckOk(s, s.checks[d])
    requires var key := KeyOf(s.checks[d].stamp, s.checks[d].domain); EntryOk(s, key, s.decisions[key])
    ensures ReplyOk(s, Apply(s, Hit(d)).replies[d])
  {
  }

  lemma StoreReplyOk(s: State, d: nat)
    requires CanStep(s, Store(d)) && Moments(s) && CheckOk(s, s.checks[d])
    ensures ReplyOk(s, Apply(s, Store(d)).replies[d])
  {
  }

  lemma RepliesStayOk(s: State, e: Event, c: nat)
    requires CanStep(s, e) && c in Apply(s, e).replies
    requires Moments(s)
    requires forall k | k in s.checks :: CheckOk(s, s.checks[k])
    requires forall k | k in s.decisions :: EntryOk(s, k, s.decisions[k])
    requires forall k | k in s.replies :: ReplyOk(s, s.replies[k])
    ensures ReplyOk(Apply(s, e), Apply(s, e).replies[c])
  {
    var t := Apply(s, e);
    ApplyGrows(s, e);
    match e
    case Hit(d) =>
      if c == d {
        HitReplyOk(s, d);
      }
      ReplyKept(s, t, t.replies[c]);
    case Store(d) =>
      if c == d {
        StoreReplyOk(s, d);
      }
      ReplyKept(s, t, t.replies[c]);
    case _ =>
      ReplyKept(s, t, s.replies[c]);
  }

  lemma {:induction false} BaseAlways(s: State, es: seq<Event>)
    requires Base(s) && Runs(s, es)
    ensures Base(Run(s, es)) && Grows(s, Run(s, es))
    decreases |es|
  {
    if es != [] {
      var t := Apply(s, es[0]);
      BasePreserved(s, es[0]);
      ApplyGrows(s, es[0]);
      BaseAlways(t, es[1..]);
      forall ip ensures Log(s, ip) <= Log(Run(s, es), ip) {
        assert Log(s, ip) <= Log(t, ip) <= Log(Run(t, es[1..]), ip);
      }
    }
  }
}
