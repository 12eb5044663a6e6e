/**
 * The service's text-keyed cache refines the state machine: with nothing in between, a check is
 * its Begin and Hit, or its Begin, Miss, reads and Store, with the same reply; an operation on a
 * device is its Write and the bumps of the row's IPs. So the results about all interleavings of
 * those steps are about these methods.
 */
module DnsRefinement {
  import opened Common
  import opened Rows
  import opened DnsPolicy
  import opened CacheKeys
  import opened DnsCache
  import opened DnsFresh
  import opened DnsChecks
  import opened DnsTheorems
  import DnsService

  type Cache = DnsService.Cache

  function TextOf(k: Key): string { CacheKey(k.ip, k.version, k.domain) }

  predicate Plain(k: Key) { ':' !in k.domain }

  type Versions = map<string, Counter>
  type Decisions = map<Key, Entry>

  /** Counters are stored under their version keys. */
  ghost predicate SameVersions(cache: Cache, versions: Versions) {
    && (forall ip :: VersionKey(ip) in cache <==> ip in versions)
    && (forall ip | ip in versions :: cache[VersionKey(ip)] == DnsService.Number(versions[ip].value, versions[ip].expiry))
  }

  /** Decisions for domains without a colon are stored under their text keys. */
  ghost predicate SameDecisions(cache: Cache, decisions: Decisions) {
    && (forall k | Plain(k) :: TextOf(k) in cache <==> k in decisions)
    && (forall k | Plain(k) && k in decisions ::
          cache[TextOf(k)] == DnsService.Decision(decisions[k].response, decisions[k].expiry))
  }

  ghost predicate Holds(cache: Cache, versions: Versions, decisions: Decisions) {
    SameVersions(cache, versions) && SameDecisions(cache, decisions)
  }

  /** The cache and the state hold the same counters and decisions, with the same expiry times. */
  ghost predicate Represents(cache: Cache, s: State) {
    s.hist != [] && Holds(cache, s.versions, s.decisions)
  }

  lemma TextOfInjective(k: Key, l: Key)
    requires Plain(k) && Plain(l) && TextOf(k) == TextOf(l)
    ensures k == l
  {
    CacheKeyInjective(k.ip, k.version, k.domain, l.ip, l.version, l.domain);
  }

  lemma VersionsAgree(cache: Cache, s: State, ip: string)
    requires Represents(cache, s)
    ensures DnsService.VersionIn(cache, Now(s), ip) == CurrentVersion(s, ip)
  {
    assert VersionKey(ip) in cache <==> ip in s.versions;
  }

  // ---- Writes to the cache.

  lemma VersionWritten(cache: Cache, versions: Versions, decisions: Decisions, ip: string, counter: Counter)
    requires Holds(cache, versions, decisions)
    ensures Holds(cache[VersionKey(ip) := DnsService.Number(counter.value, counter.expiry)], versions[ip := counter], decisions)
  {
    var cache', versions' := cache[VersionKey(ip) := DnsService.Number(counter.value, counter.expiry)], versions[ip := counter];
    forall x ensures VersionKey(x) in cache' <==> x in versions'
      ensures x in versions' ==> cache'[VersionKey(x)] == DnsService.Number(versions'[x].value, versions'[x].expiry)
    {
      if VersionKey(x) == VersionKey(ip) {
        DnsService.VersionKeyInjective(x, ip);
      }
    }
    forall k | Plain(k) ensures TextOf(k) != VersionKey(ip) {
      KeyFamiliesDisjoint(k.ip, k.version, k.domain, ip);
    }
  }

  lemma DeviceIdWritten(cache: Cache, versions: Versions, decisions: Decisions, ip: string, item: DnsService.Item)
    requires Holds(cache, versions, decisions)
    ensures Holds(cache[DeviceIdKey(ip) := item], versions, decisions)
  {
    forall k | Plain(k) ensures TextOf(k) != DeviceIdKey(ip) {
      KeyFamiliesDisjoint(k.ip, k.version, k.domain, ip);
    }
    forall x ensures VersionKey(x) != DeviceIdKey(ip) {
      assert VersionKey(x)[3] == 'v' && DeviceIdKey(ip)[3] == 'd';
    }
  }

  lemma DecisionWritten(cache: Cache, versions: Versions, decisions: Decisions, k: Key, entry: Entry)
    requires Holds(cache, versions, decisions) && Plain(k)
    ensures Holds(cache[TextOf(k) := DnsService.Decision(entry.response, entry.expiry)], versions, decisions[k := entry])
  {
    var cache', decisions' := cache[TextOf(k) := DnsService.Decision(entry.response, entry.expiry)], decisions[k := entry];
    forall x ensures VersionKey(x) != TextOf(k) {
      KeyFamiliesDisjoint(k.ip, k.version, k.domain, x);
    }
    forall l | Plain(l) ensures TextOf(l) in cache' <==> l in decisions'
      ensures l in decisions' ==> cache'[TextOf(l)] == DnsService.Decision(decisions'[l].response, decisions'[l].expiry)
    {
      if TextOf(l) == TextOf(k) {
        TextOfInjective(l, k);
      }
    }
  }

  // ---- Bumps and operations.

  /** The state after both halves of a bump. */
  lemma BumpedState(s: State, w: nat, ip: string)
    requires s.hist != [] && w !in s.pending
    ensures Enabled(s, BumpGet(w, ip)) && Enabled(Apply(s, BumpGet(w, ip)), BumpSet(w))
    ensures var t := Apply(Apply(s, BumpGet(w, ip)), BumpSet(w));
      && t.versions == s.versions[ip := Counter(CurrentVersion(s, ip) + 1, Now(s) + VERSION_TTL)]
      && t.decisions == s.decisions && t.hist == s.hist && t.pending == s.pending
      && t.bumps == s.bumps[ip := Log(s, ip) + [Bump(Now(s), Last(s))]]
  {
    assert Apply(Apply(s, BumpGet(w, ip)), BumpSet(w)).pending == s.pending;
  }

  lemma BumpHolds(cache: Cache, s: State, ip: string)
    requires Represents(cache, s)
    ensures Holds(DnsService.Bumped(cache, Now(s), ip),
                  s.versions[ip := Counter(CurrentVersion(s, ip) + 1, Now(s) + VERSION_TTL)], s.decisions)
  {
    VersionsAgree(cache, s, ip);
    VersionWritten(cache, s.versions, s.decisions, ip, Counter(CurrentVersion(s, ip) + 1, Now(s) + VERSION_TTL));
  }

  predicate Real(ip: Option<string>) { ip.Some? && ip.value != "" }

  /** Invalidating a list of IPs: for each that is not null or empty, one read and one write of its counter. */
  function BumpEvents(w: nat, ips: seq<Option<string>>): seq<Event> {
    if ips == [] then []
    else
      var ip := ips[|ips| - 1];
      BumpEvents(w, ips[..|ips| - 1]) + OneBump(w, ip)
  }

  /** Each listed IP's log has grown, and logs grew only by bumps at the present moment. */
  ghost predicate Bumps(s: State, t: State, ips: seq<Option<string>>) {
    && s.hist != []
    && (forall ip :: Log(s, ip) <= Log(t, ip))
    && (forall ip, k | |Log(s, ip)| <= k < |Log(t, ip)| :: Log(t, ip)[k].moment == Last(s))
    && (forall ip | Some(ip) in ips && ip != "" :: |Log(s, ip)| < |Log(t, ip)|)
  }

  lemma BumpRefines(cache: Cache, s: State, w: nat, ip: string) returns (t: State)
    requires Represents(cache, s) && w !in s.pending
    ensures Goes(s, [BumpGet(w, ip), BumpSet(w)], t) && Represents(DnsService.Bumped(cache, Now(s), ip), t)
    ensures t.hist == s.hist && t.pending == s.pending
    ensures t.bumps == s.bumps[ip := Log(s, ip) + [Bump(Now(s), Last(s))]]
  {
    BumpedState(s, w, ip);
    BumpHolds(cache, s, ip);
    GoesTwo(s, BumpGet(w, ip), BumpSet(w));
    t := Apply(Apply(s, BumpGet(w, ip)), BumpSet(w));
  }

  lemma OneMoreBump(s: State, t: State, u: State, ips: seq<Option<string>>, ip: string)
    requires Bumps(s, t, ips) && t.hist == s.hist
    requires u.bumps == t.bumps[ip := Log(t, ip) + [Bump(Now(t), Last(t))]]
    ensures Bumps(s, u, ips + [Some(ip)])
  {
    forall x ensures Log(u, x) == if x == ip then Log(t, ip) + [Bump(Now(t), Last(t))] else Log(t, x) {}
    forall x ensures Log(s, x) <= Log(u, x) { assert Log(s, x) <= Log(t, x) <= Log(u, x); }
    forall x, k | |Log(s, x)| <= k < |Log(u, x)| ensures Log(u, x)[k].moment == Last(s) {
      assert k < |Log(t, x)| ==> Log(u, x)[k] == Log(t, x)[k];
    }
  }

  lemma OneMoreSkipped(s: State, t: State, ips: seq<Option<string>>, ip: Option<string>)
    requires Bumps(s, t, ips) && !Real(ip)
    ensures Bumps(s, t, ips + [ip])
  {
  }

  function OneBump(w: nat, ip: Option<string>): seq<Event> {
    if Real(ip) then [BumpGet(w, ip.value), BumpSet(w)] else []
  }

  function AfterOne(cache: Cache, now: nat, ip: Option<string>): Cache {
    if Real(ip) then DnsService.Bumped(cache, now, ip.value) else cache
  }

  lemma BumpAllSnoc(cache: Cache, now: nat, front: seq<Option<string>>, ip: Option<string>)
    ensures DnsService.BumpAll(cache, now, front + [ip]) == AfterOne(DnsService.BumpAll(cache, now, front), now, ip)
  {
    assert (front + [ip])[..|front|] == front;
  }

  lemma RunOneMore(s: State, t: State, u: State, w: nat, front: seq<Option<string>>, ip: Option<string>)
    requires Goes(s, BumpEvents(w, front), t) && Goes(t, OneBump(w, ip), u)
    ensures Goes(s, BumpEvents(w, front + [ip]), u)
  {
    assert (front + [ip])[..|front|] == front;
    GoesConcat(s, BumpEvents(w, front), t, OneBump(w, ip), u);
  }

  lemma OneBumpHolds(cache: Cache, s: State, w: nat, ip: Option<string>, now: nat) returns (t: State)
    requires Represents(cache, s) && w !in s.pending && now == Now(s)
    ensures Goes(s, OneBump(w, ip), t) && Represents(AfterOne(cache, now, ip), t) && t.hist == s.hist && t.pending == s.pending
  {
    t := s;
    if Real(ip) {
      t := BumpRefines(cache, s, w, ip.value);
    }
  }

  lemma OneBumpBumps(s: State, t: State, w: nat, front: seq<Option<string>>, ip: Option<string>) returns (u: State)
    requires Bumps(s, t, front) && t.hist == s.hist && w !in t.pending
    ensures Goes(t, OneBump(w, ip), u) && u.hist == t.hist && u.pending == t.pending && Bumps(s, u, front + [ip])
  {
    u := t;
    if Real(ip) {
      BumpedState(t, w, ip.value);
      GoesTwo(t, BumpGet(w, ip.value), BumpSet(w));
      u := Apply(Apply(t, BumpGet(w, ip.value)), BumpSet(w));
      OneMoreBump(s, t, u, front, ip.value);
    } else {
      OneMoreSkipped(s, t, front, ip);
    }
  }

  /** The run of bumps that invalidates a list, and what it does to the logs. */
  lemma {:induction false} InvalidationBumps(s: State, w: nat, ips: seq<Option<string>>) returns (t: State)
    requires s.hist != [] && w !in s.pending
    ensures Goes(s, BumpEvents(w, ips), t) && t.hist == s.hist && t.pending == s.pending && Bumps(s, t, ips)
    decreases |ips|
  {
    t := s;
    if ips != [] {
      var front, ip := ips[..|ips| - 1], ips[|ips| - 1];
      assert ips == front + [ip];
      var t1 := InvalidationBumps(s, w, front);
      t := OneBumpBumps(s, t1, w, front, ip);
      RunOneMore(s, t1, t, w, front, ip);
    }
  }

  /** Where that run leads, the cache after the loop is the corresponding one. */
  lemma {:induction false} InvalidationHolds(cache: Cache, s: State, w: nat, ips: seq<Option<string>>, now: nat) returns (t: State)
    requires Represents(cache, s) && w !in s.pending && now == Now(s)
    ensures Goes(s, BumpEvents(w, ips), t) && t.hist == s.hist && t.pending == s.pending
    ensures Represents(DnsService.BumpAll(cache, now, ips), t)
    decreases |ips|
  {
    t := s;
    if ips != [] {
      var front, ip := ips[..|ips| - 1], ips[|ips| - 1];
      assert ips == front + [ip];
      var t1 := InvalidationHolds(cache, s, w, front, now);
      BumpAllSnoc(cache, now, front, ip);
      t := OneBumpHolds(DnsService.BumpAll(cache, now, front), t1, w, ip, now);
      RunOneMore(s, t1, t, w, front, ip);
    }
  }

  /** Invalidating a list of IPs is exactly that run of bumps, and leaves the corresponding cache. */
  lemma InvalidationRefines(cache: Cache, s: State, w: nat, ips: seq<Option<string>>) returns (t: State)
    requires Represents(cache, s) && w !in s.pending
    ensures Goes(s, BumpEvents(w, ips), t) && Represents(DnsService.BumpAll(cache, Now(s), ips), t)
    ensures t.hist == s.hist && t.pending == s.pending && Bumps(s, t, ips)
  {
    t := InvalidationHolds(cache, s, w, ips, Now(s));
    var u := InvalidationBumps(s, w, ips);
    assert u == t;
  }

  /** A successful operation: one database write, then the bumps of the row's IPs. */
  function OperationEvents(db: Db, w: nat, row: Device): seq<Event> { [Write(db)] + BumpEvents(w, DnsService.IpsOf(row)) }

  /** A lock, unlock, block or unblock that succeeds is exactly that run. */
  lemma OperationRefines(v: DnsService.StoreView, s: State, w: nat, id: nat, parentId: Option<nat>, c: DnsService.Change)
    returns (t: State)
    requires Represents(v.cache, s) && s.hist[Last(s)].db == v.db && w !in s.pending
    requires DnsService.Operated(v, Now(s), id, parentId, c).0.Ok?
    ensures var after := DnsService.Operated(v, Now(s), id, parentId, c);
      && Goes(s, OperationEvents(after.1.db, w, after.0.value), t) && Represents(after.1.cache, t)
      && t.hist == s.hist + [Moment(Now(s), after.1.db)]
      && Bumps(Apply(s, Write(after.1.db)), t, DnsService.IpsOf(after.0.value))
  {
    var after := DnsService.Operated(v, Now(s), id, parentId, c);
    var s1 := Apply(s, Write(after.1.db));
    GoesOne(s, Write(after.1.db));
    t := InvalidationRefines(v.cache, s1, w, DnsService.IpsOf(after.0.value));
    GoesConcat(s, [Write(after.1.db)], s1, BumpEvents(w, DnsService.IpsOf(after.0.value)), t);
  }

  // ---- Checks.

  /** The lookup under the current version finds in the text cache what the state machine's check finds. */
  lemma LookupsAgree(cache: Cache, s: State, ip: string, domain: string)
    requires Represents(cache, s) && ':' !in domain
    ensures
      var k := Key(ip, CurrentVersion(s, ip), domain);
      var hit := DnsService.Get(cache, Now(s), CacheKey(ip, DnsService.VersionIn(cache, Now(s), ip), domain));
      && (hit.Some? && hit.value.Decision? <==> k in s.decisions && Now(s) < s.decisions[k].expiry)
      && (hit.Some? && hit.value.Decision? ==> hit.value.response == s.decisions[k].response)
  {
    VersionsAgree(cache, s, ip);
    var k := Key(ip, CurrentVersion(s, ip), domain);
    assert Plain(k) && TextOf(k) == CacheKey(ip, DnsService.VersionIn(cache, Now(s), ip), domain);
    assert TextOf(k) in cache <==> k in s.decisions;
  }

  predicate Hits(s: State, ip: string, domain: string)
    requires s.hist != []
  {
    var k := Key(ip, CurrentVersion(s, ip), domain);
    k in s.decisions && Now(s) < s.decisions[k].expiry
  }

  /** The steps of a check: a hit, or a miss with `n` reads. */
  function CheckEvents(c: nat, ip: string, domain: string, hits: bool, n: nat): seq<Event> {
    if hits then [Begin(c, ip, domain), Hit(c)] else [Begin(c, ip, domain), Miss(c)] + (Reads(c, n) + [Store(c)])
  }

  lemma HitRefines(cache: Cache, s: State, c: nat, ip: string, domain: string) returns (t: State)
    requires Represents(cache, s) && c !in s.checks && c !in s.replies && Hits(s, ip, domain)
    ensures Goes(s, CheckEvents(c, ip, domain, true, 0), t) && Represents(cache, t) && t.hist == s.hist
    ensures c in t.replies && t.replies[c].response == s.decisions[Key(ip, CurrentVersion(s, ip), domain)].response
    ensures t.replies[c].stamp.ip == ip && t.replies[c].domain == domain && t.replies[c].at == Now(s)
  {
    HitState(s, c, ip, domain);
    GoesTwo(s, Begin(c, ip, domain), Hit(c));
    t := Apply(Apply(s, Begin(c, ip, domain)), Hit(c));
  }

  lemma MissBegins(s: State, c: nat, ip: string, domain: string) returns (t: State, stamp: Stamp)
    requires s.hist != [] && c !in s.checks && c !in s.replies && !Hits(s, ip, domain)
    ensures Goes(s, [Begin(c, ip, domain), Miss(c)], t)
    ensures t.hist == s.hist && t.versions == s.versions && t.decisions == s.decisions && t.engine == s.engine
    ensures AtPhase(t, c, stamp, domain, Start) && KeyOf(stamp, domain) == Key(ip, CurrentVersion(s, ip), domain)
  {
    var s1 := Apply(s, Begin(c, ip, domain));
    GoesTwo(s, Begin(c, ip, domain), Miss(c));
    stamp := s1.checks[c].stamp;
    t := Apply(s1, Miss(c));
  }

  /** What a miss writes, in both caches. */
  lemma RememberRefines(cache: Cache, s: State, t: State, device: Option<Device>, k: Key, r: Response)
    requires Represents(cache, s) && Plain(k) && t.hist != [] && t.versions == s.versions && k in t.decisions
    requires t.decisions == s.decisions[k := t.decisions[k]]
    requires t.decisions[k].response == r && t.decisions[k].expiry == Now(s) + DECISION_TTL
    ensures Represents(DnsService.Remember(cache, Now(s), device, k.ip, TextOf(k), r), t)
  {
    var withId := cache;
    if device.Some? {
      var item := DnsService.DeviceId(device.value.id, Now(s) + DECISION_TTL);
      withId := cache[DeviceIdKey(k.ip) := item];
      DeviceIdWritten(cache, s.versions, s.decisions, k.ip, item);
    }
    DecisionWritten(withId, s.versions, s.decisions, k, t.decisions[k]);
  }

  /** A miss up to its decision. */
  lemma MissDecides(s: State, c: nat, ip: string, domain: string, r: Response) returns (n: nat, t: State, stamp: Stamp)
    requires s.hist != [] && c !in s.checks && c !in s.replies && !Hits(s, ip, domain)
    requires After(s.engine, Start, s.hist[Last(s)], ip, domain, 5) == Decided(r)
    ensures n <= 5 && Goes(s, [Begin(c, ip, domain), Miss(c)] + Reads(c, n), t)
    ensures t.hist == s.hist && t.versions == s.versions && t.decisions == s.decisions
    ensures AtPhase(t, c, stamp, domain, Decided(r)) && KeyOf(stamp, domain) == Key(ip, CurrentVersion(s, ip), domain)
  {
    var s1;
    s1, stamp := MissBegins(s, c, ip, domain);
    n, t := ReadsLead(s1, c, stamp, domain, Start, 5);
    GoesConcat(s, [Begin(c, ip, domain), Miss(c)], s1, Reads(c, n), t);
  }

  /** The step that stores the decision. */
  lemma StoreRefines(cache: Cache, device: Option<Device>, s: State, c: nat, stamp: Stamp, domain: string, r: Response,
                     now: nat, ip: string, version: nat)
    returns (t: State)
    requires Represents(cache, s) && AtPhase(s, c, stamp, domain, Decided(r)) && ':' !in domain
    requires now == Now(s) && ip == stamp.ip && version == stamp.version
    ensures CanStep(s, Store(c)) && t == Apply(s, Store(c)) && t.hist == s.hist
    ensures Represents(DnsService.Remember(cache, now, device, ip, CacheKey(ip, version, domain), r), t)
    ensures c in t.replies && t.replies[c].response == r
    ensures t.replies[c].stamp.ip == ip && t.replies[c].domain == domain && t.replies[c].at == now
  {
    StoredState(s, c, stamp, domain, r);
    t := Apply(s, Store(c));
    RememberRefines(cache, s, t, device, KeyOf(stamp, domain), r);
  }

  /** Where counters and decisions are the same the cache corresponds as before. */
  lemma StillRepresents(cache: Cache, s: State, t: State)
    requires Represents(cache, s) && t.hist == s.hist && t.versions == s.versions && t.decisions == s.decisions
    ensures Represents(cache, t)
  {
  }

  lemma MissRefines(cache: Cache, device: Option<Device>, s: State, c: nat, ip: string, domain: string, r: Response)
    returns (n: nat, t: State)
    requires Represents(cache, s) && ':' !in domain && c !in s.checks && c !in s.replies && !Hits(s, ip, domain)
    requires After(s.engine, Start, s.hist[Last(s)], ip, domain, 5) == Decided(r)
    ensures n <= 5 && Goes(s, CheckEvents(c, ip, domain, false, n), t) && t.hist == s.hist
    ensures Represents(DnsService.Remember(cache, Now(s), device, ip, CacheKey(ip, CurrentVersion(s, ip), domain), r), t)
    ensures c in t.replies && t.replies[c].response == r
    ensures t.replies[c].stamp.ip == ip && t.replies[c].domain == domain && t.replies[c].at == Now(s)
  {
    var s2, stamp;
    n, s2, stamp := MissDecides(s, c, ip, domain, r);
    StillRepresents(cache, s, s2);
    t := StoreRefines(cache, device, s2, c, stamp, domain, r, Now(s), ip, CurrentVersion(s, ip));
    MissRuns(s, c, ip, domain, n, s2, t);
  }

  lemma MissRuns(s: State, c: nat, ip: string, domain: string, n: nat, s2: State, t: State)
    requires Goes(s, [Begin(c, ip, domain), Miss(c)] + Reads(c, n), s2) && CanStep(s2, Store(c)) && t == Apply(s2, Store(c))
    ensures Goes(s, CheckEvents(c, ip, domain, false, n), t)
  {
    GoesOne(s2, Store(c));
    GoesConcat(s, [Begin(c, ip, domain), Miss(c)] + Reads(c, n), s2, [Store(c)], t);
    assert [Begin(c, ip, domain), Miss(c)] + Reads(c, n) + [Store(c)] == CheckEvents(c, ip, domain, false, n);
  }

  /**
   * A check of a domain without a colon: from corresponding caches the service and the state
   * machine give the same reply, to that IP about that domain, and leave corresponding caches.
   */
  lemma CheckRefines(strict: seq<string>, v: DnsService.StoreView, s: State, c: nat, ip: string, domain: string)
    returns (n: nat, t: State)
    requires Represents(v.cache, s) && s.hist[Last(s)].db == v.db && s.engine == PolicyEngine(strict) && ':' !in domain
    requires c !in s.checks && c !in s.replies
    ensures var result := DnsService.Checked(strict, v, Now(s), ip, domain);
      && n <= 5 && Goes(s, CheckEvents(c, ip, domain, Hits(s, ip, domain), n), t) && t.hist == s.hist
      && Represents(result.1, t)
      && c in t.replies && t.replies[c].response == result.0
      && t.replies[c].stamp.ip == ip && t.replies[c].domain == domain && t.replies[c].at == Now(s)
  {
    LookupsAgree(v.cache, s, ip, domain);
    VersionsAgree(v.cache, s, ip);
    if Hits(s, ip, domain) {
      n := 0;
      t := HitRefines(v.cache, s, c, ip, domain);
    } else {
      FiveReadsDecide(strict, s.hist[Last(s)], ip, domain);
      n, t := MissRefines(v.cache, FindDevice(v.db.devices, ip), s, c, ip, domain, Uncached(strict, v.db, Now(s), ip, domain));
    }
  }

  // ---- End to end.

  /** The row an operation leaves is found, locked or blocked, by the IPs that found it before. */
  lemma OperatedRowIsFound(v: DnsService.StoreView, now: nat, d: Device, parentId: Option<nat>, c: DnsService.Change, ip: string)
    requires FindById(v.db.devices, d.id) == Some(d) && FindDevice(v.db.devices, ip) == Some(d)
    requires forall a | a in v.db.devices && a.id == d.id :: a == d
    requires c.Lock? || c == DnsService.SetStatus(BLOCKED)
    requires DnsService.Operated(v, now, d.id, parentId, c).0.Ok?
    ensures var found := FindDevice(DnsService.Operated(v, now, d.id, parentId, c).1.db.devices, ip);
      found.Some? && (found.value.internetLocked || found.value.status == BLOCKED)
  {
    DnsService.FindAfterPut(v.db.devices, d, DnsService.Changed(d, c), ip);
  }

  /** The bump of one of the row's IPs rests on the moment of the write. */
  lemma OperationBumped(v: DnsService.StoreView, s: State, t: State, d: Device, parentId: Option<nat>, c: DnsService.Change, ip: string)
    requires s.hist != [] && ip != "" && FindById(v.db.devices, d.id) == Some(d) && FindDevice(v.db.devices, ip) == Some(d)
    requires DnsService.Operated(v, Now(s), d.id, parentId, c).0.Ok?
    requires var after := DnsService.Operated(v, Now(s), d.id, parentId, c);
      Bumps(Apply(s, Write(after.1.db)), t, DnsService.IpsOf(after.0.value))
    ensures |Log(s, ip)| < |Log(t, ip)| && Log(t, ip)[|Log(s, ip)|].moment == |s.hist|
  {
    var after := DnsService.Operated(v, Now(s), d.id, parentId, c);
    var ips := DnsService.IpsOf(after.0.value);
    assert Some(ip) in ips by {
      assert ips[0] == d.ipAddress && ips[1] == d.dnsSourceIp && ips[2] == d.ipv6Address;
    }
    assert Log(Apply(s, Write(after.1.db)), ip) == Log(s, ip);
  }

  /** After any successful operation, of whatever kind, later checks are answered from reads that have seen its write. */
  lemma OperationIsSeen(
      strict: seq<string>, maxCheck: nat, v: DnsService.StoreView, s: State, w: nat,
      d: Device, parentId: Option<nat>, change: DnsService.Change, ip: string,
      t: State, later: seq<Event>, u: State, c: nat, domain: string, rest: seq<Event>, end: State)
    returns (r: ReadTimes)
    requires maxCheck + DECISION_TTL <= VERSION_TTL && Reachable(strict, maxCheck, s)
    requires Represents(v.cache, s) && s.hist[Last(s)].db == v.db && w !in s.pending
    requires FindById(v.db.devices, d.id) == Some(d) && FindDevice(v.db.devices, ip) == Some(d) && ip != ""
    requires DnsService.Operated(v, Now(s), d.id, parentId, change).0.Ok?
    requires var after := DnsService.Operated(v, Now(s), d.id, parentId, change);
      Leads(s, OperationEvents(after.1.db, w, after.0.value), t)
    requires Leads(t, later, u) && u.hist != [] && Enabled(u, Begin(c, ip, domain))
    requires Leads(Apply(u, Begin(c, ip, domain)), rest, end) && c in end.replies
    ensures FreshReply(strict, end, c, ip, |s.hist|, r)
    ensures s.hist + [Moment(Now(s), DnsService.Operated(v, Now(s), d.id, parentId, change).1.db)] <= end.hist
  {
    var after := DnsService.Operated(v, Now(s), d.id, parentId, change);
    ReachableInv(strict, maxCheck, s);
    var t' := OperationRefines(v, s, w, d.id, parentId, change);
    assert t' == t;
    OperationBumped(v, s, t, d, parentId, change, ip);
    LeadsKeeps(s, OperationEvents(after.1.db, w, after.0.value), t);
    r := FreshAfterBump(strict, t, ip, |Log(s, ip)|, later, u, c, domain, rest, end);
  }

  /**
   * The parent's promise, end to end. A lock or block of the device that `ip` resolves to succeeds
   * on the service's cache. Then every check of `ip` that begins later is answered BLOCK, whatever
   * other requests interleave, for as long as every later database shows the device locked or blocked.
   */
  lemma OperationIsEnforced(
      strict: seq<string>, maxCheck: nat, v: DnsService.StoreView, s: State, w: nat,
      d: Device, parentId: Option<nat>, change: DnsService.Change, ip: string,
      t: State, later: seq<Event>, u: State, c: nat, domain: string, rest: seq<Event>, end: State)
    requires maxCheck + DECISION_TTL <= VERSION_TTL && Reachable(strict, maxCheck, s)
    requires Represents(v.cache, s) && s.hist[Last(s)].db == v.db && w !in s.pending
    requires FindById(v.db.devices, d.id) == Some(d) && FindDevice(v.db.devices, ip) == Some(d) && ip != ""
    requires forall a | a in v.db.devices && a.id == d.id :: a == d
    requires change.Lock? || change == DnsService.SetStatus(BLOCKED)
    requires DnsService.Operated(v, Now(s), d.id, parentId, change).0.Ok?
    requires var after := DnsService.Operated(v, Now(s), d.id, parentId, change);
      Leads(s, OperationEvents(after.1.db, w, after.0.value), t)
    requires Leads(t, later, u) && u.hist != [] && Enabled(u, Begin(c, ip, domain))
    requires Leads(Apply(u, Begin(c, ip, domain)), rest, end) && c in end.replies
    requires StaysLocked(end.hist, |s.hist| + 1, ip)
    ensures end.replies[c].response.action == BLOCK
  {
    var after := DnsService.Operated(v, Now(s), d.id, parentId, change);
    var r := OperationIsSeen(strict, maxCheck, v, s, w, d, parentId, change, ip, t, later, u, c, domain, rest, end);
    OperatedRowIsFound(v, Now(s), d, parentId, change, ip);
    LockedFromTheWrite(s.hist, Moment(Now(s), after.1.db), end.hist, ip);
    FreshReplyIsBlock(strict, end, c, ip, |s.hist|, r);
  }

  lemma LiftedRowIsFound(v: DnsService.StoreView, now: nat, d: Device, parentId: Option<nat>, c: DnsService.Change, ip: string)
    requires FindById(v.db.devices, d.id) == Some(d) && FindDevice(v.db.devices, ip) == Some(d)
    requires forall a | a in v.db.devices && a.id == d.id :: a == d
    requires (c.Unlock? && d.status != BLOCKED) || (c == DnsService.SetStatus(ONLINE) && !d.internetLocked)
    requires DnsService.Operated(v, now, d.id, parentId, c).0.Ok?
    ensures var found := FindDevice(DnsService.Operated(v, now, d.id, parentId, c).1.db.devices, ip);
      found.Some? && !found.value.internetLocked && found.value.status != BLOCKED
  {
    DnsService.FindAfterPut(v.db.devices, d, DnsService.Changed(d, c), ip);
  }

  /**
   * The other promise: once an unlock or unblock has succeeded, no check begun later from an IP of the row
   * is refused for the lock or the manual block, as long as later databases show the device free of both.
   */
  lemma OperationIsLifted(
      strict: seq<string>, maxCheck: nat, v: DnsService.StoreView, s: State, w: nat,
      d: Device, parentId: Option<nat>, change: DnsService.Change, ip: string,
      t: State, later: seq<Event>, u: State, c: nat, domain: string, rest: seq<Event>, end: State)
    requires maxCheck + DECISION_TTL <= VERSION_TTL && Reachable(strict, maxCheck, s)
    requires Represents(v.cache, s) && s.hist[Last(s)].db == v.db && w !in s.pending
    requires FindById(v.db.devices, d.id) == Some(d) && FindDevice(v.db.devices, ip) == Some(d) && ip != ""
    requires forall a | a in v.db.devices && a.id == d.id :: a == d
    requires (change.Unlock? && d.status != BLOCKED) || (change == DnsService.SetStatus(ONLINE) && !d.internetLocked)
    requires DnsService.Operated(v, Now(s), d.id, parentId, change).0.Ok?
    requires var after := DnsService.Operated(v, Now(s), d.id, parentId, change);
      Leads(s, OperationEvents(after.1.db, w, after.0.value), t)
    requires Leads(t, later, u) && u.hist != [] && Enabled(u, Begin(c, ip, domain))
    requires Leads(Apply(u, Begin(c, ip, domain)), rest, end) && c in end.replies
    requires StaysFree(end.hist, |s.hist| + 1, ip)
    ensures end.replies[c].response.reason != Some(INTERNET_LOCKED) && end.replies[c].response.reason != Some(MANUAL_BLOCK)
  {
    var after := DnsService.Operated(v, Now(s), d.id, parentId, change);
    var r := OperationIsSeen(strict, maxCheck, v, s, w, d, parentId, change, ip, t, later, u, c, domain, rest, end);
    LiftedRowIsFound(v, Now(s), d, parentId, change, ip);
    FreeFromTheWrite(s.hist, Moment(Now(s), after.1.db), end.hist, ip);
    FreshReplyIsFree(strict, end, c, ip, |s.hist|, r);
  }

  lemma FreeFromTheWrite(before: seq<Moment>, written: Moment, hist: seq<Moment>, ip: string)
    requires before + [written] <= hist && StaysFree(hist, |before| + 1, ip)
    requires var d := FindDevice(written.db.devices, ip); d.None? || (!d.value.internetLocked && d.value.status != BLOCKED)
    ensures StaysFree(hist, |before|, ip)
  {
    assert (before + [written])[|before|] == written;
    assert hist[|before|] == written;
  }

  lemma LockedFromTheWrite(before: seq<Moment>, written: Moment, hist: seq<Moment>, ip: string)
    requires before + [written] <= hist && StaysLocked(hist, |before| + 1, ip)
    requires var d := FindDevice(written.db.devices, ip); d.Some? && (d.value.internetLocked || d.value.status == BLOCKED)
    ensures StaysLocked(hist, |before|, ip)
  {
    assert (before + [written])[|before|] == written;
    assert hist[|before|] == written;
  }

  /** The later half: a check begun after the k-th bump of its IP. */
  lemma FreshAfterBump(
      strict: seq<string>, t: State, ip: string, k: nat,
      later: seq<Event>, u: State, c: nat, domain: string, rest: seq<Event>, end: State)
    returns (r: ReadTimes)
    requires Inv(t) && t.engine == PolicyEngine(strict) && k < |Log(t, ip)|
    requires Leads(t, later, u) && u.hist != [] && Enabled(u, Begin(c, ip, domain))
    requires Leads(Apply(u, Begin(c, ip, domain)), rest, end) && c in end.replies
    ensures t.hist <= end.hist && FreshReply(strict, end, c, ip, Log(t, ip)[k].moment, r)
  {
    LeadsKeeps(t, later, u);
    assert Log(t, ip) <= Log(u, ip);
    BeginKeepsHistory(u, c, ip, domain, rest, end);
    r := FreshFromBegin(strict, u, c, ip, domain, rest, end, k);
  }

  lemma BeginKeepsHistory(u: State, c: nat, ip: string, domain: string, rest: seq<Event>, end: State)
    requires Inv(u) && Enabled(u, Begin(c, ip, domain)) && Leads(Apply(u, Begin(c, ip, domain)), rest, end)
    ensures u.hist <= end.hist
  {
    StepThenLeads(u, Begin(c, ip, domain), rest, end);
    ApplyGrows(u, Begin(c, ip, domain));
  }
}
