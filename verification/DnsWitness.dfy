/**
 * The conditions of the freshness theorem are needed: concrete runs that break it without
 * them, and the exact gap between two bumps of one IP that is safe.
 */
module DnsWitness {
  import opened Common
  import opened Rows
  import opened DnsPolicy
  import opened CacheKeys
  import opened DnsCache
  import opened DnsFresh
  import opened DnsDiscipline
  import opened DnsChecks
  import SuffixIndex
  import Text

  const IP := "a"
  const DOMAIN := "x"
  const FREE := Device(
    1, 1, None, None, Some(IP), None, None, ONLINE, GAMING_ONLY, false, None, None, None, None, false, None)
  const DB_FREE := Db([FREE], [], [], map[])
  const DB_LOCKED := Db([LockRow(FREE, None, 0)], [], [], map[])

  /** The step keeps bumps of one IP apart: none in progress, and exactly `gap` after the last one. */
  predicate GapIs(s: State, e: Event, gap: nat)
    requires s.hist != []
  {
    e.BumpGet? ==> NoOverlap(s, e.ip) && (Log(s, e.ip) == [] || Now(s) == LastBump(s, e.ip).at + gap)
  }

  predicate GapsAre(s: State, es: seq<Event>, gap: nat)
    requires s.hist != [] && Runs(s, es)
    decreases |es|
  {
    es == [] || (GapIs(s, es[0], gap) && GapsAre(Apply(s, es[0]), es[1..], gap))
  }

  ghost predicate To(s0: State, es: seq<Event>, gap: nat, s: State) {
    s0.hist != [] && Runs(s0, es) && GapsAre(s0, es, gap) && s == Run(s0, es)
  }

  lemma {:induction false} Snoc(s0: State, es: seq<Event>, gap: nat, s: State, e: Event)
    requires To(s0, es, gap, s) && s.hist != [] && Enabled(s, e) && GapIs(s, e, gap)
    ensures To(s0, es + [e], gap, Apply(s, e))
    decreases |es|
  {
    if es == [] {
      assert (es + [e])[1..] == [];
    } else {
      assert (es + [e])[1..] == es[1..] + [e];
      Snoc(Apply(s0, es[0]), es[1..], gap, s, e);
    }
  }

  lemma Do(s0: State, es: seq<Event>, gap: nat, s: State, e: Event) returns (es': seq<Event>, t: State)
    requires To(s0, es, gap, s) && s.hist != [] && Enabled(s, e) && GapIs(s, e, gap)
    ensures To(s0, es', gap, t) && t == Apply(s, e)
  {
    Snoc(s0, es, gap, s, e);
    es', t := es + [e], Apply(s, e);
  }

  // ---- A bump in the window after the counter expired.

  function Opening(maxCheck: nat): State { Init(PolicyEngine([]), maxCheck, Moment(0, DB_FREE)) }

  /** The first life of the counter: one bump at time 0. */
  lemma FirstLife(maxCheck: nat, gap: nat) returns (es: seq<Event>, s: State)
    ensures To(Opening(maxCheck), es, gap, s)
    ensures s == Opening(maxCheck).(versions := map[IP := Counter(1, VERSION_TTL)], bumps := map[IP := [Bump(0, 0)]])
  {
    var s0 := Opening(maxCheck);
    es, s := Do(s0, [], gap, s0, BumpGet(0, IP));
    assert Log(s, IP) + [Bump(0, 0)] == [Bump(0, 0)];
    es, s := Do(s0, es, gap, s, BumpSet(0));
    assert s.pending == map[];
  }

  const LATE := Stamp(IP, 1, 1, VERSION_TTL - 1, 1)

  function Late(maxCheck: nat, stage: Stage, trail: seq<nat>): State {
    Opening(maxCheck).(
      hist := [Moment(0, DB_FREE), Moment(VERSION_TTL - 1, DB_FREE)],
      versions := map[IP := Counter(1, VERSION_TTL)], bumps := map[IP := [Bump(0, 0)]],
      checks := map[0 := Check(LATE, DOMAIN, stage, trail)])
  }

  /** Just before the counter expires a check reads version 1. */
  lemma LateCheckBegins(maxCheck: nat, gap: nat) returns (es: seq<Event>, s: State)
    ensures To(Opening(maxCheck), es, gap, s) && s == Late(maxCheck, Versioned, [])
  {
    var s0 := Opening(maxCheck);
    es, s := FirstLife(maxCheck, gap);
    es, s := Do(s0, es, gap, s, Tick(VERSION_TTL - 1));
    es, s := Do(s0, es, gap, s, Begin(0, IP, DOMAIN));
    assert s.checks[0].stamp == LATE;
  }

  lemma LateRead(maxCheck: nat, p: Phase, trail: seq<nat>, q: Phase, trail': seq<nat>)
    requires !p.Decided? && trail' == trail + [1]
    requires q == NextPhase([], p, Moment(VERSION_TTL - 1, DB_FREE), IP, DOMAIN)
    ensures Enabled(Late(maxCheck, Reading(p), trail), Read(0))
    ensures Apply(Late(maxCheck, Reading(p), trail), Read(0)) == Late(maxCheck, Reading(q), trail')
  {
  }

  /** It then reads the open device, and decides ALLOW. */
  lemma LateCheck(maxCheck: nat, gap: nat) returns (es: seq<Event>, s: State)
    ensures To(Opening(maxCheck), es, gap, s) && s == Late(maxCheck, Reading(Decided(ALLOW_RESPONSE)), [1, 1, 1])
  {
    var s0 := Opening(maxCheck);
    es, s := LateCheckBegins(maxCheck, gap);
    es, s := Do(s0, es, gap, s, Miss(0));
    assert s == Late(maxCheck, Reading(Start), []);
    ThreeReadsAllow();
    LateRead(maxCheck, Start, [], HasDevice(FREE), [1]);
    es, s := Do(s0, es, gap, s, Read(0));
    LateRead(maxCheck, HasDevice(FREE), [1], PastSession(FREE), [1, 1]);
    es, s := Do(s0, es, gap, s, Read(0));
    LateRead(maxCheck, PastSession(FREE), [1, 1], Decided(ALLOW_RESPONSE), [1, 1, 1]);
    es, s := Do(s0, es, gap, s, Read(0));
  }

  lemma ThreeReadsAllow()
    ensures forall now :: NextPhase([], Start, Moment(now, DB_FREE), IP, DOMAIN) == HasDevice(FREE)
    ensures forall now :: NextPhase([], HasDevice(FREE), Moment(now, DB_FREE), IP, DOMAIN) == PastSession(FREE)
    ensures forall now :: NextPhase([], PastSession(FREE), Moment(now, DB_FREE), IP, DOMAIN) == Decided(ALLOW_RESPONSE)
  {
  }

  predicate InWindow(maxCheck: nat, gap: nat) {
    VERSION_TTL <= gap && gap + 1 < VERSION_TTL + maxCheck + DECISION_TTL
  }

  /** When the late check stores its decision: as late as it may, but before the second bump. */
  function StoreTime(maxCheck: nat, gap: nat): nat {
    if gap < VERSION_TTL - 1 + maxCheck then gap else VERSION_TTL - 1 + maxCheck
  }

  function Stored(maxCheck: nat, gap: nat): map<Key, Entry> {
    map[Key(IP, 1, DOMAIN) := Entry(ALLOW_RESPONSE, LATE, DOMAIN, [1, 1, 1], StoreTime(maxCheck, gap) + DECISION_TTL)]
  }

  /** The late check as it stands when it stores. */
  function AtStore(maxCheck: nat, gap: nat): State {
    Late(maxCheck, Reading(Decided(ALLOW_RESPONSE)), [1, 1, 1]).(
      hist := [Moment(0, DB_FREE), Moment(VERSION_TTL - 1, DB_FREE), Moment(StoreTime(maxCheck, gap), DB_FREE)])
  }

  lemma LateWaits(maxCheck: nat, gap: nat) returns (es: seq<Event>)
    requires InWindow(maxCheck, gap)
    ensures To(Opening(maxCheck), es, gap, AtStore(maxCheck, gap))
  {
    var s;
    es, s := LateCheck(maxCheck, gap);
    es, s := Do(Opening(maxCheck), es, gap, s, Tick(StoreTime(maxCheck, gap)));
  }

  lemma LateStores(maxCheck: nat, gap: nat)
    ensures var s := AtStore(maxCheck, gap);
      Enabled(s, Store(0)) && Apply(s, Store(0)).decisions == Stored(maxCheck, gap)
  {
  }

  /** The late check stores ALLOW under version 1. */
  lemma LateStore(maxCheck: nat, gap: nat) returns (es: seq<Event>, s: State)
    requires InWindow(maxCheck, gap)
    ensures To(Opening(maxCheck), es, gap, s)
    ensures |s.hist| == 3 && Now(s) == StoreTime(maxCheck, gap)
    ensures s.versions == map[IP := Counter(1, VERSION_TTL)] && s.bumps == map[IP := [Bump(0, 0)]]
    ensures s.decisions == Stored(maxCheck, gap) && s.checks == map[] && s.pending == map[] && 1 !in s.replies
  {
    es := LateWaits(maxCheck, gap);
    LateStores(maxCheck, gap);
    es, s := Do(Opening(maxCheck), es, gap, AtStore(maxCheck, gap), Store(0));
    assert s.checks == map[];
  }

  /** Then the device is locked. */
  lemma ThenLocked(maxCheck: nat, gap: nat) returns (es: seq<Event>, s: State)
    requires InWindow(maxCheck, gap)
    ensures To(Opening(maxCheck), es, gap, s)
    ensures |s.hist| == 5 && s.hist[4] == Moment(gap, DB_LOCKED)
    ensures s.versions == map[IP := Counter(1, VERSION_TTL)] && s.bumps == map[IP := [Bump(0, 0)]]
    ensures s.decisions == Stored(maxCheck, gap) && s.checks == map[] && s.pending == map[] && 1 !in s.replies
  {
    es, s := LateStore(maxCheck, gap);
    es, s := Do(Opening(maxCheck), es, gap, s, Tick(gap));
    es, s := Do(Opening(maxCheck), es, gap, s, Write(DB_LOCKED));
  }

  /** The IP is bumped: the expired counter restarts and reaches version 1 again. */
  lemma SecondLife(maxCheck: nat, gap: nat) returns (es: seq<Event>, s: State)
    requires InWindow(maxCheck, gap)
    ensures To(Opening(maxCheck), es, gap, s)
    ensures |s.hist| == 5 && s.hist[4] == Moment(gap, DB_LOCKED)
    ensures s.versions == map[IP := Counter(1, gap + VERSION_TTL)]
    ensures s.bumps == map[IP := [Bump(0, 0), Bump(gap, 4)]]
    ensures s.decisions == Stored(maxCheck, gap) && s.checks == map[] && 1 !in s.replies
  {
    var s0 := Opening(maxCheck);
    es, s := ThenLocked(maxCheck, gap);
    es, s := Do(s0, es, gap, s, BumpGet(1, IP));
    assert s.pending == map[1 := PendingBump(IP, 0)];
    assert Log(s, IP) + [Bump(gap, 4)] == [Bump(0, 0), Bump(gap, 4)];
    es, s := Do(s0, es, gap, s, BumpSet(1));
  }

  lemma LockedSaysBlock(now: nat)
    ensures Uncached([], DB_LOCKED, now, IP, DOMAIN).action == BLOCK
  {
    UncachedBlocksExactlyWhen([], DB_LOCKED, now, IP, DOMAIN);
  }

  /** A check begins after the second bump, and reads version 1. */
  lemma CheckAfterSecondLife(maxCheck: nat, gap: nat) returns (es: seq<Event>, s: State)
    requires InWindow(maxCheck, gap)
    ensures To(Opening(maxCheck), es, gap, s)
    ensures |s.hist| == 5 && s.hist[4] == Moment(gap, DB_LOCKED)
    ensures s.bumps == map[IP := [Bump(0, 0), Bump(gap, 4)]] && s.decisions == Stored(maxCheck, gap)
    ensures 1 !in s.replies && 1 in s.checks && s.checks[1] == Check(Stamp(IP, 1, 2, gap, 4), DOMAIN, Versioned, [])
  {
    es, s := SecondLife(maxCheck, gap);
    es, s := Do(Opening(maxCheck), es, gap, s, Begin(1, IP, DOMAIN));
  }

  /** A check begun after the second bump is told ALLOW, from reads older than the lock. */
  lemma WindowIsUnsafe(maxCheck: nat, gap: nat) returns (es: seq<Event>, s: State)
    requires InWindow(maxCheck, gap)
    ensures To(Opening(maxCheck), es, gap, s)
    ensures 1 in s.replies && s.replies[1].response == ALLOW_RESPONSE && !ReplyFresh(s, s.replies[1])
    ensures s.hist != [] && Uncached([], s.hist[Last(s)].db, Now(s), IP, DOMAIN).action == BLOCK
  {
    es, s := CheckAfterSecondLife(maxCheck, gap);
    es, s := Do(Opening(maxCheck), es, gap, s, Hit(1));
    var r := s.replies[1];
    assert r.trail[0] == 1 && Log(s, IP)[1].moment == 4 && r.stamp.era == 2;
    assert !TrailSince(r.trail, Log(s, IP)[1].moment);
    LockedSaysBlock(gap);
  }

  lemma {:induction false} SafeGapsAreDisciplined(s: State, es: seq<Event>, gap: nat)
    requires Moments(s) && Runs(s, es) && GapsAre(s, es, gap) && !InWindow(s.maxCheck, gap)
    ensures DisciplinedRun(s, es)
    decreases |es|
  {
    if es != [] {
      ApplyGrows(s, es[0]);
      SafeGapsAreDisciplined(Apply(s, es[0]), es[1..], gap);
    }
  }

  /**
   * The exact condition on the gap between successive bumps of one IP: every run that keeps
   * that gap replies fresh, if and only if the gap lies outside the window.
   */
  lemma GapIsExact(maxCheck: nat, gap: nat)
    requires maxCheck + DECISION_TTL <= VERSION_TTL
    ensures (forall es, s, c | To(Opening(maxCheck), es, gap, s) && c in s.replies :: ReplyFresh(s, s.replies[c]))
       <==> !InWindow(maxCheck, gap)
  {
    if InWindow(maxCheck, gap) {
      var es, s := WindowIsUnsafe(maxCheck, gap);
      assert To(Opening(maxCheck), es, gap, s) && 1 in s.replies;
    } else {
      var s0 := Opening(maxCheck);
      InitInv(PolicyEngine([]), maxCheck, Moment(0, DB_FREE));
      forall es, s, c | To(s0, es, gap, s) && c in s.replies ensures ReplyFresh(s, s.replies[c]) {
        SafeGapsAreDisciplined(s0, es, gap);
        DisciplinedFromStart(PolicyEngine([]), maxCheck, Moment(0, DB_FREE), es);
        InvAlways(s0, es);
      }
    }
  }

  // ---- Overlapping bumps lose an update.

  lemma BumpBegins(maxCheck: nat) returns (es: seq<Event>, s: State)
    ensures Goes(Opening(maxCheck), es, s)
    ensures s == Opening(maxCheck).(pending := map[9 := PendingBump(IP, 0), 0 := PendingBump(IP, 0)])
  {
    es, s := Go(Opening(maxCheck), [], Opening(maxCheck), BumpGet(9, IP));
    es, s := Go(Opening(maxCheck), es, s, BumpGet(0, IP));
  }

  /** Request 9 reads the counter at 0 and stalls; request 0 completes a whole bump to version 1. */
  lemma StalledBump(maxCheck: nat) returns (es: seq<Event>, s: State)
    ensures Goes(Opening(maxCheck), es, s)
    ensures s == Opening(maxCheck).(pending := map[9 := PendingBump(IP, 0)], versions := map[IP := Counter(1, VERSION_TTL)],
                             bumps := map[IP := [Bump(0, 0)]])
  {
    es, s := BumpBegins(maxCheck);
    assert Log(s, IP) + [Bump(0, 0)] == [Bump(0, 0)];
    es, s := Go(Opening(maxCheck), es, s, BumpSet(0));
    assert s.pending == map[9 := PendingBump(IP, 0)];
  }

  const EARLY := Stamp(IP, 1, 1, 0, 0)

  function Early(maxCheck: nat, stage: Stage, trail: seq<nat>): State {
    Opening(maxCheck).(pending := map[9 := PendingBump(IP, 0)], versions := map[IP := Counter(1, VERSION_TTL)],
                bumps := map[IP := [Bump(0, 0)]], checks := map[0 := Check(EARLY, DOMAIN, stage, trail)])
  }

  lemma EarlyRead(maxCheck: nat, p: Phase, trail: seq<nat>, q: Phase, trail': seq<nat>)
    requires !p.Decided? && trail' == trail + [0]
    requires q == NextPhase([], p, Moment(0, DB_FREE), IP, DOMAIN)
    ensures Enabled(Early(maxCheck, Reading(p), trail), Read(0))
    ensures Apply(Early(maxCheck, Reading(p), trail), Read(0)) == Early(maxCheck, Reading(q), trail')
  {
  }

  lemma EarlyCheckBegins(maxCheck: nat) returns (es: seq<Event>, s: State)
    ensures Goes(Opening(maxCheck), es, s) && s == Early(maxCheck, Reading(Start), [])
  {
    es, s := StalledBump(maxCheck);
    es, s := Go(Opening(maxCheck), es, s, Begin(0, IP, DOMAIN));
    es, s := Go(Opening(maxCheck), es, s, Miss(0));
  }

  /** A check decides ALLOW under version 1. */
  lemma EarlyCheck(maxCheck: nat) returns (es: seq<Event>, s: State)
    ensures Goes(Opening(maxCheck), es, s) && s == Early(maxCheck, Reading(Decided(ALLOW_RESPONSE)), [0, 0, 0])
  {
    es, s := EarlyCheckBegins(maxCheck);
    ThreeReadsAllow();
    EarlyRead(maxCheck, Start, [], HasDevice(FREE), [0]);
    es, s := Go(Opening(maxCheck), es, s, Read(0));
    EarlyRead(maxCheck, HasDevice(FREE), [0], PastSession(FREE), [0, 0]);
    es, s := Go(Opening(maxCheck), es, s, Read(0));
    EarlyRead(maxCheck, PastSession(FREE), [0, 0], Decided(ALLOW_RESPONSE), [0, 0, 0]);
    es, s := Go(Opening(maxCheck), es, s, Read(0));
  }

  const EARLY_ENTRY := map[Key(IP, 1, DOMAIN) := Entry(ALLOW_RESPONSE, EARLY, DOMAIN, [0, 0, 0], DECISION_TTL)]

  /** It caches the decision; then the device is locked. */
  lemma EarlyStore(maxCheck: nat) returns (es: seq<Event>, s: State)
    ensures Goes(Opening(maxCheck), es, s)
    ensures s.hist == [Moment(0, DB_FREE), Moment(0, DB_LOCKED)] && s.checks == map[] && s.decisions == EARLY_ENTRY
    ensures s.pending == map[9 := PendingBump(IP, 0)] && 1 !in s.replies
    ensures s.versions == map[IP := Counter(1, VERSION_TTL)] && s.bumps == map[IP := [Bump(0, 0)]]
  {
    es, s := EarlyCheck(maxCheck);
    es, s := Go(Opening(maxCheck), es, s, Store(0));
    assert s.checks == map[];
    es, s := Go(Opening(maxCheck), es, s, Write(DB_LOCKED));
  }

  lemma SecondBumpBegins(maxCheck: nat) returns (es: seq<Event>, s: State)
    ensures Goes(Opening(maxCheck), es, s)
    ensures s.hist == [Moment(0, DB_FREE), Moment(0, DB_LOCKED)] && s.checks == map[] && s.decisions == EARLY_ENTRY
    ensures s.pending == map[9 := PendingBump(IP, 0), 1 := PendingBump(IP, 1)] && 1 !in s.replies
    ensures Log(s, IP) == [Bump(0, 0)] && s.versions == map[IP := Counter(1, VERSION_TTL)]
  {
    es, s := EarlyStore(maxCheck);
    es, s := Go(Opening(maxCheck), es, s, BumpGet(1, IP));
  }

  /** The locked device is bumped to version 2. */
  lemma SecondBump(maxCheck: nat) returns (es: seq<Event>, s: State)
    ensures Goes(Opening(maxCheck), es, s)
    ensures s.hist == [Moment(0, DB_FREE), Moment(0, DB_LOCKED)] && s.checks == map[] && s.decisions == EARLY_ENTRY
    ensures s.pending == map[9 := PendingBump(IP, 0)] && 1 !in s.replies
    ensures Log(s, IP) == [Bump(0, 0), Bump(0, 1)] && s.versions == map[IP := Counter(2, VERSION_TTL)]
  {
    es, s := SecondBumpBegins(maxCheck);
    es, s := Go(Opening(maxCheck), es, s, BumpSet(1));
    assert s.pending == map[9 := PendingBump(IP, 0)];
  }

  /** Then the stalled request writes version 1 back. */
  lemma LostUpdate(maxCheck: nat) returns (es: seq<Event>, s: State)
    ensures Goes(Opening(maxCheck), es, s)
    ensures s.hist == [Moment(0, DB_FREE), Moment(0, DB_LOCKED)] && s.checks == map[] && s.decisions == EARLY_ENTRY
    ensures s.versions == map[IP := Counter(1, VERSION_TTL)] && 1 !in s.replies
    ensures Log(s, IP) == [Bump(0, 0), Bump(0, 1), Bump(0, 1)]
  {
    es, s := SecondBump(maxCheck);
    es, s := Go(Opening(maxCheck), es, s, BumpSet(9));
  }

  /** For every check length: with overlapping bumps, a check begun after all of them is told ALLOW from before the lock. */
  lemma OverlapIsUnsafe(maxCheck: nat) returns (es: seq<Event>, s: State)
    ensures Goes(Opening(maxCheck), es, s)
    ensures 1 in s.replies && s.replies[1].response == ALLOW_RESPONSE && !ReplyFresh(s, s.replies[1])
  {
    es, s := LostUpdate(maxCheck);
    es, s := Go(Opening(maxCheck), es, s, Begin(1, IP, DOMAIN));
    es, s := Go(Opening(maxCheck), es, s, Hit(1));
    var r := s.replies[1];
    assert r.trail[0] == 0 && Log(s, IP)[1].moment == 1 && r.stamp.era == 3;
    assert !TrailSince(r.trail, Log(s, IP)[1].moment);
  }

  // ---- An IP the operation does not bump.

  const AT_ONCE := Stamp(IP, 0, 0, 0, 0)

  function Checking(maxCheck: nat, stage: Stage, trail: seq<nat>): State {
    Opening(maxCheck).(checks := map[0 := Check(AT_ONCE, DOMAIN, stage, trail)])
  }

  lemma FirstRead(maxCheck: nat, p: Phase, trail: seq<nat>, q: Phase, trail': seq<nat>)
    requires !p.Decided? && trail' == trail + [0]
    requires q == NextPhase([], p, Moment(0, DB_FREE), IP, DOMAIN)
    ensures Enabled(Checking(maxCheck, Reading(p), trail), Read(0))
    ensures Apply(Checking(maxCheck, Reading(p), trail), Read(0)) == Checking(maxCheck, Reading(q), trail')
  {
  }

  /** The device, just moved to `IP`, is checked and found free. */
  lemma FirstCheck(maxCheck: nat) returns (es: seq<Event>, s: State)
    ensures To(Opening(maxCheck), es, 0, s) && s == Checking(maxCheck, Reading(Decided(ALLOW_RESPONSE)), [0, 0, 0])
  {
    var s0 := Opening(maxCheck);
    es, s := Do(s0, [], 0, s0, Begin(0, IP, DOMAIN));
    es, s := Do(s0, es, 0, s, Miss(0));
    assert s == Checking(maxCheck, Reading(Start), []);
    ThreeReadsAllow();
    FirstRead(maxCheck, Start, [], HasDevice(FREE), [0]);
    es, s := Do(s0, es, 0, s, Read(0));
    FirstRead(maxCheck, HasDevice(FREE), [0], PastSession(FREE), [0, 0]);
    es, s := Do(s0, es, 0, s, Read(0));
    FirstRead(maxCheck, PastSession(FREE), [0, 0], Decided(ALLOW_RESPONSE), [0, 0, 0]);
    es, s := Do(s0, es, 0, s, Read(0));
  }

  const FIRST_ENTRY := map[Key(IP, 0, DOMAIN) := Entry(ALLOW_RESPONSE, AT_ONCE, DOMAIN, [0, 0, 0], DECISION_TTL)]

  /** The decision is cached; then the device is locked. */
  lemma FirstStore(maxCheck: nat) returns (es: seq<Event>, s: State)
    ensures To(Opening(maxCheck), es, 0, s) && s.hist == [Moment(0, DB_FREE), Moment(0, DB_LOCKED)]
    ensures s.decisions == FIRST_ENTRY && s.checks == map[] && s.versions == map[] && s.bumps == map[] && s.pending == map[]
    ensures 1 !in s.replies
  {
    es, s := FirstCheck(maxCheck);
    es, s := Do(Opening(maxCheck), es, 0, s, Store(0));
    assert s.checks == map[];
    es, s := Do(Opening(maxCheck), es, 0, s, Write(DB_LOCKED));
  }

  /** The operation bumps the address it had read. */
  lemma OtherBumped(maxCheck: nat, other: string) returns (es: seq<Event>, s: State)
    requires other != IP
    ensures To(Opening(maxCheck), es, 0, s) && s.hist == [Moment(0, DB_FREE), Moment(0, DB_LOCKED)]
    ensures s.decisions == FIRST_ENTRY && s.checks == map[] && IP !in s.versions && Log(s, IP) == []
    ensures Log(s, other) == [Bump(0, 1)] && 1 !in s.replies
  {
    es, s := FirstStore(maxCheck);
    es, s := Do(Opening(maxCheck), es, 0, s, BumpGet(1, other));
    es, s := Do(Opening(maxCheck), es, 0, s, BumpSet(1));
  }

  /**
   * A device that moved to `IP` after the operation had read its row: the write locks it, the address it
   * had is bumped, every bump is safe, and a check of `IP` begun after all that is told ALLOW.
   */
  lemma UnbumpedIpStaysStale(maxCheck: nat, other: string) returns (es: seq<Event>, s: State)
    requires maxCheck + DECISION_TTL <= VERSION_TTL && other != IP
    ensures Goes(Opening(maxCheck), es, s) && SafeRun(Opening(maxCheck), es)
    ensures s.hist == [Moment(0, DB_FREE), Moment(0, DB_LOCKED)] && Log(s, other) == [Bump(0, 1)]
    ensures 1 in s.replies && s.replies[1].stamp == Stamp(IP, 0, 0, 0, 1) && s.replies[1].response == ALLOW_RESPONSE
    ensures Uncached([], DB_LOCKED, 0, IP, DOMAIN).action == BLOCK
  {
    var s0 := Opening(maxCheck);
    es, s := OtherBumped(maxCheck, other);
    es, s := Do(s0, es, 0, s, Begin(1, IP, DOMAIN));
    es, s := Do(s0, es, 0, s, Hit(1));
    LockedSaysBlock(0);
    SafeGapsAreDisciplined(s0, es, 0);
    DisciplinedFromStart(PolicyEngine([]), maxCheck, Moment(0, DB_FREE), es);
  }

  // ---- Torn reads.

  const NAME := "g.x"
  const GAME := BlockedDomain(NAME, None)
  const OPEN_LISTED := Db([FREE], [], [GAME], map[])
  const LOCKED_LISTED := Db([LockRow(FREE, None, 0)], [], [GAME], map[])
  const LOCKED_UNLISTED := Db([LockRow(FREE, None, 0)], [], [], map[])

  function TornOpening(maxCheck: nat): State { Init(PolicyEngine([]), maxCheck, Moment(0, OPEN_LISTED)) }

  const THREE_MOMENTS := [Moment(0, OPEN_LISTED), Moment(0, LOCKED_LISTED), Moment(0, LOCKED_UNLISTED)]

  function Torn(maxCheck: nat, hist: seq<Moment>, stage: Stage, trail: seq<nat>): State {
    TornOpening(maxCheck).(hist := hist, checks := map[0 := Check(Stamp(IP, 0, 0, 0, 0), NAME, stage, trail)])
  }

  lemma EachMomentBlocks()
    ensures forall m | m in THREE_MOMENTS :: Uncached([], m.db, m.now, IP, NAME).action == BLOCK
  {
    assert Text.Normalise(NAME) == NAME;
    assert SuffixIndex.Under(NAME, NAME) by { assert NAME[1] == '.'; }
    assert GAME in OPEN_LISTED.blocked;
    forall m | m in THREE_MOMENTS ensures Uncached([], m.db, m.now, IP, NAME).action == BLOCK {
      UncachedBlocksExactlyWhen([], m.db, m.now, IP, NAME);
    }
  }

  lemma TornPhases()
    ensures NextPhase([], Start, Moment(0, OPEN_LISTED), IP, NAME) == HasDevice(FREE)
    ensures NextPhase([], HasDevice(FREE), Moment(0, LOCKED_UNLISTED), IP, NAME) == PastSession(FREE)
    ensures NextPhase([], PastSession(FREE), Moment(0, LOCKED_UNLISTED), IP, NAME) == Decided(ALLOW_RESPONSE)
  {
  }

  lemma TornRead(maxCheck: nat, hist: seq<Moment>, p: Phase, trail: seq<nat>, q: Phase)
    requires hist != [] && !p.Decided? && q == NextPhase([], p, hist[|hist| - 1], IP, NAME)
    ensures Enabled(Torn(maxCheck, hist, Reading(p), trail), Read(0))
    ensures Apply(Torn(maxCheck, hist, Reading(p), trail), Read(0)) == Torn(maxCheck, hist, Reading(q), trail + [|hist| - 1])
  {
  }

  /** The device is read open. */
  lemma TornDeviceRead(maxCheck: nat) returns (es: seq<Event>)
    ensures Goes(TornOpening(maxCheck), es, Torn(maxCheck, [Moment(0, OPEN_LISTED)], Reading(HasDevice(FREE)), [0]))
  {
    var s0, s := TornOpening(maxCheck), TornOpening(maxCheck);
    es, s := Go(s0, [], s0, Begin(0, IP, NAME));
    es, s := Go(s0, es, s, Miss(0));
    TornPhases();
    assert s == Torn(maxCheck, [Moment(0, OPEN_LISTED)], Reading(Start), []);
    TornRead(maxCheck, [Moment(0, OPEN_LISTED)], Start, [], HasDevice(FREE));
    es, s := Go(s0, es, s, Read(0));
    assert [] + [0] == [0];
    assert s == Torn(maxCheck, [Moment(0, OPEN_LISTED)], Reading(HasDevice(FREE)), [0]);
  }

  /** Then the device is locked and the name unlisted. */
  lemma TornWrites(maxCheck: nat) returns (es: seq<Event>)
    ensures Goes(TornOpening(maxCheck), es, Torn(maxCheck, THREE_MOMENTS, Reading(HasDevice(FREE)), [0]))
  {
    var s;
    es := TornDeviceRead(maxCheck);
    es, s := Go(TornOpening(maxCheck), es, Torn(maxCheck, [Moment(0, OPEN_LISTED)], Reading(HasDevice(FREE)), [0]), Write(LOCKED_LISTED));
    es, s := Go(TornOpening(maxCheck), es, s, Write(LOCKED_UNLISTED));
    assert [Moment(0, OPEN_LISTED)] + [Moment(0, LOCKED_LISTED)] + [Moment(0, LOCKED_UNLISTED)] == THREE_MOMENTS;
  }

  /**
   * A reply need not be the engine's at any one moment: the device is read open while the name is
   * listed, then the device is locked and the name unlisted before it is looked up. Every moment of
   * the run says BLOCK, the check replies ALLOW.
   */
  lemma TornReadsCanAllow(maxCheck: nat) returns (es: seq<Event>, s: State)
    ensures Goes(TornOpening(maxCheck), es, s) && 0 in s.replies && s.replies[0].response == ALLOW_RESPONSE
    ensures s.replies[0].stamp.ip == IP && s.replies[0].domain == NAME
    ensures forall m | m in s.hist :: Uncached([], m.db, m.now, IP, NAME).action == BLOCK
  {
    es := TornWrites(maxCheck);
    TornPhases();
    EachMomentBlocks();
    TornRead(maxCheck, THREE_MOMENTS, HasDevice(FREE), [0], PastSession(FREE));
    es, s := Go(TornOpening(maxCheck), es, Torn(maxCheck, THREE_MOMENTS, Reading(HasDevice(FREE)), [0]), Read(0));
    TornRead(maxCheck, THREE_MOMENTS, PastSession(FREE), [0] + [2], Decided(ALLOW_RESPONSE));
    es, s := Go(TornOpening(maxCheck), es, s, Read(0));
    es, s := Go(TornOpening(maxCheck), es, s, Store(0));
  }
}
