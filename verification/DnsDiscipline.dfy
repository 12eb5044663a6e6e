/**
 * A rule callers of the invalidation can keep, checkable before their first step, under which every
 * bump is written safely: bumps of one IP do not overlap, and none begins in the window after its
 * counter expired in which decisions of the counter's previous life can still be read.
 */
module DnsDiscipline {
  import opened DnsPolicy
  import opened CacheKeys
  import opened DnsCache
  import opened DnsFresh

  /** The window in which a restarted counter could meet decisions of its previous life. */
  predicate GapOk(s: State, ip: string)
    requires s.hist != []
  {
    Log(s, ip) == []
    || Now(s) < LastBump(s, ip).at + VERSION_TTL
    || LastBump(s, ip).at + VERSION_TTL + s.maxCheck + DECISION_TTL <= Now(s) + 1
  }

  predicate NoOverlap(s: State, ip: string) {
    forall w | w in s.pending :: s.pending[w].ip != ip
  }

  predicate Disciplined(s: State, e: Event)
    requires s.hist != []
  {
    e.BumpGet? ==> NoOverlap(s, e.ip) && GapOk(s, e.ip)
  }

  predicate DisciplinedRun(s: State, es: seq<Event>)
    requires s.hist != [] && Runs(s, es)
    decreases |es|
  {
    es == [] || (Disciplined(s, es[0]) && DisciplinedRun(Apply(s, es[0]), es[1..]))
  }

  // ---- Why it is enough: versions only grow, except past everything older.

  /** The counter has expired, and everything still around began after that. */
  ghost predicate AllRestarted(s: State, ip: string)
    requires s.hist != [] && Log(s, ip) != []
  {
    && LastBump(s, ip).at + VERSION_TTL <= Now(s)
    && (forall st, trail | Carries(s, st, trail) && st.ip == ip :: LastBump(s, ip).at + VERSION_TTL <= st.startedAt)
  }

  /** A version found by an unfinished bump is at least every version of its IP still around. */
  ghost predicate PendingOk(s: State, p: PendingBump)
    requires s.hist != [] && CounterOk(s, p.ip)
  {
    if Log(s, p.ip) == [] then p.found == 0
    else p.found == s.versions[p.ip].value || (p.found == 0 && AllRestarted(s, p.ip))
  }

  predicate VersionOk(s: State, st: Stamp)
    requires s.hist != [] && CounterOk(s, st.ip)
  {
    Log(s, st.ip) != [] ==> st.version <= s.versions[st.ip].value
  }

  ghost predicate Ordered(s: State)
    requires s.hist != [] && forall ip :: CounterOk(s, ip)
  {
    && (forall st, trail | Carries(s, st, trail) :: VersionOk(s, st))
    && (forall w | w in s.pending :: PendingOk(s, s.pending[w]))
    && (forall v, w | v in s.pending && w in s.pending && s.pending[v].ip == s.pending[w].ip :: v == w)
  }

  /** No version in use exceeds the version a bump has found. */
  lemma BumpSupersedes(s: State, w: nat, st: Stamp, trail: seq<nat>)
    requires Book(s) && Ordered(s) && w in s.pending && Carries(s, st, trail) && st.ip == s.pending[w].ip
    ensures st.version <= s.pending[w].found
  {
    assert StampOk(s, st) && VersionOk(s, st) && PendingOk(s, s.pending[w]) && CounterOk(s, st.ip);
  }

  lemma DisciplinedIsSafe(s: State, e: Event)
    requires Book(s) && Ordered(s) && Enabled(s, e)
    ensures SafeStep(s, e)
  {
    if e.BumpSet? {
      forall st, trail | Carries(s, st, trail) && st.ip == s.pending[e.id].ip
        ensures st.version != s.pending[e.id].found + 1
      {
        BumpSupersedes(s, e.id, st, trail);
      }
    }
  }

  lemma VersionsStayOrdered(s: State, e: Event, st: Stamp, trail: seq<nat>)
    requires Book(s) && Ordered(s) && Enabled(s, e) && Carries(Apply(s, e), st, trail)
    ensures CounterOk(Apply(s, e), st.ip) && VersionOk(Apply(s, e), st)
  {
    assert CounterOk(s, st.ip);
    CounterStaysOk(s, e, st.ip);
    CarriesFrom(s, e, st, trail);
    if BumpSetOn(s, e, st.ip) {
      BumpSetCounts(s, e, st.ip);
      BumpSupersedes(s, e.id, st, trail);
    } else {
      CounterKept(s, e, st.ip);
    }
  }

  lemma RestartedKept(s: State, e: Event, ip: string)
    requires Moments(s) && Enabled(s, e) && !BumpSetOn(s, e, ip)
    requires Log(s, ip) != [] && AllRestarted(s, ip)
    ensures Log(Apply(s, e), ip) == Log(s, ip) && AllRestarted(Apply(s, e), ip)
  {
    var t := Apply(s, e);
    CounterKept(s, e, ip);
    ClockOnlyMoves(s, e);
    forall st, trail | Carries(t, st, trail) && st.ip == ip ensures LastBump(t, ip).at + VERSION_TTL <= st.startedAt {
      CarriesFrom(s, e, st, trail);
    }
  }

  lemma PendingKept(s: State, e: Event, p: PendingBump)
    requires Moments(s) && Enabled(s, e) && !BumpSetOn(s, e, p.ip)
    requires CounterOk(s, p.ip) && PendingOk(s, p) && CounterOk(Apply(s, e), p.ip)
    ensures PendingOk(Apply(s, e), p)
  {
    CounterKept(s, e, p.ip);
    if Log(s, p.ip) != [] && AllRestarted(s, p.ip) {
      RestartedKept(s, e, p.ip);
    }
  }

  /** A counter read outside the window: either still alive, or past everything of its previous life. */
  lemma NewPendingOk(s: State, ip: string)
    requires Book(s) && Ordered(s) && GapOk(s, ip)
    ensures CounterOk(s, ip) && PendingOk(s, PendingBump(ip, CurrentVersion(s, ip)))
  {
    assert CounterOk(s, ip);
    if Log(s, ip) != [] && LastBump(s, ip).at + VERSION_TTL <= Now(s) {
      forall st, trail | Carries(s, st, trail) && st.ip == ip ensures LastBump(s, ip).at + VERSION_TTL <= st.startedAt {
        assert StampOk(s, st);
      }
    }
  }

  lemma PendingsStayOk(s: State, e: Event, w: nat)
    requires Book(s) && Ordered(s) && Enabled(s, e) && Disciplined(s, e) && w in Apply(s, e).pending
    ensures CounterOk(Apply(s, e), Apply(s, e).pending[w].ip) && PendingOk(Apply(s, e), Apply(s, e).pending[w])
  {
    var p := Apply(s, e).pending[w];
    assert CounterOk(s, p.ip);
    CounterStaysOk(s, e, p.ip);
    if e.BumpGet? && e.id == w {
      NewPendingOk(s, e.ip);
    } else {
      assert PendingOk(s, p);
    }
    PendingKept(s, e, p);
  }

  lemma OrderedPreserved(s: State, e: Event)
    requires Book(s) && Ordered(s) && Enabled(s, e) && Disciplined(s, e)
    ensures Book(Apply(s, e)) && Ordered(Apply(s, e))
  {
    BookPreserved(s, e);
    var t := Apply(s, e);
    forall st, trail | Carries(t, st, trail) ensures VersionOk(t, st) {
      VersionsStayOrdered(s, e, st, trail);
    }
    forall w | w in t.pending ensures PendingOk(t, t.pending[w]) {
      PendingsStayOk(s, e, w);
    }
  }

  /** Every disciplined run writes every bump safely. */
  lemma {:induction false} DisciplinedRunsAreSafe(s: State, es: seq<Event>)
    requires Book(s) && Ordered(s) && Runs(s, es) && DisciplinedRun(s, es)
    ensures SafeRun(s, es)
    decreases |es|
  {
    if es != [] {
      DisciplinedIsSafe(s, es[0]);
      OrderedPreserved(s, es[0]);
      DisciplinedRunsAreSafe(Apply(s, es[0]), es[1..]);
    }
  }

  lemma DisciplinedFromStart(engine: Engine, maxCheck: nat, m: Moment, es: seq<Event>)
    requires maxCheck + DECISION_TTL <= VERSION_TTL
    requires Runs(Init(engine, maxCheck, m), es) && DisciplinedRun(Init(engine, maxCheck, m), es)
    ensures SafeRun(Init(engine, maxCheck, m), es)
  {
    InitInv(engine, maxCheck, m);
    DisciplinedRunsAreSafe(Init(engine, maxCheck, m), es);
  }
}
