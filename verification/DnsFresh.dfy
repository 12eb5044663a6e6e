/**
 * When replies are fresh: a reply rests only on reads made after every bump of its IP that was
 * complete when its check began. What decides is each bump's write: it must not bring back a
 * version under which a read from before it is still around.
 */
module DnsFresh {
  import opened DnsPolicy
  import opened CacheKeys
  import opened DnsCache

  function LastBump(s: State, ip: string): Bump
    requires Log(s, ip) != []
  {
    Log(s, ip)[|Log(s, ip)| - 1]
  }

  predicate TrailSince(trail: seq<nat>, lo: nat) {
    forall i | 0 <= i < |trail| :: lo <= trail[i]
  }

  /** Every read comes after the first `k` bumps of the IP. */
  predicate Since(s: State, ip: string, k: nat, trail: seq<nat>) {
    k <= |Log(s, ip)| && forall j | 0 <= j < k :: TrailSince(trail, Log(s, ip)[j].moment)
  }

  predicate ReplyFresh(s: State, r: Reply) { Since(s, r.stamp.ip, r.stamp.era, r.trail) }

  ghost predicate AllFresh(s: State) { forall c | c in s.replies :: ReplyFresh(s, s.replies[c]) }

  /** Reads that may still be served: those of a check in flight, or of a decision that can still be read. */
  predicate Carries(s: State, st: Stamp, trail: seq<nat>)
    requires s.hist != []
  {
    || (exists c :: c in s.checks && s.checks[c].stamp == st && s.checks[c].trail == trail)
    || (exists key :: key in s.decisions && s.decisions[key].stamp == st && s.decisions[key].trail == trail
                      && Now(s) < s.decisions[key].expiry)
  }

  /** The exact condition on a bump's write: nothing under the version it writes was read before now. */
  ghost predicate SafeWrite(s: State, w: nat)
    requires s.hist != [] && w in s.pending
  {
    forall st, trail | Carries(s, st, trail) && st.ip == s.pending[w].ip && st.version == s.pending[w].found + 1 ::
      TrailSince(trail, Last(s))
  }

  ghost predicate SafeStep(s: State, e: Event)
    requires s.hist != [] && Enabled(s, e)
  {
    e.BumpSet? ==> SafeWrite(s, e.id)
  }

  ghost predicate SafeRun(s: State, es: seq<Event>)
    requires s.hist != [] && Runs(s, es)
    decreases |es|
  {
    es == [] || (SafeStep(s, es[0]) && SafeRun(Apply(s, es[0]), es[1..]))
  }

  // ---- Bookkeeping, in every run.

  predicate CounterOk(s: State, ip: string)
    requires s.hist != []
  {
    && (ip in s.versions <==> Log(s, ip) != [])
    && (Log(s, ip) != [] ==>
          s.versions[ip].value > 0 && s.versions[ip].expiry == LastBump(s, ip).at + VERSION_TTL
          && LastBump(s, ip).at <= Now(s))
  }

  predicate Timely(s: State, st: Stamp)
    requires s.hist != []
  {
    st.startedAt <= Now(s) < st.startedAt + s.maxCheck + DECISION_TTL
  }

  /** When a stamp was taken, and for those since the last bump, which version it must have. */
  predicate StampOk(s: State, st: Stamp)
    requires s.hist != [] && CounterOk(s, st.ip)
  {
    && Timely(s, st)
    && st.era <= |Log(s, st.ip)|
    && (Log(s, st.ip) == [] ==> st.version == 0)
    && (st.era < |Log(s, st.ip)| ==> st.startedAt <= LastBump(s, st.ip).at)
    && (Log(s, st.ip) != [] && st.era == |Log(s, st.ip)| ==>
          st.version == if st.startedAt < LastBump(s, st.ip).at + VERSION_TTL then s.versions[st.ip].value else 0)
  }

  ghost predicate Book(s: State) {
    && Base(s)
    && s.maxCheck + DECISION_TTL <= VERSION_TTL
    && (forall ip :: CounterOk(s, ip))
    && (forall st, trail | Carries(s, st, trail) :: StampOk(s, st))
    && (forall c | c in s.checks && s.checks[c].stage.Versioned? :: s.checks[c].trail == [])
  }

  function NewStamp(s: State, ip: string): Stamp
    requires s.hist != []
  {
    Stamp(ip, CurrentVersion(s, ip), |Log(s, ip)|, Now(s), Last(s))
  }

  function Front(trail: seq<nat>): seq<nat>
    requires trail != []
  {
    trail[..|trail| - 1]
  }

  /** A step adds to what may be served a check that begins, with no reads, or one read at this moment. */
  lemma CarriesFrom(s: State, e: Event, st: Stamp, trail: seq<nat>)
    requires CanStep(s, e) && Moments(s) && Carries(Apply(s, e), st, trail)
    ensures
      || Carries(s, st, trail)
      || (e.Begin? && st == NewStamp(s, e.ip) && trail == [])
      || (e.Miss? && trail == [] && Carries(s, st, s.checks[e.id].trail))
      || (e.Read? && trail != [] && trail[|trail| - 1] == Last(s) && Carries(s, st, Front(trail)))
  {
    var t := Apply(s, e);
    if exists c :: c in t.checks && t.checks[c].stamp == st && t.checks[c].trail == trail {
      var c :| c in t.checks && t.checks[c].stamp == st && t.checks[c].trail == trail;
      CheckComesFrom(s, e, c);
    } else {
      var key :| key in t.decisions && t.decisions[key].stamp == st && t.decisions[key].trail == trail && Now(t) < t.decisions[key].expiry;
      if e.Store? && key == KeyOf(s.checks[e.id].stamp, s.checks[e.id].domain) {
        assert s.checks[e.id].stamp == st && s.checks[e.id].trail == trail;
      } else {
        assert key in s.decisions && s.decisions[key] == t.decisions[key];
      }
    }
  }

  lemma CheckComesFrom(s: State, e: Event, c: nat)
    requires CanStep(s, e) && c in Apply(s, e).checks
    ensures var x := Apply(s, e).checks[c];
      || (c in s.checks && s.checks[c].stamp == x.stamp && s.checks[c].trail == x.trail)
      || (e.Begin? && x.stamp == NewStamp(s, e.ip) && x.trail == [])
      || (e.Miss? && e.id == c && c in s.checks && x.trail == [] && s.checks[c].stamp == x.stamp)
      || (e.Read? && c in s.checks && s.checks[c].stamp == x.stamp && x.trail == s.checks[c].trail + [Last(s)])
  {
  }

  /** Who carries reads is known, timely, and has made them since it began. */
  lemma CarriedIsKnown(s: State, st: Stamp, trail: seq<nat>)
    requires Base(s) && Carries(s, st, trail)
    ensures Timely(s, st) && StampKnown(s, st) && TrailFrom(s, trail, st.startMoment, st.startedAt)
    ensures Since(s, st.ip, st.era, trail)
  {
    if exists c :: c in s.checks && s.checks[c].stamp == st && s.checks[c].trail == trail {
      var c :| c in s.checks && s.checks[c].stamp == st && s.checks[c].trail == trail;
      assert CheckOk(s, s.checks[c]);
    } else {
      var key :| key in s.decisions && s.decisions[key].stamp == st && s.decisions[key].trail == trail && Now(s) < s.decisions[key].expiry;
      assert EntryOk(s, key, s.decisions[key]);
    }
  }

  predicate BumpSetOn(s: State, e: Event, ip: string) {
    e.BumpSet? && e.id in s.pending && s.pending[e.id].ip == ip
  }

  lemma CounterKept(s: State, e: Event, ip: string)
    requires CanStep(s, e) && !BumpSetOn(s, e, ip)
    ensures Log(Apply(s, e), ip) == Log(s, ip)
    ensures ip in Apply(s, e).versions <==> ip in s.versions
    ensures ip in s.versions ==> Apply(s, e).versions[ip] == s.versions[ip]
  {
  }

  lemma ClockOnlyMoves(s: State, e: Event)
    requires CanStep(s, e)
    ensures Apply(s, e).hist != [] && Now(s) <= Now(Apply(s, e)) && Apply(s, e).maxCheck == s.maxCheck
  {
  }

  lemma BumpSetCounts(s: State, e: Event, ip: string)
    requires CanStep(s, e) && CounterOk(s, ip) && BumpSetOn(s, e, ip)
    ensures CounterOk(Apply(s, e), ip) && LastBump(Apply(s, e), ip) == Bump(Now(s), Last(s))
    ensures Log(Apply(s, e), ip) == Log(s, ip) + [Bump(Now(s), Last(s))] && Apply(s, e).hist == s.hist
  {
  }

  lemma CounterStaysOk(s: State, e: Event, ip: string)
    requires CanStep(s, e) && CounterOk(s, ip)
    ensures CounterOk(Apply(s, e), ip)
  {
    if BumpSetOn(s, e, ip) {
      BumpSetCounts(s, e, ip);
    } else {
      ClockOnlyMoves(s, e);
      CounterKept(s, e, ip);
    }
  }

  lemma OldStampStaysOk(s: State, e: Event, st: Stamp)
    requires CanStep(s, e) && CounterOk(s, st.ip) && StampOk(s, st) && Timely(Apply(s, e), st)
    ensures CounterOk(Apply(s, e), st.ip) && StampOk(Apply(s, e), st)
  {
    CounterStaysOk(s, e, st.ip);
    if BumpSetOn(s, e, st.ip) {
      BumpSetCounts(s, e, st.ip);
    } else {
      CounterKept(s, e, st.ip);
    }
  }

  lemma NewStampOk(s: State, e: Event, ip: string)
    requires CanStep(s, e) && CounterOk(s, ip) && e.Begin? && e.ip == ip && Timely(Apply(s, e), NewStamp(s, ip))
    ensures CounterOk(Apply(s, e), ip) && StampOk(Apply(s, e), NewStamp(s, ip))
  {
    CounterKept(s, e, ip);
    CounterStaysOk(s, e, ip);
  }

  lemma StampStaysOk(s: State, e: Event, st: Stamp, trail: seq<nat>)
    requires Book(s) && Enabled(s, e) && Carries(Apply(s, e), st, trail)
    ensures CounterOk(Apply(s, e), st.ip) && StampOk(Apply(s, e), st)
  {
    BasePreserved(s, e);
    CarriedIsKnown(Apply(s, e), st, trail);
    CarriesFrom(s, e, st, trail);
    assert CounterOk(s, st.ip);
    if e.Begin? && st == NewStamp(s, e.ip) && trail == [] {
      NewStampOk(s, e, e.ip);
    } else {
      OldStampStaysOk(s, e, st);
    }
  }

  lemma BookPreserved(s: State, e: Event)
    requires Book(s) && Enabled(s, e)
    ensures Book(Apply(s, e))
  {
    BasePreserved(s, e);
    forall ip ensures CounterOk(Apply(s, e), ip) {
      assert CounterOk(s, ip);
      CounterStaysOk(s, e, ip);
    }
    forall st, trail | Carries(Apply(s, e), st, trail) ensures StampOk(Apply(s, e), st) {
      StampStaysOk(s, e, st, trail);
    }
    VersionedHaveNoReads(s, e);
  }

  lemma VersionedHaveNoReads(s: State, e: Event)
    requires CanStep(s, e)
    requires forall c | c in s.checks && s.checks[c].stage.Versioned? :: s.checks[c].trail == []
    ensures forall c | c in Apply(s, e).checks && Apply(s, e).checks[c].stage.Versioned? :: Apply(s, e).checks[c].trail == []
  {
  }

  // ---- Freshness.

  /** What a check begun now could be served under its version is fresh for it. */
  ghost predicate CurrentFresh(s: State)
    requires s.hist != []
  {
    forall st, trail | Carries(s, st, trail) && st.version == CurrentVersion(s, st.ip) ::
      Since(s, st.ip, |Log(s, st.ip)|, trail)
  }

  /** What a check that has just read its version could be served is fresh for it. */
  ghost predicate VersionedFresh(s: State)
    requires s.hist != []
  {
    forall c, st, trail | c in s.checks && s.checks[c].stage.Versioned? && Carries(s, st, trail)
                          && st.ip == s.checks[c].stamp.ip && st.version == s.checks[c].stamp.version ::
      Since(s, st.ip, s.checks[c].stamp.era, trail)
  }

  ghost predicate Inv(s: State) { Book(s) && CurrentFresh(s) && VersionedFresh(s) && AllFresh(s) }

  /** A live counter's version, or zero. */
  lemma VersionAfter(s: State, e: Event, ip: string)
    requires CanStep(s, e) && CounterOk(s, ip) && !BumpSetOn(s, e, ip)
    ensures
      var t := Apply(s, e);
      CurrentVersion(t, ip) == CurrentVersion(s, ip)
      || (Log(s, ip) != [] && LastBump(s, ip).at + VERSION_TTL <= Now(t) && CurrentVersion(t, ip) == 0)
  {
    CounterKept(s, e, ip);
    ClockOnlyMoves(s, e);
  }

  /** Once the counter has expired, only checks since the last bump are still around. */
  lemma ExpiredMeansSince(s: State, st: Stamp, trail: seq<nat>)
    requires Book(s) && Carries(s, st, trail)
    requires Log(s, st.ip) != [] && LastBump(s, st.ip).at + VERSION_TTL <= Now(s)
    ensures Since(s, st.ip, |Log(s, st.ip)|, trail)
  {
    CarriedIsKnown(s, st, trail);
    assert StampOk(s, st);
  }

  lemma SinceKept(s: State, t: State, ip: string, k: nat, trail: seq<nat>)
    requires Grows(s, t) && Since(s, ip, k, trail)
    ensures Since(t, ip, k, trail)
  {
    assert Log(s, ip) <= Log(t, ip);
  }

  /** One more read, at this moment, comes after every bump. */
  lemma SinceReads(s: State, ip: string, k: nat, trail: seq<nat>)
    requires Base(s) && trail != [] && trail[|trail| - 1] == Last(s) && Since(s, ip, k, Front(trail))
    ensures Since(s, ip, k, trail)
  {
    forall j | 0 <= j < k ensures TrailSince(trail, Log(s, ip)[j].moment) {
      assert TrailSince(Front(trail), Log(s, ip)[j].moment);
      forall i | 0 <= i < |trail| ensures Log(s, ip)[j].moment <= trail[i] {
        assert i < |trail| - 1 ==> Front(trail)[i] == trail[i];
      }
    }
  }

  /** Freshness of what is carried survives a step, for any number of bumps already complete. */
  lemma CarriedStaysSince(s: State, e: Event, st: Stamp, trail: seq<nat>, k: nat)
    requires Base(s) && Enabled(s, e) && Carries(Apply(s, e), st, trail) && k <= |Log(s, st.ip)|
    requires forall tr | Carries(s, st, tr) :: Since(s, st.ip, k, tr)
    ensures Since(Apply(s, e), st.ip, k, trail)
  {
    ApplyGrows(s, e);
    CarriesFrom(s, e, st, trail);
    if trail == [] {
      assert Log(s, st.ip) <= Log(Apply(s, e), st.ip);
    } else if Carries(s, st, trail) {
      SinceKept(s, Apply(s, e), st.ip, k, trail);
    } else {
      SinceReads(s, st.ip, k, trail);
      SinceKept(s, Apply(s, e), st.ip, k, trail);
    }
  }

  /** Away from the write of a bump, what is current stays fresh. */
  lemma CurrentStaysFresh(s: State, e: Event, st: Stamp, trail: seq<nat>)
    requires Inv(s) && Enabled(s, e) && Carries(Apply(s, e), st, trail) && !BumpSetOn(s, e, st.ip)
    requires st.version == CurrentVersion(Apply(s, e), st.ip)
    ensures Since(Apply(s, e), st.ip, |Log(Apply(s, e), st.ip)|, trail)
  {
    CounterKept(s, e, st.ip);
    assert CounterOk(s, st.ip);
    VersionAfter(s, e, st.ip);
    if CurrentVersion(Apply(s, e), st.ip) == CurrentVersion(s, st.ip) {
      CarriedStaysSince(s, e, st, trail, |Log(s, st.ip)|);
    } else {
      BookPreserved(s, e);
      ExpiredMeansSince(Apply(s, e), st, trail);
    }
  }

  lemma VersionedStaysFresh(s: State, e: Event, c: nat, st: Stamp, trail: seq<nat>)
    requires Inv(s) && Enabled(s, e) && Carries(Apply(s, e), st, trail)
    requires c in Apply(s, e).checks && Apply(s, e).checks[c].stage.Versioned?
    requires st.ip == Apply(s, e).checks[c].stamp.ip && st.version == Apply(s, e).checks[c].stamp.version
    ensures Since(Apply(s, e), st.ip, Apply(s, e).checks[c].stamp.era, trail)
  {
    if c in s.checks {
      assert s.checks[c] == Apply(s, e).checks[c];
      assert CheckOk(s, s.checks[c]);
      CarriedStaysSince(s, e, st, trail, s.checks[c].stamp.era);
    } else {
      assert e.Begin? && Apply(s, e).checks[c].stamp == NewStamp(s, e.ip);
      CarriedStaysSince(s, e, st, trail, |Log(s, st.ip)|);
    }
  }

  lemma ReplyStaysFresh(s: State, e: Event, c: nat)
    requires Inv(s) && Enabled(s, e) && c in Apply(s, e).replies
    ensures ReplyFresh(Apply(s, e), Apply(s, e).replies[c])
  {
    var t := Apply(s, e);
    ApplyGrows(s, e);
    var r := t.replies[c];
    if e.Hit? && e.id == c {
      HitIsFresh(s, c);
    } else if e.Store? && e.id == c {
      CarriedIsKnown(s, s.checks[c].stamp, s.checks[c].trail);
    } else {
      assert s.replies[c] == r;
    }
    SinceKept(s, t, r.stamp.ip, r.stamp.era, r.trail);
  }

  /** A hit serves reads made after every bump that was complete when the asking check began. */
  lemma HitIsFresh(s: State, c: nat)
    requires Inv(s) && Enabled(s, Hit(c))
    ensures var check := s.checks[c];
      Since(s, check.stamp.ip, check.stamp.era, s.decisions[KeyOf(check.stamp, check.domain)].trail)
  {
    var key := KeyOf(s.checks[c].stamp, s.checks[c].domain);
    assert EntryOk(s, key, s.decisions[key]);
    HitCarries(s, key);
  }

  lemma HitCarries(s: State, key: Key)
    requires s.hist != [] && key in s.decisions && Now(s) < s.decisions[key].expiry
    ensures Carries(s, s.decisions[key].stamp, s.decisions[key].trail)
  {
  }

  /** After a bump's write, what is current is fresh exactly when the write was safe. */
  lemma WriteIsSafeExactlyWhenFresh(s: State, w: nat)
    requires Inv(s) && Enabled(s, BumpSet(w))
    ensures CurrentFresh(Apply(s, BumpSet(w))) <==> SafeWrite(s, w)
  {
    var t, ip := Apply(s, BumpSet(w)), s.pending[w].ip;
    assert CounterOk(s, ip);
    BumpSetCounts(s, BumpSet(w), ip);
    ApplyGrows(s, BumpSet(w));
    assert CurrentVersion(t, ip) == s.pending[w].found + 1;
    forall st, trail ensures Carries(t, st, trail) <==> Carries(s, st, trail) {
      SameCarriers(s, w, st, trail);
    }
    forall st, trail | Carries(s, st, trail) && st.ip == ip
      ensures Since(t, ip, |Log(t, ip)|, trail) <==> TrailSince(trail, Last(s))
    {
      SinceAllIsSinceLast(s, w, trail);
    }
    forall st, trail | Carries(t, st, trail) && st.ip != ip && st.version == CurrentVersion(t, st.ip)
      ensures Since(t, st.ip, |Log(t, st.ip)|, trail)
    {
      CurrentStaysFresh(s, BumpSet(w), st, trail);
    }
  }

  lemma SameCarriers(s: State, w: nat, st: Stamp, trail: seq<nat>)
    requires CanStep(s, BumpSet(w))
    ensures Carries(Apply(s, BumpSet(w)), st, trail) <==> Carries(s, st, trail)
  {
  }

  lemma SinceAllIsSinceLast(s: State, w: nat, trail: seq<nat>)
    requires Base(s) && Enabled(s, BumpSet(w))
    ensures var t, ip := Apply(s, BumpSet(w)), s.pending[w].ip;
      Since(t, ip, |Log(t, ip)|, trail) <==> TrailSince(trail, Last(s))
  {
    var t, ip := Apply(s, BumpSet(w)), s.pending[w].ip;
    assert Log(t, ip) == Log(s, ip) + [Bump(Now(s), Last(s))];
    assert Log(t, ip)[|Log(s, ip)|].moment == Last(s);
    forall j | 0 <= j < |Log(t, ip)| ensures Log(t, ip)[j].moment <= Last(s) {
      assert j < |Log(s, ip)| ==> Log(t, ip)[j] == Log(s, ip)[j];
    }
  }

  /** A step keeps everything fresh, now and for what may still be served, exactly when it is safe. */
  lemma StepIsSafeExactlyWhenFresh(s: State, e: Event)
    requires Inv(s) && Enabled(s, e)
    ensures Inv(Apply(s, e)) <==> SafeStep(s, e)
  {
    var t := Apply(s, e);
    BookPreserved(s, e);
    forall c, st, trail | c in t.checks && t.checks[c].stage.Versioned? && Carries(t, st, trail)
                          && st.ip == t.checks[c].stamp.ip && st.version == t.checks[c].stamp.version
      ensures Since(t, st.ip, t.checks[c].stamp.era, trail)
    {
      VersionedStaysFresh(s, e, c, st, trail);
    }
    forall c | c in t.replies ensures ReplyFresh(t, t.replies[c]) {
      ReplyStaysFresh(s, e, c);
    }
    if e.BumpSet? {
      WriteIsSafeExactlyWhenFresh(s, e.id);
    } else {
      forall st, trail | Carries(t, st, trail) && st.version == CurrentVersion(t, st.ip)
        ensures Since(t, st.ip, |Log(t, st.ip)|, trail)
      {
        CurrentStaysFresh(s, e, st, trail);
      }
    }
  }

  lemma {:induction false} InvAlways(s: State, es: seq<Event>)
    requires Inv(s) && Runs(s, es) && SafeRun(s, es)
    ensures Inv(Run(s, es))
    decreases |es|
  {
    if es != [] {
      StepIsSafeExactlyWhenFresh(s, es[0]);
      InvAlways(Apply(s, es[0]), es[1..]);
    }
  }

  lemma InitInv(engine: Engine, maxCheck: nat, m: Moment)
    requires maxCheck + DECISION_TTL <= VERSION_TTL
    ensures Inv(Init(engine, maxCheck, m))
  {
  }
}
