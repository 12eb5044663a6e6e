/**
 * The condition on bump writes is exact: a run all of whose writes are safe never gives a stale
 * reply, and after a write that is not, some check begun at once is answered stale.
 */
module DnsExact {
  import opened DnsCache
  import opened DnsFresh
  import opened DnsChecks

  /** No time passes, no table is written and no version moves: only checks read, store, begin and hit. */
  predicate OnlyChecks(es: seq<Event>) {
    forall i | 0 <= i < |es| :: es[i].Read? || es[i].Store? || es[i].Begin? || es[i].Hit?
  }

  lemma ReadsAreChecks(c: nat, n: nat)
    ensures OnlyChecks(Reads(c, n))
  {
  }

  /** A readable decision of the current version that rests on a read before the last bump is served at once. */
  lemma StaleDecisionIsServed(s: State, key: Key, c: nat) returns (es: seq<Event>, t: State)
    requires s.hist != [] && key in s.decisions && Now(s) < s.decisions[key].expiry
    requires key.version == CurrentVersion(s, key.ip) && Log(s, key.ip) != []
    requires !TrailSince(s.decisions[key].trail, LastBump(s, key.ip).moment)
    requires c !in s.checks && c !in s.replies
    ensures Goes(s, es, t) && OnlyChecks(es) && c in t.replies && !ReplyFresh(t, t.replies[c])
  {
    HitState(s, c, key.ip, key.domain);
    es := [Begin(c, key.ip, key.domain), Hit(c)];
    GoesTwo(s, es[0], es[1]);
    t := Apply(Apply(s, es[0]), es[1]);
    assert Log(t, key.ip) == Log(s, key.ip);
    assert Log(t, key.ip)[|Log(s, key.ip)| - 1].moment == LastBump(s, key.ip).moment;
  }

  /** A check in flight under the current version, with such a read, stores such a decision. */
  lemma StaleCheckIsStored(strict: seq<string>, s: State, d: nat) returns (es: seq<Event>, t: State, key: Key)
    requires s.hist != [] && s.engine == PolicyEngine(strict) && d in s.checks && s.checks[d].stage.Reading?
    ensures Goes(s, es, t) && OnlyChecks(es) && t.hist == s.hist && t.versions == s.versions && t.bumps == s.bumps
    ensures key == KeyOf(s.checks[d].stamp, s.checks[d].domain) && key in t.decisions && Now(t) < t.decisions[key].expiry
    ensures s.checks[d].trail <= t.decisions[key].trail
    ensures t.checks.Keys <= s.checks.Keys && t.replies.Keys == s.replies.Keys + {d}
  {
    var stamp, domain, p := s.checks[d].stamp, s.checks[d].domain, s.checks[d].stage.phase;
    AnyPhaseDecides(strict, p, s.hist[Last(s)], stamp.ip, domain);
    var k, s1 := ReadsLead(s, d, stamp, domain, p, 5);
    ReadsAreChecks(d, k);
    key := KeyOf(stamp, domain);
    var r := After(s.engine, p, s.hist[Last(s)], stamp.ip, domain, 5).response;
    StoredState(s1, d, stamp, domain, r);
    GoesOne(s1, Store(d));
    t := Apply(s1, Store(d));
    GoesConcat(s, Reads(d, k), s1, [Store(d)], t);
    es := Reads(d, k) + [Store(d)];
  }

  lemma OnlyChecksConcat(a: seq<Event>, b: seq<Event>)
    requires OnlyChecks(a) && OnlyChecks(b)
    ensures OnlyChecks(a + b)
  {
  }

  /** What an unsafe write leaves behind. */
  lemma UnsafeLeaves(s: State, w: nat) returns (st: Stamp, trail: seq<nat>)
    requires Inv(s) && Enabled(s, BumpSet(w)) && !SafeWrite(s, w)
    ensures var t := Apply(s, BumpSet(w));
      && Carries(t, st, trail) && st.version == CurrentVersion(t, st.ip) && Log(t, st.ip) != []
      && !TrailSince(trail, LastBump(t, st.ip).moment)
  {
    st, trail :| Carries(s, st, trail) && st.ip == s.pending[w].ip && st.version == s.pending[w].found + 1
                 && !TrailSince(trail, Last(s));
    SameCarriers(s, w, st, trail);
    assert CounterOk(s, st.ip);
    BumpSetCounts(s, BumpSet(w), st.ip);
  }

  lemma StaleCheckIsServed(strict: seq<string>, s: State, d: nat, c: nat) returns (es: seq<Event>, t: State)
    requires s.hist != [] && s.engine == PolicyEngine(strict) && d in s.checks && s.checks[d].stage.Reading?
    requires s.checks[d].stamp.version == CurrentVersion(s, s.checks[d].stamp.ip) && Log(s, s.checks[d].stamp.ip) != []
    requires !TrailSince(s.checks[d].trail, LastBump(s, s.checks[d].stamp.ip).moment)
    requires c !in s.checks && c !in s.replies
    ensures Goes(s, es, t) && OnlyChecks(es) && c in t.replies && !ReplyFresh(t, t.replies[c])
  {
    var ip := s.checks[d].stamp.ip;
    var es1, s1, key := StaleCheckIsStored(strict, s, d);
    assert Log(s1, ip) == Log(s, ip);
    LongerStaysOld(s.checks[d].trail, s1.decisions[key].trail, LastBump(s, ip).moment);
    var es2;
    es2, t := StaleDecisionIsServed(s1, key, c);
    GoesConcat(s, es1, s1, es2, t);
    OnlyChecksConcat(es1, es2);
    es := es1 + es2;
  }

  /** The converse half: after an unsafe write some check begun with nothing in between is answered stale. */
  lemma UnsafeWriteGoesStale(strict: seq<string>, s: State, w: nat, c: nat) returns (es: seq<Event>, t: State)
    requires Inv(s) && s.engine == PolicyEngine(strict) && Enabled(s, BumpSet(w)) && !SafeWrite(s, w)
    requires c !in s.checks && c !in s.replies
    ensures Goes(Apply(s, BumpSet(w)), es, t) && OnlyChecks(es)
    ensures c in t.replies && !ReplyFresh(t, t.replies[c])
  {
    var s1 := Apply(s, BumpSet(w));
    var st, trail := UnsafeLeaves(s, w);
    if key :| key in s1.decisions && s1.decisions[key].stamp == st && s1.decisions[key].trail == trail && Now(s1) < s1.decisions[key].expiry {
      DecisionKeyed(s, w, key);
      es, t := StaleDecisionIsServed(s1, key, c);
    } else {
      var d :| d in s1.checks && s1.checks[d].stamp == st && s1.checks[d].trail == trail;
      assert s.checks[d] == s1.checks[d];
      es, t := StaleCheckIsServed(strict, s1, d, c);
    }
  }

  lemma DecisionKeyed(s: State, w: nat, key: Key)
    requires Base(s) && Enabled(s, BumpSet(w)) && key in Apply(s, BumpSet(w)).decisions
    ensures var entry := Apply(s, BumpSet(w)).decisions[key]; key == KeyOf(entry.stamp, entry.domain)
  {
    assert EntryOk(s, key, s.decisions[key]);
  }

  lemma LongerStaysOld(a: seq<nat>, b: seq<nat>, lo: nat)
    requires a <= b && !TrailSince(a, lo)
    ensures !TrailSince(b, lo)
  {
    var i :| 0 <= i < |a| && a[i] < lo;
    assert b[i] == a[i];
  }

  /** An id no request has used. */
  lemma SomeNewId(s: State) returns (c: nat)
    ensures c !in s.checks && c !in s.replies
  {
    c := AboveAll(s.checks.Keys + s.replies.Keys);
  }

  lemma {:induction false} AboveAll(ids: set<nat>) returns (c: nat)
    ensures forall i | i in ids :: i < c
    decreases |ids|
  {
    if ids == {} {
      c := 0;
    } else {
      var i :| i in ids;
      var rest := AboveAll(ids - {i});
      c := if i < rest then rest else i + 1;
      forall j | j in ids ensures j < c {
        assert j == i || j in ids - {i};
      }
    }
  }

  // ---- Over runs.

  predicate NoBumpWrite(es: seq<Event>) { forall i | 0 <= i < |es| :: !es[i].BumpSet? }

  /** However the run goes on, short of another bump write, no reply is stale. */
  ghost predicate Robust(s: State) {
    forall more, t | Goes(s, more, t) && NoBumpWrite(more) :: AllFresh(t)
  }

  lemma {:induction false} NoWriteIsSafe(s: State, es: seq<Event>)
    requires s.hist != [] && Runs(s, es) && NoBumpWrite(es)
    ensures SafeRun(s, es)
    decreases |es|
  {
    if es != [] {
      NoWriteIsSafe(Apply(s, es[0]), es[1..]);
    }
  }

  lemma InvIsRobust(s: State)
    requires Inv(s)
    ensures Robust(s)
  {
    forall more, t | Goes(s, more, t) && NoBumpWrite(more) ensures AllFresh(t) {
      NoWriteIsSafe(s, more);
      InvAlways(s, more);
    }
  }

  lemma UnsafeIsNotRobust(strict: seq<string>, s: State, w: nat)
    requires Inv(s) && s.engine == PolicyEngine(strict) && Enabled(s, BumpSet(w)) && !SafeWrite(s, w)
    ensures !Robust(Apply(s, BumpSet(w)))
  {
    var c := SomeNewId(s);
    var es, t := UnsafeWriteGoesStale(strict, s, w, c);
    assert Goes(Apply(s, BumpSet(w)), es, t) && NoBumpWrite(es) && !AllFresh(t);
  }

  ghost predicate RobustThroughout(s: State, es: seq<Event>)
    requires s.hist != [] && Runs(s, es)
    decreases |es|
  {
    Robust(s) && (es == [] || RobustThroughout(Apply(s, es[0]), es[1..]))
  }

  /**
   * Exactness: at every moment of a run no reply, then or later, can be stale short of a further
   * bump, if and only if every bump of the run was written safely.
   */
  lemma {:induction false} FreshExactlyWhenWritesAreSafe(strict: seq<string>, s: State, es: seq<Event>)
    requires Inv(s) && s.engine == PolicyEngine(strict) && Runs(s, es)
    ensures RobustThroughout(s, es) <==> SafeRun(s, es)
    decreases |es|
  {
    InvIsRobust(s);
    if es != [] {
      StepIsSafeExactlyWhenFresh(s, es[0]);
      if SafeStep(s, es[0]) {
        FreshExactlyWhenWritesAreSafe(strict, Apply(s, es[0]), es[1..]);
      } else {
        UnsafeIsNotRobust(strict, s, es[0].id);
        NotRobustFirst(Apply(s, es[0]), es[1..]);
      }
    }
  }

  lemma NotRobustFirst(s: State, es: seq<Event>)
    requires s.hist != [] && Runs(s, es) && !Robust(s)
    ensures !RobustThroughout(s, es)
  {
  }
}
