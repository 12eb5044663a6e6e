/**
 * Session runs: every operation is a read with its checks, then one write computed from what was
 * read; the scheduler's minute tick expires what has run out. Session ids are table positions.
 */
module SessionRuns {
  import opened Common
  import opened Sessions

  datatype Op = Pause | Resume | Extend(extraMinutes: nat) | Stop | Expire | Violate

  /** An operation between its read and its write. */
  datatype Request = Request(id: nat, op: Op, snapshot: Session, at: nat)

  datatype State = State(now: nat, lastTick: nat, rows: seq<Session>, requests: map<nat, Request>)

  datatype Event =
    | Advance(ms: nat)
    | Create(deviceId: nat, childId: nat, parentId: nat, durationMinutes: nat)
    | Begin(p: nat, id: nat, op: Op)
    | Commit(p: nat)
    | Check                                // one whole checkActiveSessions

  function Init(): State { State(0, 0, [], map[]) }

  predicate Live(s: Session) { s.status == ACTIVE || s.status == PAUSED }

  /** The status check of each operation; `expire` and `markViolated` have none. */
  predicate Allowed(s: Session, op: Op) {
    match op
    case Pause => s.status == ACTIVE
    case Resume => s.status == PAUSED
    case Extend(_) => Live(s)
    case Stop => s.status != STOPPED
    case Expire => true
    case Violate => true
  }

  /** The columns an operation writes, computed from the row it read, over the row now stored. */
  function Write(row: Session, read: Session, op: Op, at: nat): Session {
    match op
    case Pause =>
      row.(status := PAUSED, pausedAt := Some(at),
           remainingMinutes := Max0(read.durationMinutes + read.extendedMinutes - CalculateElapsedMinutes(read, at)))
    case Resume => row.(status := ACTIVE, resumedAt := Some(at))
    case Extend(x) =>
      row.(extendedMinutes := read.extendedMinutes + x, remainingMinutes := read.remainingMinutes + x)
    case Stop => row.(status := STOPPED, stoppedAt := Some(at), remainingMinutes := 0)
    case Expire => row.(status := EXPIRED, expiredAt := Some(at), remainingMinutes := 0)
    case Violate => row.(violated := true, status := VIOLATED)
  }

  function NewSession(deviceId: nat, childId: nat, parentId: nat, durationMinutes: nat, now: nat): Session {
    Session(deviceId, childId, parentId, ACTIVE, now, None, None, None, None, durationMinutes, durationMinutes, 0, false)
  }

  predicate RunOut(s: Session, now: nat) { s.status == ACTIVE && SchedulerExpired(s, now) }

  function Expired(rows: seq<Session>, now: nat): seq<Session> {
    seq(|rows|, i requires 0 <= i < |rows| => if RunOut(rows[i], now) then Write(rows[i], rows[i], Expire, now) else rows[i])
  }

  predicate Enabled(s: State, e: Event) {
    match e
    case Advance(_) => true
    case Create(_, _, _, minutes) => minutes >= 1
    case Begin(p, id, op) => p !in s.requests && (op.Extend? ==> op.extraMinutes >= 1)
    case Commit(p) => p in s.requests && s.requests[p].id < |s.rows|
    case Check => true
  }

  function Apply(s: State, e: Event): State
    requires Enabled(s, e)
  {
    match e
    case Advance(ms) => s.(now := s.now + ms)
    case Create(d, c, parent, minutes) => s.(rows := s.rows + [NewSession(d, c, parent, minutes, s.now)])
    case Begin(p, id, op) =>
      if id < |s.rows| && Allowed(s.rows[id], op)
      then s.(requests := s.requests[p := Request(id, op, s.rows[id], s.now)])
      else s
    case Commit(p) =>
      var r := s.requests[p];
      s.(rows := s.rows[r.id := Write(s.rows[r.id], r.snapshot, r.op, r.at)], requests := s.requests - {p})
    case Check => s.(rows := Expired(s.rows, s.now), lastTick := s.now)
  }

  predicate Runs(s: State, es: seq<Event>)
    decreases |es|
  {
    es == [] || (Enabled(s, es[0]) && Runs(Apply(s, es[0]), es[1..]))
  }

  function Run(s: State, es: seq<Event>): State
    requires Runs(s, es)
    decreases |es|
  {
    if es == [] then s else Run(Apply(s, es[0]), es[1..])
  }

  /** A write finds the row as it was read. */
  predicate Undisturbed(s: State, e: Event)
    requires Enabled(s, e)
  {
    e.Commit? ==> s.rows[s.requests[e.p].id] == s.requests[e.p].snapshot
  }

  predicate UndisturbedRun(s: State, es: seq<Event>)
    requires Runs(s, es)
    decreases |es|
  {
    es == [] || (Undisturbed(s, es[0]) && UndisturbedRun(Apply(s, es[0]), es[1..]))
  }

  // ---- What every run keeps.

  predicate RowOk(r: Session, now: nat) {
    0 <= r.remainingMinutes && 1 <= r.durationMinutes && 0 <= r.extendedMinutes && Reference(r) <= now
  }

  /** What a request has read was in order then, and durations never change. */
  predicate RequestOk(s: State, r: Request) {
    && r.id < |s.rows| && r.at <= s.now && Allowed(r.snapshot, r.op) && RowOk(r.snapshot, r.at)
    && r.snapshot.durationMinutes == s.rows[r.id].durationMinutes
    && (r.op.Extend? ==> r.op.extraMinutes >= 1)
  }

  predicate Inv(s: State) {
    && s.lastTick <= s.now
    && (forall i | 0 <= i < |s.rows| :: RowOk(s.rows[i], s.now))
    && (forall p | p in s.requests :: RequestOk(s, s.requests[p]))
  }

  lemma WriteKeepsRow(row: Session, read: Session, op: Op, at: nat, now: nat)
    requires RowOk(row, now) && RowOk(read, at) && at <= now && (op.Extend? ==> op.extraMinutes >= 1)
    ensures RowOk(Write(row, read, op, at), now)
  {
  }

  lemma {:induction false} InvPreserved(s: State, e: Event)
    requires Inv(s) && Enabled(s, e)
    ensures Inv(Apply(s, e))
  {
    match e
    case Commit(p) =>
      var r := s.requests[p];
      assert RequestOk(s, r);
      WriteKeepsRow(s.rows[r.id], r.snapshot, r.op, r.at, s.now);
    case Check =>
    case _ =>
  }

  // ---- What a step leaves alone.

  /** A request's write changes its own row, a creation none; a tick only active rows, and those to EXPIRED. */
  lemma OtherRowsUntouched(s: State, e: Event, i: nat)
    requires Enabled(s, e) && i < |s.rows| && (e.Commit? ==> s.requests[e.p].id != i)
    ensures i < |Apply(s, e).rows|
    ensures Apply(s, e).rows[i] == s.rows[i] || (e.Check? && s.rows[i].status == ACTIVE && Apply(s, e).rows[i].status == EXPIRED)
  {
  }

  /** Who is admitted, by the row's status when it is read; an expiry or a violation always is. */
  lemma BeginAdmits(s: State, p: nat, id: nat, op: Op)
    requires Enabled(s, Begin(p, id, op))
    ensures Apply(s, Begin(p, id, op)).rows == s.rows
    ensures id >= |s.rows| ==> p !in Apply(s, Begin(p, id, op)).requests
    ensures id < |s.rows| ==>
      (p in Apply(s, Begin(p, id, op)).requests <==>
        match op
        case Pause => s.rows[id].status == ACTIVE
        case Resume => s.rows[id].status == PAUSED
        case Extend(_) => s.rows[id].status in {ACTIVE, PAUSED}
        case Stop => s.rows[id].status != STOPPED
        case _ => true)
  {
  }

  /** Remaining minutes by status: what is left of the grant since the start or the last resume, never below zero when active. */
  lemma RemainingByStatus(r: Session, now: int)
    ensures var left := r.durationMinutes + r.extendedMinutes
              - (now - if r.resumedAt.Some? then r.resumedAt.value else r.startedAt) / 60000;
      CalculateRemainingMinutes(r, now) ==
      if r.status == PAUSED then left else if r.status == ACTIVE && left > 0 then left else 0
  {
  }

  /** Owner, child, device, start and duration are never written; a violation is marked and written to no other column. */
  lemma ColumnsOfAWrite(s: State, p: nat)
    requires Enabled(s, Commit(p))
    ensures var r := s.requests[p]; var was, now := s.rows[r.id], Apply(s, Commit(p)).rows[r.id];
      && now.deviceId == was.deviceId && now.childId == was.childId && now.parentId == was.parentId
      && now.startedAt == was.startedAt && now.durationMinutes == was.durationMinutes
      && (r.op.Violate? ==> now == was.(violated := true, status := VIOLATED))
      && (!r.op.Violate? ==> now.violated == was.violated)
  {
  }

  // ---- The bound on remaining time.

  predicate Within(r: Session) { r.remainingMinutes <= r.durationMinutes + r.extendedMinutes }

  /** No row, and no row as read, has more time left than was granted. */
  predicate Bounded(s: State) {
    && (forall i | 0 <= i < |s.rows| :: Within(s.rows[i]))
    && (forall p | p in s.requests :: Within(s.requests[p].snapshot))
  }

  /** The remaining time a pause computes from what it read. */
  function Left(r: Request): int {
    Max0(r.snapshot.durationMinutes + r.snapshot.extendedMinutes - CalculateElapsedMinutes(r.snapshot, r.at))
  }

  /** A pause writes no more time than the row now grants. */
  predicate PauseFits(s: State, e: Event)
    requires Enabled(s, e)
  {
    e.Commit? && s.requests[e.p].op.Pause? ==>
      Left(s.requests[e.p]) <= s.rows[s.requests[e.p].id].durationMinutes + s.rows[s.requests[e.p].id].extendedMinutes
  }

  /** The one write that breaks the bound: a pause computed from more extension than the row still has. */
  lemma BoundBrokenExactlyByPause(s: State, e: Event)
    requires Inv(s) && Bounded(s) && Enabled(s, e)
    ensures Bounded(Apply(s, e)) <==> PauseFits(s, e)
  {
    match e
    case Commit(p) =>
      var r := s.requests[p];
      assert RequestOk(s, r);
      assert Apply(s, e).rows[r.id] == Write(s.rows[r.id], r.snapshot, r.op, r.at);
    case Check =>
    case _ =>
  }

  predicate BoundedThroughout(s: State, es: seq<Event>)
    requires Runs(s, es)
    decreases |es|
  {
    Bounded(s) && (es == [] || BoundedThroughout(Apply(s, es[0]), es[1..]))
  }

  predicate PausesFit(s: State, es: seq<Event>)
    requires Runs(s, es)
    decreases |es|
  {
    es == [] || (PauseFits(s, es[0]) && PausesFit(Apply(s, es[0]), es[1..]))
  }

  lemma {:induction false} BoundedExactlyWhenPausesFit(s: State, es: seq<Event>)
    requires Inv(s) && Bounded(s) && Runs(s, es)
    ensures BoundedThroughout(s, es) <==> PausesFit(s, es)
    decreases |es|
  {
    if es != [] {
      InvPreserved(s, es[0]);
      BoundBrokenExactlyByPause(s, es[0]);
      if PauseFits(s, es[0]) {
        BoundedExactlyWhenPausesFit(Apply(s, es[0]), es[1..]);
      }
    }
  }

  /**
   * Remaining minutes are never negative, in any run; they never exceed what was granted, at any
   * moment of a run, exactly when each pause fits what its row then grants.
   */
  lemma RemainingIsBounded(es: seq<Event>)
    requires Runs(Init(), es)
    ensures BoundedThroughout(Init(), es) <==> PausesFit(Init(), es)
    ensures forall i | 0 <= i < |Run(Init(), es).rows| :: 0 <= Run(Init(), es).rows[i].remainingMinutes
  {
    BoundedExactlyWhenPausesFit(Init(), es);
    InvAlways(Init(), es);
    forall i | 0 <= i < |Run(Init(), es).rows| ensures 0 <= Run(Init(), es).rows[i].remainingMinutes {
      assert RowOk(Run(Init(), es).rows[i], Run(Init(), es).now);
    }
  }

  lemma {:induction false} InvAlways(s: State, es: seq<Event>)
    requires Inv(s) && Runs(s, es)
    ensures Inv(Run(s, es))
    decreases |es|
  {
    if es != [] {
      InvPreserved(s, es[0]);
      InvAlways(Apply(s, es[0]), es[1..]);
    }
  }

  // ---- Finished sessions.

  predicate Finished(s: State, i: nat) { i < |s.rows| && !Live(s.rows[i]) }

  /** A pause or resume whose session has ended since it was read. */
  predicate Revives(s: State, i: nat, e: Event)
    requires Enabled(s, e)
  {
    e.Commit? && s.requests[e.p].id == i && (s.requests[e.p].op.Pause? || s.requests[e.p].op.Resume?)
  }

  /** The exact way a finished session comes back to life. */
  lemma RevivedExactlyByStaleWrites(s: State, i: nat, e: Event)
    requires Finished(s, i) && Enabled(s, e)
    ensures Finished(Apply(s, e), i) <==> !Revives(s, i, e)
  {
  }

  predicate FinishedThroughout(s: State, i: nat, es: seq<Event>)
    requires Runs(s, es)
    decreases |es|
  {
    Finished(s, i) && (es == [] || FinishedThroughout(Apply(s, es[0]), i, es[1..]))
  }

  predicate NoneRevives(s: State, i: nat, es: seq<Event>)
    requires Runs(s, es)
    decreases |es|
  {
    es == [] || (!Revives(s, i, es[0]) && NoneRevives(Apply(s, es[0]), i, es[1..]))
  }

  /** A stopped, expired or violated session stays finished through a run exactly when no such write comes. */
  lemma {:induction false} FinishedStaysExactlyWithoutStaleWrites(s: State, i: nat, es: seq<Event>)
    requires Finished(s, i) && Runs(s, es)
    ensures FinishedThroughout(s, i, es) <==> NoneRevives(s, i, es)
    decreases |es|
  {
    if es != [] {
      RevivedExactlyByStaleWrites(s, i, es[0]);
      if !Revives(s, i, es[0]) {
        FinishedStaysExactlyWithoutStaleWrites(Apply(s, es[0]), i, es[1..]);
      }
    }
  }

  // ---- Punctual ticks.

  /** Time does not move more than a minute past the last tick. */
  predicate Punctual(s: State, e: Event) { e.Advance? ==> s.now + e.ms <= s.lastTick + MINUTE_MS }

  predicate PunctualRun(s: State, es: seq<Event>)
    requires Runs(s, es)
    decreases |es|
  {
    es == [] || (Punctual(s, es[0]) && PunctualRun(Apply(s, es[0]), es[1..]))
  }

  function Granted(r: Session): int { (r.durationMinutes + r.extendedMinutes) * MINUTE_MS }

  /** Some active session has run a minute or more past what it was granted. */
  predicate Overrun(s: State) {
    exists i :: 0 <= i < |s.rows| && s.rows[i].status == ACTIVE && s.now - Reference(s.rows[i]) >= Granted(s.rows[i]) + MINUTE_MS
  }

  /** At the last tick no active session had run out, nor has one begun since that had. */
  predicate NoneRunOut(s: State) {
    && s.now <= s.lastTick + MINUTE_MS
    && forall i | 0 <= i < |s.rows| && s.rows[i].status == ACTIVE :: s.lastTick - Reference(s.rows[i]) < Granted(s.rows[i])
  }

  /** Which is exactly to say that no session overruns however late, within its minute, the next tick comes. */
  lemma NoneRunOutIsNoOverrun(s: State)
    requires s.lastTick <= s.now <= s.lastTick + MINUTE_MS
    ensures NoneRunOut(s) <==> forall ms: nat :: s.now + ms <= s.lastTick + MINUTE_MS ==> !Overrun(Apply(s, Advance(ms)))
  {
    if !NoneRunOut(s) {
      var i :| 0 <= i < |s.rows| && s.rows[i].status == ACTIVE && s.lastTick - Reference(s.rows[i]) >= Granted(s.rows[i]);
      var ms := s.lastTick + MINUTE_MS - s.now;
      assert Apply(s, Advance(ms)).rows[i] == s.rows[i];
      assert Overrun(Apply(s, Advance(ms)));
    }
  }

  /** The floored test is exact: it first holds at the very millisecond the granted time is used up. */
  lemma SchedulerExpiresExactly(r: Session, now: int)
    requires r.status == ACTIVE
    ensures SchedulerExpired(r, now) <==> now - Reference(r) >= Granted(r)
  {
  }

  /** An extension leaves an active session more time than it had run by the last tick. */
  predicate ExtensionReaches(s: State, e: Event)
    requires Enabled(s, e)
  {
    e.Commit? && s.requests[e.p].op.Extend? && s.rows[s.requests[e.p].id].status == ACTIVE ==>
      var r := s.requests[e.p];
      s.lastTick - Reference(s.rows[r.id]) <
        (s.rows[r.id].durationMinutes + r.snapshot.extendedMinutes + r.op.extraMinutes) * MINUTE_MS
  }

  /** A resume gives back a session that had not run out, counted from when it was read, by the last tick. */
  predicate ResumeReaches(s: State, e: Event)
    requires Enabled(s, e)
  {
    e.Commit? && s.requests[e.p].op.Resume? ==> s.lastTick - s.requests[e.p].at < Granted(s.rows[s.requests[e.p].id])
  }

  predicate Reaches(s: State, e: Event)
    requires Enabled(s, e)
  {
    ExtensionReaches(s, e) && ResumeReaches(s, e)
  }

  /** The two writes that can make a session overrun: an extension that takes a longer one back, and a late resume. */
  lemma RunOutExactlyByLateWrites(s: State, e: Event)
    requires Inv(s) && NoneRunOut(s) && Enabled(s, e) && Punctual(s, e)
    ensures NoneRunOut(Apply(s, e)) <==> Reaches(s, e)
  {
    var t := Apply(s, e);
    match e
    case Commit(p) =>
      var r := s.requests[p];
      assert RequestOk(s, r);
      assert t.rows[r.id] == Write(s.rows[r.id], r.snapshot, r.op, r.at);
    case Check =>
      forall i | 0 <= i < |t.rows| && t.rows[i].status == ACTIVE
        ensures t.lastTick - Reference(t.rows[i]) < Granted(t.rows[i])
      {
        SchedulerExpiresExactly(s.rows[i], s.now);
      }
    case _ =>
  }

  predicate NoneRunOutThroughout(s: State, es: seq<Event>)
    requires Runs(s, es)
    decreases |es|
  {
    NoneRunOut(s) && (es == [] || NoneRunOutThroughout(Apply(s, es[0]), es[1..]))
  }

  predicate WritesReach(s: State, es: seq<Event>)
    requires Runs(s, es)
    decreases |es|
  {
    es == [] || (Reaches(s, es[0]) && WritesReach(Apply(s, es[0]), es[1..]))
  }

  lemma {:induction false} NoneRunOutExactlyWhenWritesReach(s: State, es: seq<Event>)
    requires Inv(s) && NoneRunOut(s) && Runs(s, es) && PunctualRun(s, es)
    ensures NoneRunOutThroughout(s, es) <==> WritesReach(s, es)
    ensures WritesReach(s, es) ==> NoneRunOut(Run(s, es)) && Inv(Run(s, es))
    decreases |es|
  {
    if es != [] {
      InvPreserved(s, es[0]);
      RunOutExactlyByLateWrites(s, es[0]);
      if Reaches(s, es[0]) {
        NoneRunOutExactlyWhenWritesReach(Apply(s, es[0]), es[1..]);
      }
    }
  }

  /**
   * With a tick every minute, no active session can run a minute past its granted time, at any
   * moment of a run, exactly when no extension takes a longer one back and no resume comes too late.
   */
  lemma OverrunIsUnderAMinute(es: seq<Event>)
    requires Runs(Init(), es) && PunctualRun(Init(), es)
    ensures NoneRunOutThroughout(Init(), es) <==> WritesReach(Init(), es)
    ensures WritesReach(Init(), es) ==> !Overrun(Run(Init(), es))
  {
    NoneRunOutExactlyWhenWritesReach(Init(), es);
  }

  // ---- Rules that meet the conditions.

  /** A resume written within a minute of its read is never too late. */
  lemma PromptResumesReach(s: State, e: Event)
    requires Inv(s) && Enabled(s, e) && (e.Commit? ==> s.now - s.requests[e.p].at < MINUTE_MS)
    ensures ResumeReaches(s, e)
  {
    if e.Commit? {
      assert RequestOk(s, s.requests[e.p]);
      assert RowOk(s.rows[s.requests[e.p].id], s.now);
    }
  }

  /** A write that finds its row as it was read fits, revives nothing and takes nothing back; only a resume can be late. */
  lemma UndisturbedWritesAreSafe(s: State, e: Event, i: nat)
    requires Inv(s) && Bounded(s) && Enabled(s, e) && Undisturbed(s, e)
    ensures PauseFits(s, e)
    ensures Finished(s, i) ==> !Revives(s, i, e)
    ensures NoneRunOut(s) ==> ExtensionReaches(s, e)
  {
    if e.Commit? {
      assert RequestOk(s, s.requests[e.p]);
      ElapsedIsNonNegative(s.requests[e.p].snapshot, s.requests[e.p].at);
    }
  }

  lemma ElapsedIsNonNegative(r: Session, at: nat)
    requires Reference(r) <= at
    ensures CalculateElapsedMinutes(r, at) >= 0
  {
  }

  // ---- Two clocks.

  /** The resolver's expression does not depend on `remainingMinutes`, nor on any extension. */
  lemma ResolverExpiresExactly(r: Session, now: int)
    ensures ResolverExpired(r, now) <==> now - Reference(r) >= r.durationMinutes * MINUTE_MS
  {
    var elapsed := (now - Reference(r)) as real;
    assert ResolverRemaining(r, now) == r.durationMinutes as real - elapsed / MINUTE_MS as real;
    assert elapsed / MINUTE_MS as real * MINUTE_MS as real == elapsed;
  }

  /** The resolver and the scheduler agree at every instant exactly for sessions never extended. */
  lemma ClocksAgreeExactlyWithoutExtension(r: Session)
    requires r.status == ACTIVE
    ensures (forall now :: ResolverExpired(r, now) <==> SchedulerExpired(r, now)) <==> r.extendedMinutes == 0
  {
    forall now ensures ResolverExpired(r, now) <==> now - Reference(r) >= r.durationMinutes * MINUTE_MS {
      ResolverExpiresExactly(r, now);
    }
    forall now ensures SchedulerExpired(r, now) <==> now - Reference(r) >= Granted(r) {
      SchedulerExpiresExactly(r, now);
    }
    var resolverEnd := Reference(r) + r.durationMinutes * MINUTE_MS;
    var schedulerEnd := Reference(r) + Granted(r);
    assert ResolverExpired(r, resolverEnd) && SchedulerExpired(r, schedulerEnd);
  }

  /** With extensions the resolver is the earlier one: it blocks while extended time is still left. */
  lemma ResolverIsNeverLater(r: Session, now: int)
    requires r.status == ACTIVE && r.extendedMinutes >= 0 && SchedulerExpired(r, now)
    ensures ResolverExpired(r, now)
  {
    ResolverExpiresExactly(r, now);
    SchedulerExpiresExactly(r, now);
  }

  // ---- What overlap breaks.

  /** The steps `es`, every one enabled, lead from `s` to `t`. */
  predicate Goes(s: State, es: seq<Event>, t: State) { Runs(s, es) && t == Run(s, es) }

  lemma {:induction false} Go(s0: State, es: seq<Event>, s: State, e: Event)
    requires Goes(s0, es, s) && Enabled(s, e)
    ensures Goes(s0, es + [e], Apply(s, e))
    decreases |es|
  {
    if es == [] {
      assert (es + [e])[1..] == [];
    } else {
      assert (es + [e])[1..] == es[1..] + [e];
      Go(Apply(s0, es[0]), es[1..], s, e);
    }
  }

  lemma {:induction false} PunctualSnoc(s0: State, es: seq<Event>, s: State, e: Event)
    requires Goes(s0, es, s) && PunctualRun(s0, es) && Enabled(s, e) && Punctual(s, e)
    ensures Runs(s0, es + [e]) && PunctualRun(s0, es + [e])
    decreases |es|
  {
    Go(s0, es, s, e);
    if es == [] {
      assert (es + [e])[1..] == [];
    } else {
      assert (es + [e])[1..] == es[1..] + [e];
      PunctualSnoc(Apply(s0, es[0]), es[1..], s, e);
    }
  }

  /** One punctual step more. */
  lemma Step(s0: State, es: seq<Event>, s: State, e: Event) returns (es': seq<Event>, t: State)
    requires Goes(s0, es, s) && PunctualRun(s0, es) && Enabled(s, e) && Punctual(s, e)
    ensures Goes(s0, es', t) && PunctualRun(s0, es') && es' == es + [e] && t == Apply(s, e)
  {
    Go(s0, es, s, e);
    PunctualSnoc(s0, es, s, e);
    es', t := es + [e], Apply(s, e);
  }

  lemma OneStep(s: State, e: Event)
    ensures Runs(s, [e]) <==> Enabled(s, e)
    ensures Enabled(s, e) ==> Run(s, [e]) == Apply(s, e)
  {
    assert [e][1..] == [];
  }

  lemma TwoSteps(s: State, a: Event, b: Event)
    requires Enabled(s, a) && Enabled(Apply(s, a), b)
    ensures Runs(s, [a, b]) && Run(s, [a, b]) == Apply(Apply(s, a), b)
  {
    assert [a, b][1..] == [b];
    OneStep(Apply(s, a), b);
  }

  function JustCreated(minutes: nat): State { State(0, 0, [NewSession(0, 0, 0, minutes, 0)], map[]) }

  lemma CreateFirst(minutes: nat)
    requires minutes >= 1
    ensures Goes(Init(), [Create(0, 0, 0, minutes)], JustCreated(minutes))
    ensures PunctualRun(Init(), [Create(0, 0, 0, minutes)])
  {
    Go(Init(), [], Init(), Create(0, 0, 0, minutes));
    assert [] + [Create(0, 0, 0, minutes)] == [Create(0, 0, 0, minutes)];
    PunctualSnoc(Init(), [], Init(), Create(0, 0, 0, minutes));
  }

  /** A pause that overlaps a stop brings the stopped session back as PAUSED. */
  lemma OverlappedPauseRevives() returns (s: State, t: State)
    ensures var es := [Create(0, 0, 0, 30)] + [Begin(0, 0, Pause)] + [Begin(1, 0, Stop)] + [Commit(1)];
      Goes(Init(), es, s) && Goes(Init(), es + [Commit(0)], t)
    ensures |s.rows| == |t.rows| == 1 && s.rows[0].status == STOPPED && t.rows[0].status == PAUSED
  {
    CreateFirst(30);
    var es, s1 := [Create(0, 0, 0, 30)], JustCreated(30);
    Go(Init(), es, s1, Begin(0, 0, Pause));
    var s2 := Apply(s1, Begin(0, 0, Pause));
    Go(Init(), es + [Begin(0, 0, Pause)], s2, Begin(1, 0, Stop));
    var s3 := Apply(s2, Begin(1, 0, Stop));
    Go(Init(), es + [Begin(0, 0, Pause)] + [Begin(1, 0, Stop)], s3, Commit(1));
    s := Apply(s3, Commit(1));
    Go(Init(), es + [Begin(0, 0, Pause)] + [Begin(1, 0, Stop)] + [Commit(1)], s, Commit(0));
    t := Apply(s, Commit(0));
  }

  function LongExtension(minutes: nat): Session {
    NewSession(0, 0, 0, minutes, 0).(extendedMinutes := 100, remainingMinutes := minutes + 100)
  }

  /** Two extensions read the same row; the longer one is written first. */
  lemma TwoExtensions(s0: State, es: seq<Event>, s: State, minutes: nat, x: nat) returns (es': seq<Event>, t: State)
    requires Goes(s0, es, s) && PunctualRun(s0, es) && x >= 1
    requires s.rows == [NewSession(0, 0, 0, minutes, 0)] && s.requests == map[]
    ensures Goes(s0, es', t) && PunctualRun(s0, es')
    ensures t == s.(rows := [LongExtension(minutes)], requests := map[0 := Request(0, Extend(x), s.rows[0], s.now)])
  {
    var s1, s2;
    es', s1 := Step(s0, es, s, Begin(0, 0, Extend(x)));
    es', s2 := Step(s0, es', s1, Begin(1, 0, Extend(100)));
    es', t := Step(s0, es', s2, Commit(1));
    assert s2.requests - {1} == map[0 := Request(0, Extend(x), s.rows[0], s.now)];
    assert t.rows == [LongExtension(minutes)];
  }

  /** A pause computed before a long extension was lost is written after: 130 minutes left of 35 granted. */
  lemma OverlappedPauseExceeds() returns (es: seq<Event>, t: State)
    ensures Goes(Init(), es, t) && |t.rows| == 1 && t.rows[0].status == PAUSED
    ensures t.rows[0].remainingMinutes == 130 && t.rows[0].durationMinutes + t.rows[0].extendedMinutes == 35
  {
    CreateFirst(30);
    var s;
    es, s := TwoExtensions(Init(), [Create(0, 0, 0, 30)], JustCreated(30), 30, 5);
    es, s := Step(Init(), es, s, Begin(2, 0, Pause));
    es, s := Step(Init(), es, s, Commit(0));
    es, t := Step(Init(), es, s, Commit(2));
  }

  lemma Wait(s0: State, es: seq<Event>, s: State, ms: nat, tick: bool) returns (es': seq<Event>, t: State)
    requires Goes(s0, es, s) && PunctualRun(s0, es) && s.now + ms <= s.lastTick + MINUTE_MS
    ensures Goes(s0, es', t) && PunctualRun(s0, es')
    ensures t == if tick then Apply(Apply(s, Advance(ms)), Check) else Apply(s, Advance(ms))
  {
    es', t := Step(s0, es, s, Advance(ms));
    if tick {
      es', t := Step(s0, es', t, Check);
    }
  }

  lemma TickLeaves(s: State, ms: nat)
    requires |s.rows| == 1 && !RunOut(s.rows[0], s.now + ms)
    ensures Apply(Apply(s, Advance(ms)), Check) == s.(now := s.now + ms, lastTick := s.now + ms)
  {
  }

  /** A short extension read before a long one and written after it: a one-minute session, ticks on time, 185 s. */
  lemma LostExtensionOverruns() returns (es: seq<Event>, t: State)
    ensures Goes(Init(), es, t) && PunctualRun(Init(), es) && Overrun(t)
  {
    CreateFirst(1);
    var s := JustCreated(1);
    TickLeaves(s, 59000);
    es, s := Wait(Init(), [Create(0, 0, 0, 1)], s, 59000, true);
    es, s := Wait(Init(), es, s, 51000, false);
    es, s := TwoExtensions(Init(), es, s, 1, 1);
    TickLeaves(s, 8000);
    es, s := Wait(Init(), es, s, 8000, true);
    TickLeaves(s, 32000);
    es, s := Wait(Init(), es, s, 32000, true);
    es, s := Step(Init(), es, s, Commit(0));
    es, t := Wait(Init(), es, s, 35000, false);
    assert t.rows[0].status == ACTIVE && Granted(t.rows[0]) == 120000 && t.now == 185000;
  }

  /** A resume written two minutes after its read, its row untouched, with ticks on time: a one-minute session, 120 s. */
  lemma LateResumeOverruns() returns (es: seq<Event>, s: State)
    ensures Goes(Init(), es, s) && PunctualRun(Init(), es)
    ensures Enabled(s, Commit(1)) && Punctual(s, Commit(1)) && Undisturbed(s, Commit(1))
    ensures !Overrun(s) && Overrun(Apply(s, Commit(1)))
  {
    CreateFirst(1);
    es, s := Step(Init(), [Create(0, 0, 0, 1)], JustCreated(1), Begin(0, 0, Pause));
    es, s := Step(Init(), es, s, Commit(0));
    es, s := Step(Init(), es, s, Begin(1, 0, Resume));
    TickLeaves(s, MINUTE_MS);
    es, s := Wait(Init(), es, s, MINUTE_MS, true);
    TickLeaves(s, MINUTE_MS);
    es, s := Wait(Init(), es, s, MINUTE_MS, true);
    var t := Apply(s, Commit(1));
    assert |t.rows| == 1 && t.rows[0].status == ACTIVE && t.now - Reference(t.rows[0]) == 2 * MINUTE_MS;
  }
}
