/**
 * Bedtime and the daily limit: the window test as a circular interval, runs of scheduler ticks, parent
 * locks and schedule changes over one device row, and the scheduler's loop. A tick reads all rows first
 * and writes each one later.
 */
module Bedtime {
  import opened Common
  import opened Rows
  import DnsPolicy
  import Sessions

  const DAY_MINUTES: int := 1440

  // ---- Times of day.

  function DigitValue(c: char): int { c as int - '0' as int }

  predicate IsDigit(c: char) { '0' <= c <= '9' }

  /** The pattern schedules are validated with: hours 00 to 23, a colon, minutes 00 to 59. */
  predicate IsHhMm(s: string) {
    && |s| == 5 && s[2] == ':'
    && IsDigit(s[0]) && IsDigit(s[1]) && IsDigit(s[3]) && IsDigit(s[4])
    && (s[0] == '0' || s[0] == '1' || (s[0] == '2' && s[1] <= '3'))
    && s[3] <= '5'
  }

  /** Minutes since midnight. */
  function ToMin(s: string): (m: int)
    requires IsHhMm(s)
    ensures 0 <= m < DAY_MINUTES
  {
    (DigitValue(s[0]) * 10 + DigitValue(s[1])) * 60 + DigitValue(s[3]) * 10 + DigitValue(s[4])
  }

  function DigitChar(n: int): char
    requires 0 <= n < 10
  {
    '0' + n as char
  }

  /** `padStart(2, '0')` of hour and minute, joined by a colon. */
  function CurrentTime(m: int): (s: string)
    requires 0 <= m < DAY_MINUTES
  {
    var h, r := m / 60, m % 60;
    [DigitChar(h / 10), DigitChar(h % 10), ':', DigitChar(r / 10), DigitChar(r % 10)]
  }

  /** Printing and parsing are inverse, so comparing minutes is comparing the clock. */
  lemma CurrentTimeRoundTrip(m: int)
    requires 0 <= m < DAY_MINUTES
    ensures IsHhMm(CurrentTime(m)) && ToMin(CurrentTime(m)) == m
  {
  }

  lemma HhMmRoundTrip(s: string)
    requires IsHhMm(s)
    ensures CurrentTime(ToMin(s)) == s
  {
    var h, r := DigitValue(s[0]) * 10 + DigitValue(s[1]), DigitValue(s[3]) * 10 + DigitValue(s[4]);
    assert ToMin(s) / 60 == h && ToMin(s) % 60 == r;
  }

  // ---- The window.

  function IsWithinBedtime(now: string, start: string, end: string): bool
    requires IsHhMm(now) && IsHhMm(start) && IsHhMm(end)
  {
    var n, s, e := ToMin(now), ToMin(start), ToMin(end);
    if s <= e then n >= s && n < e else n >= s || n < e
  }

  /** Minutes clockwise around the day. */
  function Around(difference: int): int { difference % DAY_MINUTES }

  lemma AroundUnfold(difference: int)
    requires -DAY_MINUTES < difference < DAY_MINUTES
    ensures Around(difference) == if difference < 0 then difference + DAY_MINUTES else difference
  {
  }

  /** The half-open interval that starts at `start` and lasts (end - start) mod 1440 minutes, around the clock. */
  lemma WindowIsCircular(now: string, start: string, end: string)
    requires IsHhMm(now) && IsHhMm(start) && IsHhMm(end)
    ensures IsWithinBedtime(now, start, end) <==>
            Around(ToMin(now) - ToMin(start)) < Around(ToMin(end) - ToMin(start))
  {
    AroundUnfold(ToMin(now) - ToMin(start));
    AroundUnfold(ToMin(end) - ToMin(start));
  }

  lemma SwappedWindowIsTheComplement(now: string, start: string, end: string)
    requires IsHhMm(now) && IsHhMm(start) && IsHhMm(end) && start != end
    ensures IsWithinBedtime(now, end, start) <==> !IsWithinBedtime(now, start, end)
  {
    HhMmRoundTrip(start);
    HhMmRoundTrip(end);
  }

  // ---- One row under the scheduler and the parent.

  predicate StartsWithBedtime(s: string) { |s| >= 7 && s[..7] == "Bedtime" }

  predicate TimeOk(t: Option<string>) { t.Some? && t.value != "" ==> IsHhMm(t.value) }

  /** Stored schedules were validated. */
  predicate ScheduleOk(d: Device) { TimeOk(d.bedtimeStart) && TimeOk(d.bedtimeEnd) }

  predicate IsSet(t: Option<string>) { t.Some? && t.value != "" }

  predicate InBedtime(d: Device, minute: int)
    requires ScheduleOk(d) && 0 <= minute < DAY_MINUTES
  {
    CurrentTimeRoundTrip(minute);
    IsSet(d.bedtimeStart) && IsSet(d.bedtimeEnd)
    && IsWithinBedtime(CurrentTime(minute), d.bedtimeStart.value, d.bedtimeEnd.value)
  }

  /** Locked by bedtime: the reason the scheduler later recognises. */
  predicate BedtimeLocked(d: Device) {
    d.internetLocked && d.internetLockedReason.Some? && StartsWithBedtime(d.internetLockedReason.value)
  }

  function BedtimeReason(d: Device): string
    requires IsSet(d.bedtimeStart) && IsSet(d.bedtimeEnd)
  {
    "Bedtime " + d.bedtimeStart.value + "-" + d.bedtimeEnd.value
  }

  /** What a tick writes over `row` after it read `read`: the branch is the read row's. */
  function TickWrite(row: Device, read: Device, minute: int, at: nat): Device
    requires ScheduleOk(read) && 0 <= minute < DAY_MINUTES
  {
    if !read.autoBlockEnabled then row
    else if InBedtime(read, minute) && !read.internetLocked then
      row.(internetLocked := true, blockingMode := FULL_INTERNET_LOCK,
           internetLockedReason := Some(BedtimeReason(read)), internetLockedAt := Some(at))
    else if !InBedtime(read, minute) && BedtimeLocked(read) then
      row.(internetLocked := false, blockingMode := GAMING_ONLY, internetLockedReason := None, internetLockedAt := None)
    else row
  }

  /** The row, minute and time a tick has read. */
  datatype Reading = Reading(row: Device, minute: int, at: nat)

  predicate ReadingOk(r: Reading) { InStep(r.row) && ScheduleOk(r.row) && 0 <= r.minute < DAY_MINUTES }

  /** `ticks`: those between their read and their write; a slow tick may meet the next one. */
  datatype State = State(row: Device, ticks: map<nat, Reading>)

  datatype Event =
    | ParentLock(reason: Option<string>, at: nat)
    | ParentUnlock
    | SetSchedule(start: Option<string>, end: Option<string>, autoBlock: bool)
    | TickReads(id: nat, minute: int, at: nat)
    | TickWrites(id: nat)

  predicate Enabled(s: State, e: Event) {
    match e
    case ParentLock(_, _) => true
    case ParentUnlock => true
    case SetSchedule(start, end, _) => TimeOk(start) && TimeOk(end)
    case TickReads(id, minute, _) => id !in s.ticks && 0 <= minute < DAY_MINUTES
    case TickWrites(id) => id in s.ticks && ReadingOk(s.ticks[id])
  }

  function Apply(s: State, e: Event): State
    requires Enabled(s, e)
  {
    match e
    case ParentLock(reason, at) => s.(row := LockRow(s.row, reason, at))
    case ParentUnlock => s.(row := UnlockRow(s.row))
    case SetSchedule(start, end, auto) =>
      s.(row := s.row.(bedtimeStart := start, bedtimeEnd := end, autoBlockEnabled := auto))
    case TickReads(id, minute, at) => s.(ticks := s.ticks[id := Reading(s.row, minute, at)])
    case TickWrites(id) =>
      State(TickWrite(s.row, s.ticks[id].row, s.ticks[id].minute, s.ticks[id].at), s.ticks - {id})
  }

  predicate Runs(s: State, es: seq<Event>)
    decreases |es|
  {
    es == [] || (Enabled(s, es[0]) && Runs(Apply(s, es[0]), es[1..]))
  }

  function Run(s: State, es: seq<Event>): State
    requires Runs(s, es)
    decreases |es|
  {
    if es == [] then s else Run(Apply(s, es[0]), es[1..])
  }

  // ---- The columns a step writes.

  /** Bedtime, from the two columns: both are set and the minute is in the circular window. */
  lemma InBedtimeIsTheWindow(d: Device, minute: int)
    requires ScheduleOk(d) && 0 <= minute < DAY_MINUTES
    ensures InBedtime(d, minute) <==>
      && d.bedtimeStart.Some? && d.bedtimeStart.value != "" && d.bedtimeEnd.Some? && d.bedtimeEnd.value != ""
      && (minute - ToMin(d.bedtimeStart.value)) % 1440 < (ToMin(d.bedtimeEnd.value) - ToMin(d.bedtimeStart.value)) % 1440
  {
    CurrentTimeRoundTrip(minute);
    if IsSet(d.bedtimeStart) && IsSet(d.bedtimeEnd) {
      WindowIsCircular(CurrentTime(minute), d.bedtimeStart.value, d.bedtimeEnd.value);
    }
  }

  /** A tick writes the four lock columns or none, as the row it read asks. */
  lemma TickWritesByWhatItRead(row: Device, read: Device, minute: int, at: nat)
    requires ScheduleOk(read) && 0 <= minute < DAY_MINUTES
    ensures TickWrite(row, read, minute, at) ==
      if read.autoBlockEnabled && InBedtime(read, minute) && !read.internetLocked then
        row.(internetLocked := true, blockingMode := FULL_INTERNET_LOCK, internetLockedAt := Some(at),
             internetLockedReason := Some("Bedtime " + read.bedtimeStart.value + "-" + read.bedtimeEnd.value))
      else if read.autoBlockEnabled && !InBedtime(read, minute) && read.internetLocked && read.internetLockedReason.Some?
              && |read.internetLockedReason.value| >= 7 && read.internetLockedReason.value[..7] == "Bedtime" then
        row.(internetLocked := false, blockingMode := GAMING_ONLY, internetLockedAt := None, internetLockedReason := None)
      else row
  {
  }

  /** A parent writes the same four, a schedule change its own three, a tick's read nothing. */
  lemma OtherStepsWrite(s: State, e: Event)
    requires Enabled(s, e)
    ensures e.ParentLock? ==> Apply(s, e).row == s.row.(
      internetLocked := true, blockingMode := FULL_INTERNET_LOCK, internetLockedAt := Some(e.at),
      internetLockedReason := if e.reason.Some? then e.reason else Some("Locked by parent"))
    ensures e.ParentUnlock? ==> Apply(s, e).row == s.row.(
      internetLocked := false, blockingMode := GAMING_ONLY, internetLockedAt := None, internetLockedReason := None)
    ensures e.SetSchedule? ==> Apply(s, e).row == s.row.(
      bedtimeStart := e.start, bedtimeEnd := e.end, autoBlockEnabled := e.autoBlock)
    ensures e.TickReads? ==> Apply(s, e) == s.(ticks := s.ticks[e.id := Reading(s.row, e.minute, e.at)])
    ensures !e.TickReads? && !e.TickWrites? ==> Apply(s, e).ticks == s.ticks
  {
  }

  // ---- In step.

  /** The four lock columns say the same thing. */
  predicate InStep(d: Device) {
    && d.internetLocked == (d.blockingMode == FULL_INTERNET_LOCK)
    && d.internetLocked == d.internetLockedReason.Some?
    && d.internetLocked == d.internetLockedAt.Some?
  }

  predicate Inv(s: State) {
    InStep(s.row) && ScheduleOk(s.row) && forall id | id in s.ticks :: ReadingOk(s.ticks[id])
  }

  lemma InvPreserved(s: State, e: Event)
    requires Inv(s) && Enabled(s, e)
    ensures Inv(Apply(s, e))
  {
  }

  /** In every run, overlapping or not, locked, mode, reason and lock time stay in step. */
  lemma {:induction false} LockColumnsStayInStep(s: State, es: seq<Event>)
    requires Inv(s) && Runs(s, es)
    ensures Inv(Run(s, es))
    decreases |es|
  {
    if es != [] {
      InvPreserved(s, es[0]);
      LockColumnsStayInStep(Apply(s, es[0]), es[1..]);
    }
  }

  // ---- What one tick does.

  lemma ReasonIsRecognised(d: Device)
    requires IsSet(d.bedtimeStart) && IsSet(d.bedtimeEnd)
    ensures StartsWithBedtime(BedtimeReason(d))
  {
    assert BedtimeReason(d)[..7] == "Bedtime";
  }

  /**
   * When the tick finds the row as it read it: an auto-block device ends locked exactly when it is in
   * its window or was locked for another reason, and such a lock is untouched.
   */
  lemma TickEnforcesTheWindow(d: Device, minute: int, at: nat)
    requires InStep(d) && ScheduleOk(d) && 0 <= minute < DAY_MINUTES && d.autoBlockEnabled
    ensures var t := TickWrite(d, d, minute, at);
      && t.internetLocked == (InBedtime(d, minute) || (d.internetLocked && !BedtimeLocked(d)))
      && (BedtimeLocked(t) ==> InBedtime(d, minute))
      && (d.internetLocked && !BedtimeLocked(d) ==> t == d)
      && InBedtime(t, minute) == InBedtime(d, minute)
  {
    if InBedtime(d, minute) && !d.internetLocked {
      ReasonIsRecognised(d);
    }
  }

  /** What was read calls for a write: an unlocked row in its window, or a bedtime lock outside it. */
  predicate CallsForWrite(r: Reading)
    requires ScheduleOk(r.row) && 0 <= r.minute < DAY_MINUTES
  {
    r.row.autoBlockEnabled && if InBedtime(r.row, r.minute) then !r.row.internetLocked else BedtimeLocked(r.row)
  }

  /** What a tick is for: inside its window an auto-block device is locked, outside it not by bedtime. */
  predicate Enforced(d: Device, minute: int)
    requires ScheduleOk(d) && 0 <= minute < DAY_MINUTES
  {
    d.autoBlockEnabled ==> if InBedtime(d, minute) then d.internetLocked else !BedtimeLocked(d)
  }

  /** A tick that writes needs the row's window to answer as the one it read; one that does not, a row already in order. */
  predicate Settles(s: State, id: nat)
    requires Enabled(s, TickWrites(id)) && ScheduleOk(s.row)
  {
    var r := s.ticks[id];
    if CallsForWrite(r) then s.row.autoBlockEnabled ==> InBedtime(s.row, r.minute) == InBedtime(r.row, r.minute)
    else Enforced(s.row, r.minute)
  }

  /** The exact condition on a tick's write, whatever came between its read and its write. */
  lemma EnforcedExactlyWhenSettled(s: State, id: nat)
    requires Inv(s) && Enabled(s, TickWrites(id))
    ensures Enforced(Apply(s, TickWrites(id)).row, s.ticks[id].minute) <==> Settles(s, id)
  {
    var r := s.ticks[id];
    assert ReadingOk(r);
    if CallsForWrite(r) && InBedtime(r.row, r.minute) {
      ReasonIsRecognised(r.row);
    }
  }

  /** In particular when the row is as it was read. */
  lemma UndisturbedSettles(s: State, id: nat)
    requires Inv(s) && Enabled(s, TickWrites(id)) && s.ticks[id].row == s.row
    ensures Settles(s, id)
  {
  }

  // ---- Whole runs.

  /** After every tick of the run its minute is enforced. */
  predicate EnforcedThroughout(s: State, es: seq<Event>)
    requires Inv(s) && Runs(s, es)
    decreases |es|
  {
    es == [] || (
      InvPreserved(s, es[0]);
      var t := Apply(s, es[0]);
      && (es[0].TickWrites? ==> Enforced(t.row, s.ticks[es[0].id].minute))
      && EnforcedThroughout(t, es[1..]))
  }

  predicate SettlesThroughout(s: State, es: seq<Event>)
    requires Inv(s) && Runs(s, es)
    decreases |es|
  {
    es == [] || (
      InvPreserved(s, es[0]);
      && (es[0].TickWrites? ==> Settles(s, es[0].id))
      && SettlesThroughout(Apply(s, es[0]), es[1..]))
  }

  /** Over every run of ticks, locks, unlocks and schedule changes: each tick enforces its minute exactly when each settles. */
  lemma {:induction false} EnforcedThroughoutExactlyWhenSettled(s: State, es: seq<Event>)
    requires Inv(s) && Runs(s, es)
    ensures EnforcedThroughout(s, es) <==> SettlesThroughout(s, es)
    decreases |es|
  {
    if es != [] {
      InvPreserved(s, es[0]);
      if es[0].TickWrites? {
        EnforcedExactlyWhenSettled(s, es[0].id);
      }
      EnforcedThroughoutExactlyWhenSettled(Apply(s, es[0]), es[1..]);
    }
  }

  /** No lock of the parent's: unlocked, or locked by bedtime. */
  predicate Automatic(d: Device) { d.internetLocked ==> BedtimeLocked(d) }

  predicate NoParentLock(es: seq<Event>) { forall i | 0 <= i < |es| :: !es[i].ParentLock? }

  lemma {:induction false} AutomaticStays(s: State, es: seq<Event>)
    requires Inv(s) && Automatic(s.row) && NoParentLock(es) && Runs(s, es)
    ensures Inv(Run(s, es)) && Automatic(Run(s, es).row)
    decreases |es|
  {
    if es != [] {
      InvPreserved(s, es[0]);
      if es[0].TickWrites? && InBedtime(s.ticks[es[0].id].row, s.ticks[es[0].id].minute) {
        ReasonIsRecognised(s.ticks[es[0].id].row);
      }
      AutomaticStays(Apply(s, es[0]), es[1..]);
    }
  }

  /**
   * As long as no parent locks, an auto-block device is locked after a tick exactly when that tick's
   * minute is in its window, if and only if the tick settles; a tick on the row as it read it does.
   */
  lemma LockFollowsTheWindow(s: State, es: seq<Event>, id: nat)
    requires Inv(s) && Automatic(s.row) && NoParentLock(es) && Runs(s, es) && Enabled(Run(s, es), TickWrites(id))
    ensures Inv(Run(s, es))
    ensures var u := Run(s, es); var t := Apply(u, TickWrites(id)).row;
      && ((t.autoBlockEnabled ==> t.internetLocked == InBedtime(t, u.ticks[id].minute)) <==> Settles(u, id))
      && (u.ticks[id].row == u.row ==> Settles(u, id))
  {
    AutomaticStays(s, es);
    var u := Run(s, es);
    EnforcedExactlyWhenSettled(u, id);
    AutomaticStays(u, [TickWrites(id)]);
    OneStep(u, TickWrites(id));
    if u.ticks[id].row == u.row {
      UndisturbedSettles(u, id);
    }
  }

  // ---- A parent's lock.

  /** The columns of a parent's lock. */
  predicate ParentLocked(d: Device, reason: string) {
    d.internetLocked && d.internetLockedReason == Some(reason) && !StartsWithBedtime(reason)
  }

  predicate Spares(s: State, e: Event)
    requires Enabled(s, e)
  {
    e.TickWrites? ==> !CallsForWrite(s.ticks[e.id])
  }

  predicate SparingRun(s: State, es: seq<Event>)
    requires Runs(s, es)
    decreases |es|
  {
    es == [] || (Spares(s, es[0]) && SparingRun(Apply(s, es[0]), es[1..]))
  }

  /** A tick destroys a parent's lock if and only if the row it read, which may be an older one, calls for a write. */
  lemma ParentLockLostExactlyByStaleTick(s: State, reason: string, id: nat)
    requires Inv(s) && ParentLocked(s.row, reason) && Enabled(s, TickWrites(id))
    ensures !ParentLocked(Apply(s, TickWrites(id)).row, reason) <==> CallsForWrite(s.ticks[id])
  {
    var r := s.ticks[id];
    if r.row.autoBlockEnabled && InBedtime(r.row, r.minute) && !r.row.internetLocked {
      ReasonIsRecognised(r.row);
    }
  }

  predicate NoParent(es: seq<Event>) { forall i | 0 <= i < |es| :: !es[i].ParentUnlock? && !es[i].ParentLock? }

  /** A lost parent's lock never comes back by itself. */
  lemma {:induction false} LostStaysLost(s: State, reason: string, es: seq<Event>)
    requires Inv(s) && !StartsWithBedtime(reason) && !ParentLocked(s.row, reason) && Runs(s, es) && NoParent(es)
    ensures !ParentLocked(Run(s, es).row, reason)
    decreases |es|
  {
    if es != [] {
      InvPreserved(s, es[0]);
      if es[0].TickWrites? {
        var r := s.ticks[es[0].id];
        if InBedtime(r.row, r.minute) && !r.row.internetLocked {
          ReasonIsRecognised(r.row);
        }
      }
      LostStaysLost(Apply(s, es[0]), reason, es[1..]);
    }
  }

  /**
   * Over every run of ticks, overlapping or not, and schedule changes: a parent's lock with any other
   * reason is still there, with its time, if and only if no tick wrote.
   */
  lemma {:induction false} ParentLockKeptExactlyWhenSpared(s: State, reason: string, es: seq<Event>)
    requires Inv(s) && ParentLocked(s.row, reason) && Runs(s, es) && NoParent(es)
    ensures ParentLocked(Run(s, es).row, reason) <==> SparingRun(s, es)
    ensures SparingRun(s, es) ==> Run(s, es).row.internetLockedAt == s.row.internetLockedAt
    decreases |es|
  {
    if es != [] {
      var t := Apply(s, es[0]);
      InvPreserved(s, es[0]);
      if es[0].TickWrites? {
        ParentLockLostExactlyByStaleTick(s, reason, es[0].id);
      }
      if ParentLocked(t.row, reason) {
        ParentLockKeptExactlyWhenSpared(t, reason, es[1..]);
      } else {
        LostStaysLost(t, reason, es[1..]);
      }
    }
  }

  /** No tick under way has read a row that calls for a write. */
  predicate NoneCalls(s: State) { forall id | id in s.ticks :: ReadingOk(s.ticks[id]) && !CallsForWrite(s.ticks[id]) }

  /** Ticks begun since a parent locked always spare the lock. */
  lemma {:induction false} ParentLockSurvives(s: State, reason: string, es: seq<Event>)
    requires Inv(s) && ParentLocked(s.row, reason) && Runs(s, es) && NoParent(es) && NoneCalls(s)
    ensures SparingRun(s, es) && ParentLocked(Run(s, es).row, reason)
    decreases |es|
  {
    if es != [] {
      InvPreserved(s, es[0]);
      ParentLockSurvives(Apply(s, es[0]), reason, es[1..]);
    }
  }

  /** What was read calls for lifting a lock. */
  predicate Lifts(s: State, e: Event)
    requires Enabled(s, e)
  {
    e.TickWrites? && CallsForWrite(s.ticks[e.id]) && !InBedtime(s.ticks[e.id].row, s.ticks[e.id].minute)
  }

  predicate LockedThroughout(s: State, es: seq<Event>)
    requires Runs(s, es)
    decreases |es|
  {
    s.row.internetLocked && (es == [] || LockedThroughout(Apply(s, es[0]), es[1..]))
  }

  predicate NoneLifts(s: State, es: seq<Event>)
    requires Runs(s, es)
    decreases |es|
  {
    es == [] || (!Lifts(s, es[0]) && NoneLifts(Apply(s, es[0]), es[1..]))
  }

  /** Until a parent acts, a locked device stays locked, whatever its schedule becomes, exactly when no tick lifts the lock. */
  lemma {:induction false} LockedExactlyUntilLifted(s: State, es: seq<Event>)
    requires Inv(s) && s.row.internetLocked && NoParent(es) && Runs(s, es)
    ensures LockedThroughout(s, es) <==> NoneLifts(s, es)
    decreases |es|
  {
    if es != [] {
      InvPreserved(s, es[0]);
      if !Lifts(s, es[0]) {
        LockedExactlyUntilLifted(Apply(s, es[0]), es[1..]);
      }
    }
  }

  predicate OnlyTicks(es: seq<Event>) { forall i | 0 <= i < |es| :: es[i].TickReads? || es[i].TickWrites? }

  /** Once auto-block is off, ticks begun since leave the row, and a lock on it, as it is until a parent acts. */
  lemma {:induction false} SwitchedOffLockStays(s: State, es: seq<Event>)
    requires Inv(s) && !s.row.autoBlockEnabled && OnlyTicks(es) && NoneCalls(s) && Runs(s, es)
    ensures Run(s, es).row == s.row
    decreases |es|
  {
    if es != [] {
      InvPreserved(s, es[0]);
      SwitchedOffLockStays(Apply(s, es[0]), es[1..]);
    }
  }

  // ---- What overlap breaks.

  const EVENING := Device(
    1, 1, None, None, None, None, None, ONLINE, GAMING_ONLY, false, None, None, Some("22:00"), Some("06:00"), true, None)
  const ASLEEP := EVENING.(
    blockingMode := FULL_INTERNET_LOCK, internetLocked := true,
    internetLockedReason := Some("Bedtime 22:00-06:00"), internetLockedAt := Some(0))

  /** Eleven at night. */
  const LATE := 1380

  lemma LateIsBedtime()
    ensures ScheduleOk(EVENING) && ScheduleOk(ASLEEP) && InBedtime(EVENING, LATE) && InBedtime(ASLEEP, LATE)
  {
    CurrentTimeRoundTrip(LATE);
    assert ToMin("22:00") == 1320 && ToMin("06:00") == 360;
  }

  lemma OneStep(s: State, e: Event)
    requires Enabled(s, e)
    ensures Runs(s, [e]) && Run(s, [e]) == Apply(s, e)
  {
    assert [e][1..] == [];
  }

  lemma TickAround(s: State, id: nat, at: nat, e: Event)
    requires Inv(s) && id !in s.ticks && (e.ParentLock? || e.ParentUnlock?)
    ensures var es := [TickReads(id, LATE, at), e, TickWrites(id)];
      && Runs(s, es)
      && Run(s, es).row == TickWrite(Apply(s, e).row, s.row, LATE, at)
  {
    var es := [TickReads(id, LATE, at), e, TickWrites(id)];
    var s1 := Apply(s, es[0]);
    assert es[1..] == [e, TickWrites(id)] && es[1..][1..] == [TickWrites(id)] && es[1..][1..][1..] == [];
    var s2 := Apply(s1, e);
    assert s2.ticks[id] == Reading(s.row, LATE, at);
    OneStep(s2, TickWrites(id));
    assert Runs(s1, es[1..]) && Run(s1, es[1..]) == Run(s2, [TickWrites(id)]);
  }

  /** An unlock between a tick's read and its write: the tick leaves the device unlocked in its window. */
  lemma OverlappedTickMissesTheWindow(at: nat)
    ensures var s, es := State(ASLEEP, map[]), [TickReads(0, LATE, at), ParentUnlock, TickWrites(0)];
      && Inv(s) && Runs(s, es) && var d := Run(s, es).row;
         ScheduleOk(d) && d.autoBlockEnabled && InBedtime(d, LATE) && !d.internetLocked
  {
    LateIsBedtime();
    TickAround(State(ASLEEP, map[]), 0, at, ParentUnlock);
  }

  /** A parent's lock between a tick's read and its write: the tick makes it a bedtime lock, which it will lift. */
  lemma OverlappedTickTakesTheLock(lockedAt: nat, at: nat)
    ensures var s, es := State(EVENING, map[]), [TickReads(0, LATE, at), ParentLock(Some("homework"), lockedAt), TickWrites(0)];
      Inv(s) && Runs(s, es) && BedtimeLocked(Run(s, es).row)
  {
    LateIsBedtime();
    TickAround(State(EVENING, map[]), 0, at, ParentLock(Some("homework"), lockedAt));
    ReasonIsRecognised(EVENING);
  }

  // ---- The scheduler's loop.

  predicate SchedulesOk(devices: seq<Device>) { forall d | d in devices :: ScheduleOk(d) }

  function TickAll(devices: seq<Device>, minute: int, at: nat): (r: seq<Device>)
    requires SchedulesOk(devices)
    requires 0 <= minute < DAY_MINUTES
    ensures |r| == |devices|
    ensures forall i | 0 <= i < |r| :: r[i] == TickWrite(devices[i], devices[i], minute, at)
  {
    seq(|devices|, i requires 0 <= i < |devices| => TickWrite(devices[i], devices[i], minute, at))
  }

  predicate DistinctIds(devices: seq<Device>) {
    forall i, j | 0 <= i < j < |devices| :: devices[i].id != devices[j].id
  }

  /** The table after the tick's first `k` devices. */
  function Ticked(devices: seq<Device>, k: nat, minute: int, at: nat): (r: seq<Device>)
    requires k <= |devices| && SchedulesOk(devices) && 0 <= minute < DAY_MINUTES
    ensures |r| == |devices|
  {
    TickAll(devices[..k], minute, at) + devices[k..]
  }

  lemma TickedStart(devices: seq<Device>, minute: int, at: nat)
    requires SchedulesOk(devices) && 0 <= minute < DAY_MINUTES
    ensures Ticked(devices, 0, minute, at) == devices
  {
  }

  lemma TickedEnd(devices: seq<Device>, minute: int, at: nat)
    requires SchedulesOk(devices) && 0 <= minute < DAY_MINUTES
    ensures Ticked(devices, |devices|, minute, at) == TickAll(devices, minute, at)
  {
    assert devices[..|devices|] == devices;
  }

  /** One more device's turn replaces its row, which is still as it was read; ids stay distinct. */
  lemma TickedStep(devices: seq<Device>, k: nat, minute: int, at: nat)
    requires k < |devices| && SchedulesOk(devices) && 0 <= minute < DAY_MINUTES
    requires DistinctIds(devices)
    ensures var now := Ticked(devices, k, minute, at);
      && DistinctIds(now) && now[k] == devices[k]
      && Ticked(devices, k + 1, minute, at) == now[k := TickWrite(devices[k], devices[k], minute, at)]
  {
    var now := Ticked(devices, k, minute, at);
    forall i | 0 <= i < |devices| ensures now[i].id == devices[i].id {
    }
    assert TickAll(devices[..k + 1], minute, at)
        == TickAll(devices[..k], minute, at) + [TickWrite(devices[k], devices[k], minute, at)];
  }

  // ---- The daily limit.

  /** `aggregate({ _sum: durationMinutes })` over the device's sessions of the day: as planned, extensions left out. */
  function PlannedMinutes(sessions: seq<Sessions.Session>, deviceId: nat, startOfDay: int): int {
    if sessions == [] then 0
    else
      (if sessions[0].deviceId == deviceId && sessions[0].startedAt >= startOfDay then sessions[0].durationMinutes else 0)
      + PlannedMinutes(sessions[1..], deviceId, startOfDay)
  }

  /** A device the tick has just put to bed is not looked at; a null or zero limit is none. */
  predicate OverLimit(d: Device, sessions: seq<Sessions.Session>, minute: int, startOfDay: int)
    requires ScheduleOk(d) && 0 <= minute < DAY_MINUTES
  {
    && d.autoBlockEnabled && (InBedtime(d, minute) ==> d.internetLocked)
    && d.dailyLimitMinutes.Some? && d.dailyLimitMinutes.value != 0 && d.childId.Some?
    && PlannedMinutes(sessions, d.id, startOfDay) >= d.dailyLimitMinutes.value
  }

  /** On the rows: the sessions of that device begun today count with their planned minutes. */
  lemma PlannedMinutesOfOneMore(x: Sessions.Session, rows: seq<Sessions.Session>, deviceId: nat, startOfDay: int)
    ensures PlannedMinutes([], deviceId, startOfDay) == 0
    ensures PlannedMinutes([x] + rows, deviceId, startOfDay) - PlannedMinutes(rows, deviceId, startOfDay)
         == if x.deviceId == deviceId && startOfDay <= x.startedAt then x.durationMinutes else 0
  {
    assert ([x] + rows)[1..] == rows;
  }

  function GamingKey(d: Device): (nat, DnsPolicy.Category)
    requires d.childId.Some?
  {
    (d.childId.value, DnsPolicy.GAMING)
  }

  /** The category rows a tick over the first `k` devices sets active. */
  function LimitKeys(devices: seq<Device>, k: nat, sessions: seq<Sessions.Session>, minute: int, startOfDay: int)
    : (r: set<(nat, DnsPolicy.Category)>)
    requires k <= |devices| && SchedulesOk(devices)
    requires 0 <= minute < DAY_MINUTES
  {
    set i | 0 <= i < k && OverLimit(devices[i], sessions, minute, startOfDay) :: GamingKey(devices[i])
  }

  lemma LimitKeysStep(devices: seq<Device>, k: nat, sessions: seq<Sessions.Session>, minute: int, startOfDay: int)
    requires k < |devices| && SchedulesOk(devices) && 0 <= minute < DAY_MINUTES
    ensures LimitKeys(devices, k + 1, sessions, minute, startOfDay)
         == LimitKeys(devices, k, sessions, minute, startOfDay)
            + if OverLimit(devices[k], sessions, minute, startOfDay) then {GamingKey(devices[k])} else {}
  {
  }

  /** Upserts of the rows as active. */
  function WithActive<K>(blocks: map<K, bool>, keys: set<K>): map<K, bool> {
    blocks + map key | key in keys :: true
  }

  lemma WithActiveAdd<K>(blocks: map<K, bool>, keys: set<K>, key: K)
    ensures WithActive(blocks, keys + {key}) == WithActive(blocks, keys)[key := true]
  {
  }

  /** The category rows after the tick's first `k` devices. */
  function Limited(blocks: map<(nat, DnsPolicy.Category), bool>, devices: seq<Device>, k: nat,
                   sessions: seq<Sessions.Session>, minute: int, startOfDay: int): map<(nat, DnsPolicy.Category), bool>
    requires k <= |devices| && SchedulesOk(devices) && 0 <= minute < DAY_MINUTES
  {
    WithActive(blocks, LimitKeys(devices, k, sessions, minute, startOfDay))
  }

  /** One more device adds one upsert, or none. */
  lemma LimitedStep(blocks: map<(nat, DnsPolicy.Category), bool>, devices: seq<Device>, k: nat,
                    sessions: seq<Sessions.Session>, minute: int, startOfDay: int)
    requires k < |devices| && SchedulesOk(devices) && 0 <= minute < DAY_MINUTES
    ensures Limited(blocks, devices, k + 1, sessions, minute, startOfDay)
         == var before := Limited(blocks, devices, k, sessions, minute, startOfDay);
            if OverLimit(devices[k], sessions, minute, startOfDay) then before[GamingKey(devices[k]) := true] else before
  {
    var keys := LimitKeys(devices, k, sessions, minute, startOfDay);
    LimitKeysStep(devices, k, sessions, minute, startOfDay);
    if OverLimit(devices[k], sessions, minute, startOfDay) {
      WithActiveAdd(blocks, keys, GamingKey(devices[k]));
    } else {
      assert keys + {} == keys;
    }
  }

  /** A category block is active after the tick if it was before, or is GAMING of a child with a device over its limit. */
  lemma LimitedExactly(blocks: map<(nat, DnsPolicy.Category), bool>, devices: seq<Device>,
                       sessions: seq<Sessions.Session>, minute: int, startOfDay: int, childId: nat, category: DnsPolicy.Category)
    requires SchedulesOk(devices) && 0 <= minute < DAY_MINUTES
    ensures
      var after, key := Limited(blocks, devices, |devices|, sessions, minute, startOfDay), (childId, category);
      var over := category == DnsPolicy.GAMING && exists i ::
        0 <= i < |devices| && devices[i].childId == Some(childId) && devices[i].autoBlockEnabled
        && (InBedtime(devices[i], minute) ==> devices[i].internetLocked)
        && devices[i].dailyLimitMinutes.Some? && devices[i].dailyLimitMinutes.value != 0
        && PlannedMinutes(sessions, devices[i].id, startOfDay) >= devices[i].dailyLimitMinutes.value;
      && (over ==> key in after && after[key])
      && (!over ==> (key in after <==> key in blocks) && (key in blocks ==> after[key] == blocks[key]))
  {
    var keys := LimitKeys(devices, |devices|, sessions, minute, startOfDay);
    LimitKeysExactly(devices, sessions, minute, startOfDay, childId, category);
    assert WithActive(blocks, keys) == Limited(blocks, devices, |devices|, sessions, minute, startOfDay);
  }

  lemma LimitKeysExactly(devices: seq<Device>, sessions: seq<Sessions.Session>, minute: int, startOfDay: int,
                         childId: nat, category: DnsPolicy.Category)
    requires SchedulesOk(devices) && 0 <= minute < DAY_MINUTES
    ensures (childId, category) in LimitKeys(devices, |devices|, sessions, minute, startOfDay) <==>
      category == DnsPolicy.GAMING && exists i ::
        0 <= i < |devices| && devices[i].childId == Some(childId) && devices[i].autoBlockEnabled
        && (InBedtime(devices[i], minute) ==> devices[i].internetLocked)
        && devices[i].dailyLimitMinutes.Some? && devices[i].dailyLimitMinutes.value != 0
        && PlannedMinutes(sessions, devices[i].id, startOfDay) >= devices[i].dailyLimitMinutes.value
  {
    var keys := LimitKeys(devices, |devices|, sessions, minute, startOfDay);
    if (childId, category) in keys {
      var i :| 0 <= i < |devices| && OverLimit(devices[i], sessions, minute, startOfDay)
               && GamingKey(devices[i]) == (childId, category);
      assert devices[i].childId == Some(childId);
    }
    if i :| category == DnsPolicy.GAMING && 0 <= i < |devices| && devices[i].childId == Some(childId)
            && OverLimit(devices[i], sessions, minute, startOfDay) {
      assert GamingKey(devices[i]) == (childId, category);
    }
  }

  lemma LimitedStart(blocks: map<(nat, DnsPolicy.Category), bool>, devices: seq<Device>,
                     sessions: seq<Sessions.Session>, minute: int, startOfDay: int)
    requires SchedulesOk(devices) && 0 <= minute < DAY_MINUTES
    ensures Limited(blocks, devices, 0, sessions, minute, startOfDay) == blocks
  {
    assert LimitKeys(devices, 0, sessions, minute, startOfDay) == {};
    assert WithActive(blocks, {}) == blocks;
  }

  class SchedulerService {
    var devices: seq<Device>
    var sessions: seq<Sessions.Session>
    var categoryBlocks: map<(nat, DnsPolicy.Category), bool>

    constructor (devices: seq<Device>, sessions: seq<Sessions.Session>, categoryBlocks: map<(nat, DnsPolicy.Category), bool>)
      ensures this.devices == devices && this.sessions == sessions && this.categoryBlocks == categoryBlocks
    {
      this.devices := devices;
      this.sessions := sessions;
      this.categoryBlocks := categoryBlocks;
    }

    /** The bedtime half of one turn, for the row at `k`; `locks` when it has locked and the turn is over. */
    method EnforceBedtime(k: nat, device: Device, minute: int, now: nat) returns (locks: bool)
      requires 0 <= minute < DAY_MINUTES && ScheduleOk(device) && device.autoBlockEnabled
      requires DistinctIds(devices) && k < |devices| && devices[k] == device
      modifies this`devices
      ensures devices == old(devices)[k := TickWrite(device, device, minute, now)]
      ensures locks == (InBedtime(device, minute) && !device.internetLocked)
    {
      CurrentTimeRoundTrip(minute);
      var currentTime := CurrentTime(minute);
      var inBedtime := IsSet(device.bedtimeStart) && IsSet(device.bedtimeEnd)
        && IsWithinBedtime(currentTime, device.bedtimeStart.value, device.bedtimeEnd.value);
      locks := inBedtime && !device.internetLocked;
      if locks {
        devices := PutRow(devices, device.(
          internetLocked := true, blockingMode := FULL_INTERNET_LOCK,
          internetLockedReason := Some("Bedtime " + device.bedtimeStart.value + "-" + device.bedtimeEnd.value),
          internetLockedAt := Some(now)));
      } else if !inBedtime && device.internetLocked
        && device.internetLockedReason.Some? && StartsWithBedtime(device.internetLockedReason.value) {
        devices := PutRow(devices, device.(
          internetLocked := false, blockingMode := GAMING_ONLY,
          internetLockedReason := None, internetLockedAt := None));
      }
    }

    /** The daily-limit half. */
    method EnforceDailyLimit(device: Device, ghost minute: int, startOfDay: int)
      requires 0 <= minute < DAY_MINUTES && ScheduleOk(device) && device.autoBlockEnabled
      requires InBedtime(device, minute) ==> device.internetLocked
      modifies this`categoryBlocks
      ensures categoryBlocks
           == if OverLimit(device, sessions, minute, startOfDay)
              then old(categoryBlocks)[GamingKey(device) := true] else old(categoryBlocks)
    {
      if device.dailyLimitMinutes.Some? && device.dailyLimitMinutes.value != 0 && device.childId.Some? {
        var used := PlannedMinutes(sessions, device.id, startOfDay);
        if used >= device.dailyLimitMinutes.value {
          categoryBlocks := categoryBlocks[(device.childId.value, DnsPolicy.GAMING) := true];
        }
      }
    }

    /** One device's turn, `k` devices of `rows` after the tick's start. */
    method EnforceDevice(ghost rows: seq<Device>, ghost blocks: map<(nat, DnsPolicy.Category), bool>,
                         k: nat, device: Device, minute: int, now: nat, startOfDay: int)
      requires 0 <= minute < DAY_MINUTES && SchedulesOk(rows) && DistinctIds(rows) && k < |rows| && device == rows[k]
      requires devices == Ticked(rows, k, minute, now)
      requires categoryBlocks == Limited(blocks, rows, k, sessions, minute, startOfDay)
      modifies this`devices, this`categoryBlocks
      ensures devices == Ticked(rows, k + 1, minute, now)
      ensures categoryBlocks == Limited(blocks, rows, k + 1, sessions, minute, startOfDay)
    {
      TickedStep(rows, k, minute, now);
      LimitedStep(blocks, rows, k, sessions, minute, startOfDay);
      if device.autoBlockEnabled {
        var locks := EnforceBedtime(k, device, minute, now);
        if !locks {
          EnforceDailyLimit(device, minute, startOfDay);
        }
      }
    }

    /**
     * Every row ends as its own tick leaves it; rows without auto-block stay as they are. GAMING becomes
     * active for exactly the children of devices over their limit; no category block is ever lifted.
     */
    method EnforceDeviceSchedules(minute: int, now: nat, startOfDay: int)
      requires 0 <= minute < DAY_MINUTES
      requires DistinctIds(devices) && SchedulesOk(devices)
      modifies this
      ensures sessions == old(sessions)
      ensures devices == TickAll(old(devices), minute, now)
      ensures categoryBlocks == Limited(old(categoryBlocks), old(devices), |devices|, sessions, minute, startOfDay)
    {
      var rows := devices;
      ghost var blocks := categoryBlocks;
      TickedStart(rows, minute, now);
      LimitedStart(blocks, rows, sessions, minute, startOfDay);
      for k := 0 to |rows|
        invariant sessions == old(sessions) && devices == Ticked(rows, k, minute, now)
        invariant categoryBlocks == Limited(blocks, rows, k, sessions, minute, startOfDay)
      {
        EnforceDevice(rows, blocks, k, rows[k], minute, now, startOfDay);
      }
      TickedEnd(rows, minute, now);
    }
  }
}
