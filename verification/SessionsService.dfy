/** The sessions service and the scheduler's minute check, as runs of the session events. */
module SessionsService {
  import opened Common
  import opened Sessions
  import opened SessionRuns
  import Rows

  /** Minutes counted against today's limit: of every status except VIOLATED. */
  function UsedMinutes(rows: seq<Session>, childId: nat, startOfDay: int): int {
    if rows == [] then 0
    else
      var n := |rows| - 1;
      UsedMinutes(rows[..n], childId, startOfDay)
      + if rows[n].childId == childId && rows[n].startedAt >= startOfDay && rows[n].status != VIOLATED
        then rows[n].durationMinutes + rows[n].extendedMinutes - rows[n].remainingMinutes else 0
  }

  /** On the rows: today's sessions of the child count with what they have used, extensions too, except violated ones. */
  lemma UsedMinutesOfOneMore(rows: seq<Session>, row: Session, childId: nat, startOfDay: int)
    ensures UsedMinutes([], childId, startOfDay) == 0
    ensures UsedMinutes(rows + [row], childId, startOfDay) - UsedMinutes(rows, childId, startOfDay) ==
            if row.childId == childId && startOfDay <= row.startedAt && row.status in {ACTIVE, PAUSED, STOPPED, EXPIRED}
            then row.durationMinutes + row.extendedMinutes - row.remainingMinutes else 0
  {
    assert (rows + [row])[..|rows|] == rows;
  }

  /** An operation that nothing disturbs writes over the very row it read. */
  lemma AtomicOp(s: State, id: nat, op: Op)
    requires s.requests == map[] && id < |s.rows| && Allowed(s.rows[id], op) && (op.Extend? ==> op.extraMinutes >= 1)
    ensures Runs(s, [Begin(0, id, op), Commit(0)])
    ensures UndisturbedRun(s, [Begin(0, id, op), Commit(0)])
    ensures Run(s, [Begin(0, id, op), Commit(0)]) == s.(rows := s.rows[id := Write(s.rows[id], s.rows[id], op, s.now)])
  {
    var a, b := Begin(0, id, op), Commit(0);
    var t := Apply(s, a);
    assert t.requests - {0} == map[];
    TwoSteps(s, a, b);
    assert [a, b][1..] == [b] && [b][1..] == [];
    assert UndisturbedRun(t, [b]);
  }

  class SessionsService {
    const devices: seq<Rows.Device>
    var rows: seq<Session>

    constructor (devices: seq<Rows.Device>)
      ensures rows == [] && this.devices == devices
    {
      this.devices := devices;
      rows := [];
    }

    ghost function View(now: nat, lastTick: nat): State
      reads this
    {
      State(now, lastTick, rows, map[])
    }

    method GetAndValidate(sessionId: nat, parentId: nat) returns (r: Result<Session>)
      ensures r == if sessionId >= |rows| then Err(NotFound)
                   else if rows[sessionId].parentId != parentId then Err(Forbidden)
                   else Ok(rows[sessionId])
    {
      if sessionId >= |rows| {
        return Err(NotFound);
      }
      if rows[sessionId].parentId != parentId {
        return Err(Forbidden);
      }
      return Ok(rows[sessionId]);
    }

    /** The outcome of every operation a parent starts. */
    ghost predicate Outcome(r: Result<Session>, before: seq<Session>, sessionId: nat, parentId: nat, op: Op, now: nat, lastTick: nat)
      requires op.Extend? ==> op.extraMinutes >= 1
      reads this
    {
      var s := State(now, lastTick, before, map[]);
      var es := [Begin(0, sessionId, op), Commit(0)];
      if sessionId >= |before| then r == Err(NotFound) && rows == before
      else if before[sessionId].parentId != parentId then r == Err(Forbidden) && rows == before
      else if !Allowed(before[sessionId], op) then r == Err(BadRequest) && rows == before
      else Runs(s, es) && View(now, lastTick) == Run(s, es) && sessionId < |rows| && r == Ok(rows[sessionId])
    }

    method Pause(sessionId: nat, parentId: nat, now: nat, ghost lastTick: nat) returns (r: Result<Session>)
      modifies this
      ensures Outcome(r, old(rows), sessionId, parentId, Op.Pause, now, lastTick)
      ensures r.Err? ==> rows == old(rows)
      ensures r.Ok? <==> sessionId < |old(rows)| && old(rows)[sessionId].parentId == parentId && old(rows)[sessionId].status == ACTIVE
      ensures r.Ok? ==>
        var was := old(rows)[sessionId];
        && rows == old(rows)[sessionId := r.value]
        && r.value == was.(
             status := PAUSED, pausedAt := Some(now),
             remainingMinutes :=
               var left := was.durationMinutes + was.extendedMinutes
                 - (now - if was.resumedAt.Some? then was.resumedAt.value else was.startedAt) / 60000;
               if left < 0 then 0 else left)
    {
      r := GetAndValidate(sessionId, parentId);
      if r.Err? {
        return;
      }
      var session := r.value;
      if session.status != ACTIVE {
        return Err(BadRequest);
      }
      AtomicOp(View(now, lastTick), sessionId, Op.Pause);
      var elapsed := CalculateElapsedMinutes(session, now);
      var remaining := Max0(session.durationMinutes + session.extendedMinutes - elapsed);
      rows := rows[sessionId := session.(status := PAUSED, pausedAt := Some(now), remainingMinutes := remaining)];
      r := Ok(rows[sessionId]);
    }

    method Resume(sessionId: nat, parentId: nat, now: nat, ghost lastTick: nat) returns (r: Result<Session>)
      modifies this
      ensures Outcome(r, old(rows), sessionId, parentId, Op.Resume, now, lastTick)
      ensures r.Err? ==> rows == old(rows)
      ensures r.Ok? <==> sessionId < |old(rows)| && old(rows)[sessionId].parentId == parentId && old(rows)[sessionId].status == PAUSED
      ensures r.Ok? ==>
        var was := old(rows)[sessionId];
        && rows == old(rows)[sessionId := r.value]
        && r.value == was.(status := ACTIVE, resumedAt := Some(now))
    {
      r := GetAndValidate(sessionId, parentId);
      if r.Err? {
        return;
      }
      var session := r.value;
      if session.status != PAUSED {
        return Err(BadRequest);
      }
      AtomicOp(View(now, lastTick), sessionId, Op.Resume);
      rows := rows[sessionId := session.(status := ACTIVE, resumedAt := Some(now))];
      r := Ok(rows[sessionId]);
    }

    method Extend(sessionId: nat, parentId: nat, extraMinutes: nat, now: nat, ghost lastTick: nat) returns (r: Result<Session>)
      requires extraMinutes >= 1
      modifies this
      ensures Outcome(r, old(rows), sessionId, parentId, Op.Extend(extraMinutes), now, lastTick)
      ensures r.Err? ==> rows == old(rows)
      ensures r.Ok? <==> sessionId < |old(rows)| && old(rows)[sessionId].parentId == parentId && old(rows)[sessionId].status in {ACTIVE, PAUSED}
      ensures r.Ok? ==>
        var was := old(rows)[sessionId];
        && rows == old(rows)[sessionId := r.value]
        && r.value == was.(
             extendedMinutes := was.extendedMinutes + extraMinutes, remainingMinutes := was.remainingMinutes + extraMinutes)
    {
      r := GetAndValidate(sessionId, parentId);
      if r.Err? {
        return;
      }
      var session := r.value;
      if session.status != ACTIVE && session.status != PAUSED {
        return Err(BadRequest);
      }
      AtomicOp(View(now, lastTick), sessionId, Op.Extend(extraMinutes));
      rows := rows[sessionId := session.(extendedMinutes := session.extendedMinutes + extraMinutes,
                                         remainingMinutes := session.remainingMinutes + extraMinutes)];
      r := Ok(rows[sessionId]);
    }

    method Stop(sessionId: nat, parentId: nat, now: nat, ghost lastTick: nat) returns (r: Result<Session>)
      modifies this
      ensures Outcome(r, old(rows), sessionId, parentId, Op.Stop, now, lastTick)
      ensures r.Err? ==> rows == old(rows)
      ensures r.Ok? <==> sessionId < |old(rows)| && old(rows)[sessionId].parentId == parentId && old(rows)[sessionId].status != STOPPED
      ensures r.Ok? ==>
        var was := old(rows)[sessionId];
        && rows == old(rows)[sessionId := r.value]
        && r.value == was.(status := STOPPED, stoppedAt := Some(now), remainingMinutes := 0)
    {
      r := GetAndValidate(sessionId, parentId);
      if r.Err? {
        return;
      }
      var session := r.value;
      if session.status == STOPPED {
        return Err(BadRequest);
      }
      AtomicOp(View(now, lastTick), sessionId, Op.Stop);
      rows := rows[sessionId := session.(status := STOPPED, stoppedAt := Some(now), remainingMinutes := 0)];
      r := Ok(rows[sessionId]);
    }

    method Expire(sessionId: nat, now: nat) returns (r: Result<Session>)
      modifies this
      ensures sessionId >= |old(rows)| ==> r == Err(NotFound) && rows == old(rows)
      ensures sessionId < |old(rows)| ==>
        && rows == old(rows)[sessionId := Write(old(rows)[sessionId], old(rows)[sessionId], Op.Expire, now)]
        && r == Ok(rows[sessionId])
      ensures sessionId < |old(rows)| ==>
        rows == old(rows)[sessionId := old(rows)[sessionId].(status := EXPIRED, expiredAt := Some(now), remainingMinutes := 0)]
    {
      if sessionId >= |rows| {
        return Err(NotFound);
      }
      rows := rows[sessionId := rows[sessionId].(status := EXPIRED, expiredAt := Some(now), remainingMinutes := 0)];
      r := Ok(rows[sessionId]);
    }

    method GetUsedMinutesToday(childId: nat, startOfDay: int) returns (total: int)
      ensures total == UsedMinutes(rows, childId, startOfDay)
    {
      total := 0;
      for i := 0 to |rows|
        invariant total == UsedMinutes(rows[..i], childId, startOfDay)
      {
        var s := rows[i];
        assert rows[..i + 1][..i] == rows[..i];
        if s.childId == childId && s.startedAt >= startOfDay && s.status in {ACTIVE, PAUSED, STOPPED, EXPIRED} {
          total := total + (s.durationMinutes + s.extendedMinutes - s.remainingMinutes);
        }
      }
      assert rows[..|rows|] == rows;
    }

    /** `dailyLimit` is the rule's limit for the child; a null limit allows any duration. */
    method Start(parentId: nat, deviceId: nat, durationMinutes: nat, dailyLimit: Option<int>, startOfDay: int,
                 now: nat, ghost lastTick: nat) returns (r: Result<nat>)
      requires durationMinutes >= 1
      modifies this
      ensures r.Err? ==> rows == old(rows)
      ensures r.Ok? ==>
        var d := Rows.FindById(devices, deviceId);
        && d.Some? && d.value.parentId == parentId && d.value.childId.Some?
        && (forall i | 0 <= i < |old(rows)| && old(rows)[i].deviceId == deviceId :: old(rows)[i].status != ACTIVE)
        && (dailyLimit.Some? ==>
              UsedMinutes(old(rows), d.value.childId.value, startOfDay) + durationMinutes <= dailyLimit.value)
        && View(now, lastTick)
           == Apply(old(View(now, lastTick)), Create(deviceId, d.value.childId.value, parentId, durationMinutes))
        && r.value == |old(rows)|
      ensures r.Err? ==>
        var d := Rows.FindById(devices, deviceId);
        if d.None? then r.error == NotFound
        else if d.value.parentId != parentId then r.error == Forbidden
        else
          && r.error == BadRequest
          && (d.value.childId.None?
              || (exists i | 0 <= i < |rows| :: rows[i].deviceId == deviceId && rows[i].status == ACTIVE)
              || (dailyLimit.Some? && UsedMinutes(rows, d.value.childId.value, startOfDay) + durationMinutes > dailyLimit.value))
      ensures r.Ok? ==>
        var d := Rows.FindById(devices, deviceId).value;
        rows == old(rows) + [Session(deviceId, d.childId.value, parentId, ACTIVE, now, None, None, None, None,
                                     durationMinutes, durationMinutes, 0, false)]
    {
      var device := Rows.FindById(devices, deviceId);
      if device.None? {
        return Err(NotFound);
      }
      if device.value.parentId != parentId {
        return Err(Forbidden);
      }
      if device.value.childId.None? {
        return Err(BadRequest);
      }
      var childId := device.value.childId.value;
      if exists i | 0 <= i < |rows| :: rows[i].deviceId == deviceId && rows[i].status == ACTIVE {
        return Err(BadRequest);
      }
      if dailyLimit.Some? {
        var usedToday := GetUsedMinutesToday(childId, startOfDay);
        if usedToday + durationMinutes > dailyLimit.value {
          return Err(BadRequest);
        }
      }
      rows := rows + [Session(deviceId, childId, parentId, ACTIVE, now, None, None, None, None,
                              durationMinutes, durationMinutes, 0, false)];
      r := Ok(|rows| - 1);
    }
  }

  class SchedulerService {
    const sessions: SessionsService

    constructor (sessions: SessionsService)
      ensures this.sessions == sessions
    {
      this.sessions := sessions;
    }

    /** The sessions a tick reads. */
    method ActiveSessions() returns (ids: seq<nat>)
      ensures forall k | 0 <= k < |ids| :: ids[k] < |sessions.rows| && sessions.rows[ids[k]].status == ACTIVE
      ensures forall i, j | 0 <= i < j < |ids| :: ids[i] < ids[j]
      ensures forall i | 0 <= i < |sessions.rows| && sessions.rows[i].status == ACTIVE :: i in ids
    {
      ids := [];
      for i := 0 to |sessions.rows|
        invariant forall k | 0 <= k < |ids| :: ids[k] < i && sessions.rows[ids[k]].status == ACTIVE
        invariant forall a, b | 0 <= a < b < |ids| :: ids[a] < ids[b]
        invariant forall j | 0 <= j < i && sessions.rows[j].status == ACTIVE :: j in ids
      {
        if sessions.rows[i].status == ACTIVE {
          ids := ids + [i];
        }
      }
    }

    /** The loop expires exactly the active sessions whose time is up, each once, and touches no other row. */
    method CheckActiveSessions(now: nat, ghost lastTick: nat)
      modifies sessions
      ensures sessions.View(now, now) == Apply(old(sessions.View(now, lastTick)), Check)
      ensures |sessions.rows| == |old(sessions.rows)|
      ensures forall i | 0 <= i < |sessions.rows| ::
        var was := old(sessions.rows)[i];
        var since := if was.resumedAt.Some? then was.resumedAt.value else was.startedAt;
        sessions.rows[i] ==
          if was.status == ACTIVE && now - since >= (was.durationMinutes + was.extendedMinutes) * 60000
          then was.(status := EXPIRED, expiredAt := Some(now), remainingMinutes := 0) else was
    {
      var active := ActiveSessions();
      ghost var before := sessions.rows;
      for k := 0 to |active|
        invariant |sessions.rows| == |before|
        invariant forall i | 0 <= i < |before| ::
          sessions.rows[i] == if i in active[..k] && RunOut(before[i], now)
                              then Write(before[i], before[i], Op.Expire, now) else before[i]
      {
        var id := active[k];
        assert id !in active[..k];
        assert active[..k + 1] == active[..k] + [id];
        var session := sessions.rows[id];
        var remaining := CalculateRemainingMinutes(session, now);
        if remaining <= 0 {
          var r := sessions.Expire(id, now);
        }
      }
      assert active[..|active|] == active;
      assert sessions.rows == Expired(before, now);
      forall i | 0 <= i < |before| && before[i].status == ACTIVE {
        SchedulerExpiresExactly(before[i], now);
      }
    }
  }
}
