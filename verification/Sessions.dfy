/** Screen-time sessions: the row, the operations on it, and the two clocks that read it. */
module Sessions {
  import opened Common

  datatype SessionStatus = ACTIVE | PAUSED | STOPPED | EXPIRED | VIOLATED

  datatype Session = Session(
    deviceId: nat, childId: nat, parentId: nat, status: SessionStatus,
    startedAt: int, pausedAt: Option<int>, resumedAt: Option<int>, stoppedAt: Option<int>, expiredAt: Option<int>,
    durationMinutes: int, remainingMinutes: int, extendedMinutes: int, violated: bool)

  /** `resumedAt || startedAt`: elapsed time restarts at a resume. */
  function Reference(s: Session): int {
    if s.resumedAt.Some? then s.resumedAt.value else s.startedAt
  }

  /** `Math.floor(diffMs / 60000)`; Dafny's division floors for a positive divisor. */
  function CalculateElapsedMinutes(s: Session, now: int): int {
    (now - Reference(s)) / MINUTE_MS
  }

  function Max0(n: int): int { if n < 0 then 0 else n }

  function CalculateRemainingMinutes(s: Session, now: int): int {
    match s.status
    case PAUSED => s.durationMinutes + s.extendedMinutes - CalculateElapsedMinutes(s, now)
    case ACTIVE => Max0(s.durationMinutes + s.extendedMinutes - CalculateElapsedMinutes(s, now))
    case _ => 0
  }

  /** The resolver's own remaining-time expression, in fractional minutes. */
  function ResolverRemaining(s: Session, now: int): real {
    var elapsedMin := (now - Reference(s)) as real / MINUTE_MS as real;
    s.remainingMinutes as real - (elapsedMin - (s.durationMinutes - s.remainingMinutes) as real)
  }

  predicate ResolverExpired(s: Session, now: int) { ResolverRemaining(s, now) <= 0.0 }

  /** The scheduler's test for an ACTIVE session. */
  predicate SchedulerExpired(s: Session, now: int) { CalculateRemainingMinutes(s, now) <= 0 }
}
