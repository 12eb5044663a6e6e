/** The device row, shared by the policy engine, the parent's operations and the scheduler. */
module Rows {
  import opened Common

  datatype DeviceStatus = ONLINE | OFFLINE | BLOCKED | SOFT_PAUSED
  datatype BlockingMode = GAMING_ONLY | FULL_INTERNET_LOCK

  datatype Device = Device(
    id: nat, parentId: nat, childId: Option<nat>, gatewayId: Option<nat>,
    ipAddress: Option<string>, dnsSourceIp: Option<string>, ipv6Address: Option<string>,
    status: DeviceStatus, blockingMode: BlockingMode,
    internetLocked: bool, internetLockedReason: Option<string>, internetLockedAt: Option<nat>,
    bedtimeStart: Option<string>, bedtimeEnd: Option<string>, autoBlockEnabled: bool,
    dailyLimitMinutes: Option<int>)

  /** `findUnique({ where: { id } })`. */
  function FindById(devices: seq<Device>, id: nat): (r: Option<Device>)
    ensures r.Some? ==> r.value in devices && r.value.id == id
    ensures r.None? ==> forall d | d in devices :: d.id != id
  {
    if devices == [] then None
    else if devices[0].id == id then Some(devices[0])
    else FindById(devices[1..], id)
  }

  /** `update({ where: { id } })`: the row with the id of `row` becomes `row`. */
  function PutRow(devices: seq<Device>, row: Device): (r: seq<Device>)
    ensures |r| == |devices|
    ensures forall i | 0 <= i < |r| :: r[i] == if devices[i].id == row.id then row else devices[i]
  {
    seq(|devices|, i requires 0 <= i < |devices| => if devices[i].id == row.id then row else devices[i])
  }

  function LockRow(d: Device, reason: Option<string>, now: nat): Device {
    d.(blockingMode := FULL_INTERNET_LOCK, internetLocked := true,
       internetLockedReason := Some(if reason.Some? then reason.value else "Locked by parent"),
       internetLockedAt := Some(now))
  }

  function UnlockRow(d: Device): Device {
    d.(blockingMode := GAMING_ONLY, internetLocked := false, internetLockedReason := None, internetLockedAt := None)
  }
}
