/**
 * Pairing: one-time tokens, the confirm transaction, beacon heartbeats, the IP history and the
 * connection log, for any number of concurrent requests interleaved at their awaits.
 *
 * A confirm writes one row at a time into a working copy that only its commit makes visible; a
 * throw drops the copy. Rows it has written are locked until then. The device's pair status is
 * written outside the transaction, at once.
 */
module Pairing {
  import opened Common

  type Ip = nat

  const PAIR_TOKEN_TTL_MS: nat := 600000
  const PAIR_MAX_CONFIRM_ATTEMPTS: nat := 5

  datatype PairStatus = WAITING | PAIRED | EXPIRED | FAILED

  datatype Session = Session(device: nat, status: PairStatus, expiresAt: nat, attempts: nat)

  /** The columns of a device row that pairing reads or writes. */
  datatype Device = Device(
    paired: bool, pairStatus: PairStatus, pairedAt: Option<nat>, dnsSourceIp: Option<Ip>, publicIp: Option<Ip>,
    beacon: Option<nat>, lastSeen: Option<nat>)

  datatype Span = Span(firstSeen: nat, lastSeen: nat)

  datatype Kind = NewlyPaired | IpChanged(previous: Option<Ip>)

  datatype Entry = Entry(device: nat, ip: Ip, kind: Kind)

  type History = map<(nat, Ip), Span>

  /** How far a confirm transaction has come. */
  datatype Stage =
    | Opened            // session read and checked, nothing written
    | Counted           // attempt counted
    | DevicePaired
    | IpRecorded
    | EventRecorded
    | SessionDeleted    // ready to commit
    | Marked            // session marked EXPIRED or FAILED
    | Reported          // the device's pair status written outside; only the throw is left

  /** The working copy: the rows written so far. `at` is the time the pairing is dated with. */
  datatype Tx = Tx(
    stage: Stage, session: Option<Session>, device: Option<Device>, span: Option<Span>, entry: Option<Entry>, at: nat)

  const OPENED := Tx(Opened, None, None, None, None, 0)

  /** A request between two awaits. `late`: the token had expired when the session was read. */
  datatype Request =
    | Confirming(token: nat, device: nat, ip: Ip, late: bool, tx: Tx)
    | Beating(device: nat, ip: Ip, at: nat, source: Option<Ip>)
    | Touching(device: nat, at: nat)

  /**
   * The committed tables and the requests under way. Sessions are known by their token, which is
   * unique and never changes. Tokens and beacon tokens are random UUIDs: values never drawn before,
   * here a counter. `redeemed` records the confirmed tokens in order; no step branches on it.
   */
  datatype State = State(
    now: nat, minted: nat, sessions: map<nat, Session>, devices: map<nat, Device>, history: History,
    log: seq<Entry>, requests: map<nat, Request>, redeemed: seq<nat>)

  datatype Event =
    | Tick(ms: nat)
    | DropWaiting(device: nat)                          // first write of a start, and all of a cancel
    | CreateSession(device: nat)
    | MarkWaiting(device: nat)
    | ReadSession(id: nat, token: nat, ip: Ip)          // the read and the checks that follow it at once
    | Work(id: nat)                                     // the next write of the confirm transaction
    | Report(id: nat)                                   // the pair-status write outside it
    | Commit(id: nat)
    | Abort(id: nat)                                    // a throw, the code's own or the database's
    | ReadDevice(id: nat, device: nat, ip: Ip)          // a heartbeat's read
    | Beat(id: nat)                                     // its transaction, or the history write of an unchanged IP
    | Touch(id: nat, device: nat)                       // the DNS hot path takes the time of its last-seen write
    | TouchSeen(id: nat)                                // that write, or the last of an unchanged IP
    | Discover(device: nat, ip: Ip)                     // gateway discovery, the other writer of dnsSourceIp

  /** Rows before any pairing. */
  predicate Unpaired(devices: map<nat, Device>) {
    forall d | d in devices ::
      && !devices[d].paired && devices[d].publicIp == None && devices[d].beacon == None && devices[d].lastSeen == None
      && devices[d].pairStatus == WAITING
  }

  function Init(devices: map<nat, Device>): State
  {
    State(0, 0, map[], devices, map[], [], map[], [])
  }

  // ---- Row locks.

  predicate HoldsSession(r: Request, token: nat) { r.Confirming? && r.token == token && r.tx.session.Some? }
  predicate HoldsDevice(r: Request, d: nat) { r.Confirming? && r.device == d && r.tx.device.Some? }
  predicate HoldsIp(r: Request, key: (nat, Ip)) { r.Confirming? && (r.device, r.ip) == key && r.tx.span.Some? }

  predicate SessionFree(s: State, token: nat) { forall p | p in s.requests :: !HoldsSession(s.requests[p], token) }
  predicate DeviceFree(s: State, d: nat) { forall p | p in s.requests :: !HoldsDevice(s.requests[p], d) }
  predicate IpFree(s: State, key: (nat, Ip)) { forall p | p in s.requests :: !HoldsIp(s.requests[p], key) }

  // ---- The transaction.

  predicate TooMany(row: Session) { row.attempts > PAIR_MAX_CONFIRM_ATTEMPTS }

  /** A write waits for the row's lock; an update of a session row that is gone throws instead. */
  predicate CanWork(s: State, r: Request)
    requires r.Confirming?
  {
    match r.tx.stage
    case Opened => r.token in s.sessions && SessionFree(s, r.token)
    case Counted => r.tx.session.Some? && (!TooMany(r.tx.session.value) ==> DeviceFree(s, r.device))
    case DevicePaired => IpFree(s, (r.device, r.ip))
    case IpRecorded => true
    case EventRecorded => true
    case _ => false
  }

  function Seen(h: History, key: (nat, Ip), at: nat): Span {
    if key in h then h[key].(lastSeen := at) else Span(at, at)
  }

  function PairedRow(ip: Ip, at: nat, beacon: nat): Device {
    Device(true, PAIRED, Some(at), Some(ip), Some(ip), Some(beacon), Some(at))
  }

  /** The working copy after the next write. */
  function Written(s: State, r: Request): Tx
    requires r.Confirming? && CanWork(s, r)
  {
    var x := r.tx;
    match x.stage
    case Opened =>
      var row := s.sessions[r.token];
      if r.late then x.(stage := Marked, session := Some(row.(status := EXPIRED)))
      else x.(stage := Counted, session := Some(row.(attempts := row.attempts + 1)), at := s.now)
    case Counted =>
      var row := x.session.value;
      if TooMany(row) then x.(stage := Marked, session := Some(row.(status := FAILED)))
      else x.(stage := DevicePaired, device := Some(PairedRow(r.ip, x.at, s.minted)))
    case DevicePaired => x.(stage := IpRecorded, span := Some(Seen(s.history, (r.device, r.ip), x.at)))
    case IpRecorded => x.(stage := EventRecorded, entry := Some(Entry(r.device, r.ip, NewlyPaired)))
    case EventRecorded => x.(stage := SessionDeleted)
  }

  /** A commit makes every row of the working copy visible. */
  function Merge(s: State, r: Request): State
    requires r.Confirming?
  {
    var x := r.tx;
    s.(sessions := if x.stage == SessionDeleted then s.sessions - {r.token}
                   else if x.session.Some? then s.sessions[r.token := x.session.value] else s.sessions,
       devices := if x.device.Some? then s.devices[r.device := x.device.value] else s.devices,
       history := if x.span.Some? then s.history[(r.device, r.ip) := x.span.value] else s.history,
       log := if x.entry.Some? then s.log + [x.entry.value] else s.log,
       redeemed := if x.stage == SessionDeleted then s.redeemed + [r.token] else s.redeemed)
  }

  // ---- Steps.

  predicate Enabled(s: State, e: Event) {
    match e
    case Tick(_) => true
    case DropWaiting(d) => d in s.devices && forall t | t in s.sessions && s.sessions[t].device == d :: SessionFree(s, t)
    case CreateSession(d) => d in s.devices
    case MarkWaiting(d) => d in s.devices && DeviceFree(s, d)
    case ReadSession(p, _, _) => p !in s.requests
    case Work(p) => p in s.requests && s.requests[p].Confirming? && CanWork(s, s.requests[p])
    case Report(p) =>
      && p in s.requests && s.requests[p].Confirming? && s.requests[p].tx.stage == Marked && s.requests[p].tx.session.Some?
      && s.requests[p].device in s.devices && DeviceFree(s, s.requests[p].device)
    case Commit(p) => p in s.requests && s.requests[p].Confirming? && s.requests[p].tx.stage == SessionDeleted
    case Abort(p) => p in s.requests && s.requests[p].Confirming?
    case ReadDevice(p, _, _) => p !in s.requests
    case Beat(p) =>
      && p in s.requests && s.requests[p].Beating? && s.requests[p].device in s.devices
      && IpFree(s, (s.requests[p].device, s.requests[p].ip))
      && (s.requests[p].source != Some(s.requests[p].ip) ==> DeviceFree(s, s.requests[p].device))
    case TouchSeen(p) =>
      && p in s.requests && s.requests[p].Touching? && s.requests[p].device in s.devices && DeviceFree(s, s.requests[p].device)
    case Touch(p, d) => p !in s.requests && d in s.devices
    case Discover(d, _) => d in s.devices && DeviceFree(s, d)
  }

  function WithoutWaiting(sessions: map<nat, Session>, d: nat): map<nat, Session> {
    map t | t in sessions && !(sessions[t].device == d && sessions[t].status == WAITING) :: sessions[t]
  }

  function Done(s: State, p: nat): State { s.(requests := s.requests - {p}) }

  function SetStatus(s: State, d: nat, status: PairStatus): State
    requires d in s.devices
  {
    s.(devices := s.devices[d := s.devices[d].(pairStatus := status)])
  }

  function SetSeen(s: State, d: nat, at: nat): State
    requires d in s.devices
  {
    s.(devices := s.devices[d := s.devices[d].(lastSeen := Some(at))])
  }

  function ApplyIpChange(s: State, d: nat, ip: Ip, at: nat, previous: Option<Ip>): State
    requires d in s.devices
  {
    s.(devices := s.devices[d := s.devices[d].(dnsSourceIp := Some(ip), publicIp := Some(ip), lastSeen := Some(at))],
       history := s.history[(d, ip) := Seen(s.history, (d, ip), at)],
       log := s.log + [Entry(d, ip, IpChanged(previous))])
  }

  function ApplyWork(s: State, p: nat): State
    requires Enabled(s, Work(p))
  {
    var r := s.requests[p];
    var x := Written(s, r);
    s.(requests := s.requests[p := r.(tx := x)], minted := if x.stage == DevicePaired then s.minted + 1 else s.minted)
  }

  function ApplyReport(s: State, p: nat): State
    requires Enabled(s, Report(p))
  {
    var r := s.requests[p];
    SetStatus(s, r.device, r.tx.session.value.status).(requests := s.requests[p := r.(tx := r.tx.(stage := Reported))])
  }

  function ApplyBeat(s: State, p: nat): State
    requires Enabled(s, Beat(p))
  {
    var Beating(d, ip, at, source) := s.requests[p];
    if source != Some(ip) then ApplyIpChange(Done(s, p), d, ip, at, source)
    else s.(history := s.history[(d, ip) := Seen(s.history, (d, ip), at)], requests := s.requests[p := Touching(d, at)])
  }

  function Apply(s: State, e: Event): State
    requires Enabled(s, e)
  {
    match e
    case Tick(ms) => s.(now := s.now + ms)
    case DropWaiting(d) => s.(sessions := WithoutWaiting(s.sessions, d))
    case CreateSession(d) =>
      s.(sessions := s.sessions[s.minted := Session(d, WAITING, s.now + PAIR_TOKEN_TTL_MS, 0)], minted := s.minted + 1)
    case MarkWaiting(d) => SetStatus(s, d, WAITING)
    case ReadSession(p, t, ip) =>
      if t in s.sessions && s.sessions[t].status == WAITING
      then s.(requests := s.requests[p := Confirming(t, s.sessions[t].device, ip, s.sessions[t].expiresAt < s.now, OPENED)])
      else s
    case Work(p) => ApplyWork(s, p)
    case Report(p) => ApplyReport(s, p)
    case Commit(p) => Merge(Done(s, p), s.requests[p])
    case Abort(p) => Done(s, p)
    case ReadDevice(p, d, ip) =>
      if d in s.devices && s.devices[d].paired
      then s.(requests := s.requests[p := Beating(d, ip, s.now, s.devices[d].dnsSourceIp)])
      else s
    case Beat(p) => ApplyBeat(s, p)
    case TouchSeen(p) => SetSeen(Done(s, p), s.requests[p].device, s.requests[p].at)
    case Touch(p, d) => s.(requests := s.requests[p := Touching(d, s.now)])
    case Discover(d, ip) => s.(devices := s.devices[d := s.devices[d].(dnsSourceIp := Some(ip))])
  }

  predicate Runs(s: State, es: seq<Event>)
    decreases |es|
  {
    es == [] || (Enabled(s, es[0]) && Runs(Apply(s, es[0]), es[1..]))
  }

  function Run(s: State, es: seq<Event>): State
    requires Runs(s, es)
    decreases |es|
  {
    if es == [] then s else Run(Apply(s, es[0]), es[1..])
  }

  lemma {:induction false} RunConcat(s: State, a: seq<Event>, b: seq<Event>)
    ensures Runs(s, a + b) <==> Runs(s, a) && Runs(Run(s, a), b)
    ensures Runs(s, a + b) ==> Run(s, a + b) == Run(Run(s, a), b)
    decreases |a|
  {
    if a == [] {
      assert a + b == b;
    } else {
      assert (a + b)[1..] == a[1..] + b;
      if Enabled(s, a[0]) {
        RunConcat(Apply(s, a[0]), a[1..], b);
      }
    }
  }

  /** The steps `es`, every one enabled, lead from `s` to `t`. */
  predicate Goes(s: State, es: seq<Event>, t: State) { Runs(s, es) && t == Run(s, es) }

  lemma Go(s0: State, es: seq<Event>, s: State, e: Event)
    requires Goes(s0, es, s) && Enabled(s, e)
    ensures Goes(s0, es + [e], Apply(s, e))
  {
    assert [e][1..] == [];
    RunConcat(s0, es, [e]);
  }

  // ---- What every interleaving keeps.

  /** The committed session is still the one a transaction has counted an attempt on. */
  predicate CountedOk(s: State, r: Request)
    requires r.Confirming?
  {
    && !r.late && r.token in s.sessions && r.tx.at <= s.now
    && r.tx.session == Some(s.sessions[r.token].(attempts := s.sessions[r.token].attempts + 1))
  }

  predicate DeviceOk(r: Request)
    requires r.Confirming?
  {
    r.tx.device.Some? && r.tx.device.value.beacon.Some? && r.tx.device.value == PairedRow(r.ip, r.tx.at, r.tx.device.value.beacon.value)
  }

  predicate SpanOk(s: State, r: Request)
    requires r.Confirming?
  {
    r.tx.span == Some(Seen(s.history, (r.device, r.ip), r.tx.at))
  }

  predicate MarkedOk(s: State, r: Request)
    requires r.Confirming?
  {
    && r.late && r.token in s.sessions
    && r.tx.session == Some(s.sessions[r.token].(status := EXPIRED))
    && r.tx.device == None && r.tx.span == None && r.tx.entry == None
  }

  /** A working copy holds exactly the writes of its stage, over rows that have not changed since. */
  predicate TxOk(s: State, r: Request)
    requires r.Confirming?
  {
    var x := r.tx;
    match x.stage
    case Opened => x == OPENED
    case Counted => CountedOk(s, r) && x.device == None && x.span == None && x.entry == None
    case DevicePaired => CountedOk(s, r) && DeviceOk(r) && x.span == None && x.entry == None
    case IpRecorded => CountedOk(s, r) && DeviceOk(r) && SpanOk(s, r) && x.entry == None
    case EventRecorded => CountedOk(s, r) && DeviceOk(r) && SpanOk(s, r) && x.entry == Some(Entry(r.device, r.ip, NewlyPaired))
    case SessionDeleted => CountedOk(s, r) && DeviceOk(r) && SpanOk(s, r) && x.entry == Some(Entry(r.device, r.ip, NewlyPaired))
    case Marked => MarkedOk(s, r)
    case Reported => MarkedOk(s, r)
  }

  predicate ConfirmOk(s: State, r: Request)
    requires r.Confirming?
  {
    && r.device in s.devices && r.token < s.minted
    && (r.token in s.sessions ==> s.sessions[r.token].device == r.device)
    && TxOk(s, r)
  }

  predicate TxsOk(s: State) {
    forall p | p in s.requests && s.requests[p].Confirming? :: ConfirmOk(s, s.requests[p])
  }

  /** A row is locked by at most one transaction. */
  predicate LocksOk(s: State) {
    forall p, q | p in s.requests && q in s.requests && p != q ::
      && (s.requests[p].Confirming? ==> !(HoldsSession(s.requests[p], s.requests[p].token) && HoldsSession(s.requests[q], s.requests[p].token)))
      && (s.requests[p].Confirming? ==>
            !(HoldsIp(s.requests[p], (s.requests[p].device, s.requests[p].ip)) && HoldsIp(s.requests[q], (s.requests[p].device, s.requests[p].ip))))
  }

  lemma LocksStayOk(s: State, e: Event)
    requires LocksOk(s) && Enabled(s, e)
    ensures LocksOk(Apply(s, e))
  {
    match e
    case Work(p) => WorkKeepsLocks(s, p);
    case Beat(p) =>
    case _ =>
  }

  lemma WorkKeepsLocks(s: State, p: nat)
    requires LocksOk(s) && Enabled(s, Work(p))
    ensures LocksOk(ApplyWork(s, p))
  {
  }

  /** Only fresh sessions are ever committed: counted attempts and marks live in working copies alone. */
  predicate SessionsOk(s: State) {
    && (forall t | t in s.sessions ::
          t < s.minted && s.sessions[t].device in s.devices && s.sessions[t].status == WAITING && s.sessions[t].attempts == 0)
    && (forall d | d in s.devices :: s.devices[d].pairStatus != FAILED)
  }

  lemma SessionsStayOk(s: State, e: Event)
    requires SessionsOk(s) && TxsOk(s) && Enabled(s, e)
    ensures SessionsOk(Apply(s, e))
  {
    match e
    case Commit(p) => assert ConfirmOk(s, s.requests[p]);
    case Report(p) => assert ConfirmOk(s, s.requests[p]);
    case Beat(p) =>
    case _ =>
  }

  // A step may change the committed rows a working copy rests on only if it does not hold them.

  /** What `ConfirmOk` looks at besides the request. */
  predicate SameGround(s: State, t: State, r: Request)
    requires r.Confirming?
  {
    && s.now <= t.now && s.minted <= t.minted && s.devices.Keys <= t.devices.Keys
    && (r.token in t.sessions ==> r.token in s.sessions && t.sessions[r.token] == s.sessions[r.token])
    && (r.tx.session.Some? && r.token in s.sessions ==> r.token in t.sessions)
    && (r.tx.span.Some? ==> Seen(t.history, (r.device, r.ip), r.tx.at) == Seen(s.history, (r.device, r.ip), r.tx.at))
  }

  lemma GroundKeepsConfirm(s: State, t: State, r: Request)
    requires r.Confirming? && ConfirmOk(s, r) && SameGround(s, t, r)
    ensures ConfirmOk(t, r)
  {
  }

  /** A step of another request leaves the ground of a transaction alone. */
  lemma OthersKeepGround(s: State, e: Event, q: nat)
    requires Enabled(s, e) && LocksOk(s) && q in s.requests && s.requests[q].Confirming? && ConfirmOk(s, s.requests[q])
    requires forall t | t in s.sessions :: t < s.minted
    requires e.Commit? ==> e.id != q && ConfirmOk(s, s.requests[e.id])
    ensures SameGround(s, Apply(s, e), s.requests[q])
  {
    match e
    case Work(p) =>
    case Beat(p) =>
    case Commit(p) => CommitKeepsGround(s, p, q);
    case _ =>
  }

  lemma CommitKeepsGround(s: State, p: nat, q: nat)
    requires Enabled(s, Commit(p)) && LocksOk(s) && q in s.requests && s.requests[q].Confirming? && p != q
    requires ConfirmOk(s, s.requests[p])
    ensures SameGround(s, Apply(s, Commit(p)), s.requests[q])
  {
  }

  /** One write keeps its own working copy in order. */
  lemma WorkKeepsConfirm(s: State, p: nat)
    requires Enabled(s, Work(p)) && ConfirmOk(s, s.requests[p])
    requires s.requests[p].token in s.sessions ==> s.sessions[s.requests[p].token].attempts == 0
    ensures ConfirmOk(Apply(s, Work(p)), Apply(s, Work(p)).requests[p])
  {
  }

  lemma TxsStayOk(s: State, e: Event)
    requires TxsOk(s) && LocksOk(s) && SessionsOk(s) && Enabled(s, e)
    ensures TxsOk(Apply(s, e))
  {
    var t := Apply(s, e);
    forall q | q in t.requests && t.requests[q].Confirming? ensures ConfirmOk(t, t.requests[q]) {
      if e.ReadSession? && e.id == q {
      } else if e.Work? && e.id == q {
        WorkKeepsConfirm(s, q);
      } else if e.Report? && e.id == q {
        ReportKeepsConfirm(s, q);
      } else {
        OtherRequestsStay(s, e, q);
        assert e.Commit? ==> ConfirmOk(s, s.requests[e.id]);
        OthersKeepGround(s, e, q);
        GroundKeepsConfirm(s, t, s.requests[q]);
      }
    }
  }

  lemma OtherRequestsStay(s: State, e: Event, q: nat)
    requires Enabled(s, e) && q in Apply(s, e).requests && Apply(s, e).requests[q].Confirming?
    requires !((e.ReadSession? || e.Work? || e.Report?) && e.id == q)
    ensures q in s.requests && s.requests[q] == Apply(s, e).requests[q]
    ensures e.Commit? ==> e.id != q
  {
    match e
    case Beat(p) =>
    case _ =>
  }

  lemma ReportKeepsConfirm(s: State, p: nat)
    requires Enabled(s, Report(p)) && ConfirmOk(s, s.requests[p])
    ensures ConfirmOk(Apply(s, Report(p)), Apply(s, Report(p)).requests[p])
  {
  }

  predicate NoDuplicates(ts: seq<nat>) {
    forall i, j | 0 <= i < j < |ts| :: ts[i] != ts[j]
  }

  predicate RedeemedOk(s: State) {
    && (forall t | t in s.redeemed :: t < s.minted && t !in s.sessions)
    && NoDuplicates(s.redeemed)
  }

  lemma RedeemedStaysOk(s: State, e: Event)
    requires RedeemedOk(s) && TxsOk(s) && Enabled(s, e)
    ensures RedeemedOk(Apply(s, e))
  {
    match e
    case Commit(p) => assert ConfirmOk(s, s.requests[p]);
    case Beat(p) =>
    case _ =>
  }

  /** Only paired devices have heartbeats under way, and no time to be written lies ahead. */
  predicate BeatsOk(s: State) {
    forall p | p in s.requests && !s.requests[p].Confirming? ::
      && s.requests[p].device in s.devices && s.requests[p].at <= s.now
      && (s.requests[p].Beating? ==> s.devices[s.requests[p].device].paired)
  }

  lemma BeatsStayOk(s: State, e: Event)
    requires BeatsOk(s) && TxsOk(s) && Enabled(s, e)
    ensures BeatsOk(Apply(s, e))
  {
    match e
    case Commit(p) => assert ConfirmOk(s, s.requests[p]);
    case Beat(p) =>
    case _ =>
  }

  /** The beacon token a working copy has drawn. */
  function Drawn(r: Request): Option<nat> {
    if r.Confirming? && r.tx.device.Some? then r.tx.device.value.beacon else None
  }

  predicate BeaconNew(s: State, b: nat) {
    && b < s.minted && b !in s.sessions
    && forall d | d in s.devices :: s.devices[d].beacon != Some(b)
  }

  /** Every paired device has a beacon token, no two devices share one, and nobody has one still in a working copy. */
  predicate BeaconsOk(s: State) {
    && (forall d | d in s.devices ::
          && s.devices[d].paired == s.devices[d].beacon.Some?
          && (s.devices[d].beacon.Some? ==> s.devices[d].beacon.value < s.minted && s.devices[d].beacon.value !in s.sessions))
    && (forall c, d | c in s.devices && d in s.devices && c != d && s.devices[c].beacon.Some? ::
          s.devices[c].beacon != s.devices[d].beacon)
    && DrawnOk(s)
  }

  predicate DrawnOk(s: State) {
    && (forall p | p in s.requests && Drawn(s.requests[p]).Some? :: BeaconNew(s, Drawn(s.requests[p]).value))
    && (forall p, q | p in s.requests && q in s.requests && p != q && Drawn(s.requests[p]).Some? ::
          Drawn(s.requests[p]) != Drawn(s.requests[q]))
  }

  lemma WorkKeepsBeacons(s: State, p: nat)
    requires BeaconsOk(s) && s.minted !in s.sessions && Enabled(s, Work(p))
    ensures BeaconsOk(ApplyWork(s, p))
  {
    var t := ApplyWork(s, p);
    forall q | q in t.requests && Drawn(t.requests[q]).Some? ensures BeaconNew(t, Drawn(t.requests[q]).value) {
      assert q != p ==> BeaconNew(s, Drawn(s.requests[q]).value);
      assert q == p && Drawn(s.requests[p]).Some? ==> BeaconNew(s, Drawn(s.requests[p]).value);
    }
  }

  lemma CommitKeepsBeacons(s: State, p: nat)
    requires BeaconsOk(s) && Enabled(s, Commit(p)) && DeviceOk(s.requests[p])
    ensures BeaconsOk(Apply(s, Commit(p)))
  {
    var r := s.requests[p];
    assert BeaconNew(s, Drawn(r).value);
    var t := Apply(s, Commit(p));
    forall q | q in t.requests && Drawn(t.requests[q]).Some? ensures BeaconNew(t, Drawn(t.requests[q]).value) {
      assert BeaconNew(s, Drawn(s.requests[q]).value);
    }
  }

  lemma BeaconsStayOk(s: State, e: Event)
    requires BeaconsOk(s) && s.minted !in s.sessions && TxsOk(s) && Enabled(s, e)
    ensures BeaconsOk(Apply(s, e))
  {
    match e
    case Work(p) => WorkKeepsBeacons(s, p);
    case Commit(p) =>
      assert ConfirmOk(s, s.requests[p]);
      CommitKeepsBeacons(s, p);
    case _ => OthersKeepBeacons(s, e);
  }

  lemma DrawnKept(s: State, e: Event, q: nat)
    requires Enabled(s, e) && !e.Work? && q in Apply(s, e).requests && Drawn(Apply(s, e).requests[q]).Some?
    ensures q in s.requests && Drawn(Apply(s, e).requests[q]) == Drawn(s.requests[q])
  {
    match e
    case Beat(p) =>
    case _ =>
  }

  /** Away from a commit no beacon changes, and new sessions get new tokens. */
  lemma BeaconsKept(s: State, e: Event)
    requires Enabled(s, e) && !e.Work? && !e.Commit?
    ensures var t := Apply(s, e);
      && t.devices.Keys == s.devices.Keys && s.minted <= t.minted
      && (forall d | d in s.devices :: t.devices[d].beacon == s.devices[d].beacon && t.devices[d].paired == s.devices[d].paired)
      && (forall k | k in t.sessions :: k in s.sessions || k == s.minted)
  {
    match e
    case Beat(p) =>
    case _ =>
  }

  lemma OthersKeepBeacons(s: State, e: Event)
    requires BeaconsOk(s) && s.minted !in s.sessions && Enabled(s, e) && !e.Work? && !e.Commit?
    ensures BeaconsOk(Apply(s, e))
  {
    BeaconsKept(s, e);
    DrawnStaysOk(s, e);
  }

  lemma DrawnStaysOk(s: State, e: Event)
    requires DrawnOk(s) && Enabled(s, e) && !e.Work? && !e.Commit?
    ensures DrawnOk(Apply(s, e))
  {
    var t := Apply(s, e);
    BeaconsKept(s, e);
    forall q | q in t.requests && Drawn(t.requests[q]).Some?
      ensures q in s.requests && Drawn(t.requests[q]) == Drawn(s.requests[q]) && BeaconNew(t, Drawn(t.requests[q]).value)
    {
      DrawnKept(s, e, q);
      assert BeaconNew(s, Drawn(s.requests[q]).value);
    }
  }

  /** Replaying the log: the IP a device was last seen to connect from. */
  function LastIp(log: seq<Entry>, d: nat): Option<Ip> {
    if log == [] then None
    else
      var last := log[|log| - 1];
      if last.device == d then Some(last.ip) else LastIp(log[..|log| - 1], d)
  }

  lemma LastIpSnoc(log: seq<Entry>, e: Entry, d: nat)
    ensures LastIp(log + [e], d) == if e.device == d then Some(e.ip) else LastIp(log, d)
  {
    assert (log + [e])[..|log|] == log;
  }

  predicate IpOk(s: State, d: nat)
    requires d in s.devices
  {
    && s.devices[d].publicIp == LastIp(s.log, d)
    && s.devices[d].paired == s.devices[d].publicIp.Some?
    && (s.devices[d].paired ==> (d, s.devices[d].publicIp.value) in s.history)
  }

  /** The log replays to the current public IP, which is in the history; unpaired devices have neither. */
  predicate IpsOk(s: State) { forall d | d in s.devices :: IpOk(s, d) }

  lemma CommitKeepsIps(s: State, p: nat)
    requires IpsOk(s) && Enabled(s, Commit(p)) && ConfirmOk(s, s.requests[p])
    ensures IpsOk(Apply(s, Commit(p)))
  {
    var t := Apply(s, Commit(p));
    forall d | d in t.devices ensures IpOk(t, d) {
      assert IpOk(s, d);
      LastIpSnoc(s.log, Entry(s.requests[p].device, s.requests[p].ip, NewlyPaired), d);
    }
  }

  lemma ChangeKeepsIps(s: State, d: nat, ip: Ip, at: nat, previous: Option<Ip>)
    requires IpsOk(s) && d in s.devices && s.devices[d].paired
    ensures IpsOk(ApplyIpChange(s, d, ip, at, previous))
  {
    var t := ApplyIpChange(s, d, ip, at, previous);
    forall c | c in t.devices ensures IpOk(t, c) {
      assert IpOk(s, c);
      LastIpSnoc(s.log, Entry(d, ip, IpChanged(previous)), c);
    }
  }

  lemma BeatKeepsIps(s: State, p: nat)
    requires IpsOk(s) && Enabled(s, Beat(p)) && s.devices[s.requests[p].device].paired
    ensures IpsOk(ApplyBeat(s, p))
  {
    var r := s.requests[p];
    ChangeKeepsIps(Done(s, p), r.device, r.ip, r.at, r.source);
  }

  lemma IpsStayOk(s: State, e: Event)
    requires IpsOk(s) && TxsOk(s) && BeatsOk(s) && Enabled(s, e)
    ensures IpsOk(Apply(s, e))
  {
    match e
    case Commit(p) =>
      assert ConfirmOk(s, s.requests[p]);
      CommitKeepsIps(s, p);
    case Beat(p) => BeatKeepsIps(s, p);
    case _ =>
      forall d | d in Apply(s, e).devices ensures IpOk(Apply(s, e), d) {
        OtherStepsKeepIp(s, e, d);
      }
  }

  lemma OtherStepsKeepIp(s: State, e: Event, d: nat)
    requires IpsOk(s) && Enabled(s, e) && !e.Commit? && !e.Beat? && d in Apply(s, e).devices
    ensures IpOk(Apply(s, e), d)
  {
    assert IpOk(s, d);
    assert Apply(s, e).log == s.log && Apply(s, e).history == s.history;
  }

  predicate StampsOk(s: State) {
    && (forall d | d in s.devices && s.devices[d].lastSeen.Some? :: s.devices[d].lastSeen.value <= s.now)
    && (forall k | k in s.history :: s.history[k].firstSeen <= s.now && s.history[k].lastSeen <= s.now)
  }

  lemma StampsStayOk(s: State, e: Event)
    requires StampsOk(s) && TxsOk(s) && BeatsOk(s) && Enabled(s, e)
    ensures StampsOk(Apply(s, e))
  {
    match e
    case Commit(p) => assert ConfirmOk(s, s.requests[p]);
    case Beat(p) => BeatKeepsStamps(s, p);
    case _ =>
  }

  lemma BeatKeepsStamps(s: State, p: nat)
    requires StampsOk(s) && Enabled(s, Beat(p)) && s.requests[p].at <= s.now
    ensures StampsOk(ApplyBeat(s, p))
  {
  }

  predicate Inv(s: State) {
    LocksOk(s) && SessionsOk(s) && TxsOk(s) && RedeemedOk(s) && BeatsOk(s) && BeaconsOk(s) && IpsOk(s) && StampsOk(s)
  }

  lemma InvPreserved(s: State, e: Event)
    requires Inv(s) && Enabled(s, e)
    ensures Inv(Apply(s, e))
  {
    LocksStayOk(s, e);
    SessionsStayOk(s, e);
    TxsStayOk(s, e);
    RedeemedStaysOk(s, e);
    BeatsStayOk(s, e);
    BeaconsStayOk(s, e);
    IpsStayOk(s, e);
    StampsStayOk(s, e);
  }

  lemma {:induction false} InvAlways(s: State, es: seq<Event>)
    requires Inv(s) && Runs(s, es)
    ensures Inv(Run(s, es))
    decreases |es|
  {
    if es != [] {
      InvPreserved(s, es[0]);
      InvAlways(Apply(s, es[0]), es[1..]);
    }
  }

  lemma InitInv(devices: map<nat, Device>)
    requires Unpaired(devices)
    ensures Inv(Init(devices))
  {
  }
}
