/** Last-seen times, heartbeats without overlap, and the runs that show what overlap breaks. */
module PairingRuns {
  import opened Common
  import opened Pairing
  import opened PairingTheorems

  // ---- Last-seen times.

  /** Last-seen times only grow, on the device rows and in the history. */
  predicate NotEarlier(s: State, t: State) {
    && (forall d | d in s.devices && s.devices[d].lastSeen.Some? ::
          d in t.devices && t.devices[d].lastSeen.Some? && s.devices[d].lastSeen.value <= t.devices[d].lastSeen.value)
    && (forall k | k in s.history :: k in t.history && s.history[k].lastSeen <= t.history[k].lastSeen)
  }

  predicate DeviceBy(s: State, d: nat, at: nat) {
    d in s.devices && s.devices[d].lastSeen.Some? ==> s.devices[d].lastSeen.value <= at
  }

  predicate IpBy(s: State, key: (nat, Ip), at: nat) { key in s.history ==> s.history[key].lastSeen <= at }

  /** A write of a last-seen time taken earlier finds none later than its own. */
  predicate Timely(s: State, e: Event)
    requires Enabled(s, e)
  {
    match e
    case Beat(p) =>
      var r := s.requests[p];
      IpBy(s, (r.device, r.ip), r.at) && (r.source != Some(r.ip) ==> DeviceBy(s, r.device, r.at))
    case TouchSeen(p) => DeviceBy(s, s.requests[p].device, s.requests[p].at)
    case Commit(p) =>
      var r := s.requests[p];
      IpBy(s, (r.device, r.ip), r.tx.at) && DeviceBy(s, r.device, r.tx.at)
    case _ => true
  }

  /** The exact condition on a step: only a write dated before what it overwrites takes a time back. */
  lemma EarlierExactlyByLateWrites(s: State, e: Event)
    requires Inv(s) && Enabled(s, e)
    ensures NotEarlier(s, Apply(s, e)) <==> Timely(s, e)
  {
    match e
    case Beat(p) => BeatOrder(s, p);
    case TouchSeen(p) => TouchSeenOrder(s, p);
    case Commit(p) =>
      assert ConfirmOk(s, s.requests[p]);
      CommitOrder(s, p);
    case _ => OtherStepsOrder(s, e);
  }

  lemma BeatOrder(s: State, p: nat)
    requires Enabled(s, Beat(p))
    ensures NotEarlier(s, Apply(s, Beat(p))) <==> Timely(s, Beat(p))
  {
    var t, r := Apply(s, Beat(p)), s.requests[p];
    if NotEarlier(s, t) && (r.device, r.ip) in s.history {
      assert t.history[(r.device, r.ip)].lastSeen == r.at;
    }
  }

  lemma TouchSeenOrder(s: State, p: nat)
    requires Enabled(s, TouchSeen(p))
    ensures NotEarlier(s, Apply(s, TouchSeen(p))) <==> Timely(s, TouchSeen(p))
  {
  }

  lemma CommitOrder(s: State, p: nat)
    requires Enabled(s, Commit(p)) && ConfirmOk(s, s.requests[p])
    ensures NotEarlier(s, Apply(s, Commit(p))) <==> Timely(s, Commit(p))
  {
    var t, r := Apply(s, Commit(p)), s.requests[p];
    if NotEarlier(s, t) && (r.device, r.ip) in s.history {
      assert t.history[(r.device, r.ip)].lastSeen == r.tx.at;
    }
  }

  lemma OtherStepsOrder(s: State, e: Event)
    requires StampsOk(s) && Enabled(s, e) && !e.Beat? && !e.TouchSeen? && !e.Commit?
    ensures NotEarlier(s, Apply(s, e))
  {
  }

  predicate OrderKept(s: State, es: seq<Event>)
    requires Runs(s, es)
    decreases |es|
  {
    es == [] || (NotEarlier(s, Apply(s, es[0])) && OrderKept(Apply(s, es[0]), es[1..]))
  }

  predicate TimelyRun(s: State, es: seq<Event>)
    requires Runs(s, es)
    decreases |es|
  {
    es == [] || (Timely(s, es[0]) && TimelyRun(Apply(s, es[0]), es[1..]))
  }

  /** No last-seen time ever goes back in a run exactly when all its dated writes are timely. */
  lemma {:induction false} OrderKeptExactlyWhenTimely(s: State, es: seq<Event>)
    requires Inv(s) && Runs(s, es)
    ensures OrderKept(s, es) <==> TimelyRun(s, es)
    ensures TimelyRun(s, es) ==> NotEarlier(s, Run(s, es))
    decreases |es|
  {
    if es != [] {
      InvPreserved(s, es[0]);
      EarlierExactlyByLateWrites(s, es[0]);
      OrderKeptExactlyWhenTimely(Apply(s, es[0]), es[1..]);
    }
  }

  // ---- One request at a time.

  /** A request that has taken a time it will write, or read an IP it will compare. */
  predicate UnderWay(r: Request) { !r.Confirming? || (r.tx.session.Some? && !r.late) }

  function TimeOf(r: Request): nat
    requires UnderWay(r)
  {
    if r.Confirming? then r.tx.at else r.at
  }

  /** The device whose connection columns an event starts to read, or writes on its own. */
  function Uses(s: State, e: Event): Option<nat>
    requires Enabled(s, e)
  {
    match e
    case ReadDevice(_, d, _) => Some(d)
    case Work(p) => if s.requests[p].tx.stage == Opened then Some(s.requests[p].device) else None
    case Touch(_, d) => Some(d)
    case Discover(d, _) => Some(d)
    case _ => None
  }

  /** No request of that device is between its read and its last write. */
  predicate Alone(s: State, e: Event)
    requires Enabled(s, e)
  {
    Uses(s, e).Some? ==> forall p | p in s.requests && UnderWay(s.requests[p]) :: s.requests[p].device != Uses(s, e).value
  }

  predicate Serial(s: State, es: seq<Event>)
    requires Runs(s, es)
    decreases |es|
  {
    es == [] || (Alone(s, es[0]) && Serial(Apply(s, es[0]), es[1..]))
  }

  /** A request under way still sees what it read, and no stamp of its device is later than its own. */
  predicate UpToDate(s: State, r: Request) {
    && r.device in s.devices
    && UnderWay(r)
    && (r.Beating? ==> r.source == s.devices[r.device].dnsSourceIp)
    && DeviceBy(s, r.device, TimeOf(r))
    && (forall k | k in s.history && k.0 == r.device :: s.history[k].lastSeen <= TimeOf(r))
  }

  predicate SerialInv(s: State) {
    && (forall p | p in s.requests && UnderWay(s.requests[p]) :: UpToDate(s, s.requests[p]))
    && (forall p, q | p in s.requests && q in s.requests && p != q && UnderWay(s.requests[p]) && UnderWay(s.requests[q]) ::
          s.requests[p].device != s.requests[q].device)
  }

  /** The device whose source IP or stamps an event may write. */
  function Writes(s: State, e: Event): Option<nat>
    requires Enabled(s, e)
  {
    match e
    case Beat(p) => Some(s.requests[p].device)
    case TouchSeen(p) => Some(s.requests[p].device)
    case Commit(p) => Some(s.requests[p].device)
    case _ => Uses(s, e)
  }

  predicate SameStamps(s: State, t: State, d: nat) {
    && d in s.devices && d in t.devices
    && t.devices[d].dnsSourceIp == s.devices[d].dnsSourceIp
    && t.devices[d].lastSeen == s.devices[d].lastSeen
    && (forall k | k in t.history && k.0 == d :: k in s.history && t.history[k] == s.history[k])
  }

  lemma OthersUntouched(s: State, e: Event, d: nat)
    requires Enabled(s, e) && Writes(s, e) != Some(d) && d in s.devices
    ensures SameStamps(s, Apply(s, e), d)
  {
    match e
    case Beat(q) =>
    case Commit(q) =>
    case _ =>
  }

  lemma StaysUpToDate(s: State, t: State, r: Request)
    requires UpToDate(s, r) && SameStamps(s, t, r.device)
    ensures UpToDate(t, r)
  {
  }

  /** Where a request under way comes from. */
  lemma OtherRequestsUntouched(s: State, e: Event, p: nat)
    requires TxsOk(s) && Enabled(s, e) && p in Apply(s, e).requests && UnderWay(Apply(s, e).requests[p])
    ensures var r := Apply(s, e).requests[p];
         || (p in s.requests && r == s.requests[p] && !((e.Beat? || e.TouchSeen? || e.Commit?) && e.id == p))
         || (e.Beat? && e.id == p && s.requests[p].source == Some(s.requests[p].ip)
             && r == Touching(s.requests[p].device, s.requests[p].at))
         || (e.ReadDevice? && e.id == p && e.device in s.devices && r == Beating(e.device, e.ip, s.now, s.devices[e.device].dnsSourceIp))
         || (e.Touch? && e.id == p && e.device in s.devices && r == Touching(e.device, s.now))
         || (e.Work? && e.id == p && s.requests[p].tx.stage == Opened && r.Confirming? && r.device == s.requests[p].device
             && r.device in s.devices && r.tx.at == s.now)
         || (e.Work? && e.id == p && s.requests[p].tx.stage != Opened && r.Confirming? && r.device == s.requests[p].device
             && UnderWay(s.requests[p]) && r.tx.at == s.requests[p].tx.at)
  {
    match e
    case Beat(q) =>
    case Work(q) => assert ConfirmOk(s, s.requests[q]);
    case Report(q) => assert ConfirmOk(s, s.requests[q]);
    case _ =>
  }

  lemma BeatLeavesUpToDate(s: State, p: nat)
    requires Enabled(s, Beat(p)) && UpToDate(s, s.requests[p]) && s.requests[p].source == Some(s.requests[p].ip)
    ensures UpToDate(Apply(s, Beat(p)), Touching(s.requests[p].device, s.requests[p].at))
  {
  }

  /** Work changes no committed row, so what it takes is as up to date as the clock. */
  lemma WorkLeavesUpToDate(s: State, p: nat, q: nat)
    requires StampsOk(s) && Enabled(s, Work(p)) && s.requests[p].device in s.devices
    requires var r := Apply(s, Work(p)).requests[p];
      UnderWay(r) && (r.tx.at == s.now || (UpToDate(s, s.requests[p]) && r.tx.at == s.requests[p].tx.at))
    ensures UpToDate(Apply(s, Work(p)), Apply(s, Work(p)).requests[p])
  {
  }

  lemma RequestStaysUpToDate(s: State, e: Event, p: nat)
    requires SerialInv(s) && StampsOk(s) && TxsOk(s) && Enabled(s, e) && Alone(s, e)
    requires p in Apply(s, e).requests && UnderWay(Apply(s, e).requests[p])
    ensures UpToDate(Apply(s, e), Apply(s, e).requests[p])
  {
    OtherRequestsUntouched(s, e, p);
    if e.Beat? && e.id == p {
      BeatLeavesUpToDate(s, p);
    } else if (e.ReadDevice? || e.Touch?) && e.id == p && p !in s.requests {
    } else if e.Work? && e.id == p {
      assert ConfirmOk(s, s.requests[p]);
      WorkLeavesUpToDate(s, p, p);
    } else {
      assert UpToDate(s, s.requests[p]);
      OtherWritesElsewhere(s, e, p);
      OthersUntouched(s, e, s.requests[p].device);
      StaysUpToDate(s, Apply(s, e), s.requests[p]);
    }
  }

  lemma OtherWritesElsewhere(s: State, e: Event, p: nat)
    requires SerialInv(s) && TxsOk(s) && Enabled(s, e) && Alone(s, e)
    requires p in s.requests && UnderWay(s.requests[p])
    requires !((e.Beat? || e.TouchSeen? || e.Commit? || e.Work?) && e.id == p)
    ensures Writes(s, e) != Some(s.requests[p].device)
  {
    if e.Commit? {
      assert ConfirmOk(s, s.requests[e.id]);
    }
  }

  lemma RequestsStayApart(s: State, e: Event, p: nat, q: nat)
    requires SerialInv(s) && TxsOk(s) && Enabled(s, e) && Alone(s, e) && p != q
    requires p in Apply(s, e).requests && UnderWay(Apply(s, e).requests[p])
    requires q in Apply(s, e).requests && UnderWay(Apply(s, e).requests[q])
    ensures Apply(s, e).requests[p].device != Apply(s, e).requests[q].device
  {
    OtherRequestsUntouched(s, e, p);
    OtherRequestsUntouched(s, e, q);
  }

  lemma {:induction false} SerialInvPreserved(s: State, e: Event)
    requires SerialInv(s) && StampsOk(s) && TxsOk(s) && Enabled(s, e) && Alone(s, e)
    ensures SerialInv(Apply(s, e))
  {
    var t := Apply(s, e);
    forall p | p in t.requests && UnderWay(t.requests[p]) ensures UpToDate(t, t.requests[p]) {
      RequestStaysUpToDate(s, e, p);
    }
    forall p, q | p in t.requests && q in t.requests && p != q && UnderWay(t.requests[p]) && UnderWay(t.requests[q])
      ensures t.requests[p].device != t.requests[q].device
    {
      RequestsStayApart(s, e, p, q);
    }
  }

  lemma SerialStep(s: State, e: Event)
    requires SerialInv(s) && TxsOk(s) && Enabled(s, e)
    ensures Calm(s, e) && Timely(s, e)
  {
    if e.Beat? || e.TouchSeen? {
      assert UpToDate(s, s.requests[e.id]);
    } else if e.Commit? {
      assert ConfirmOk(s, s.requests[e.id]);
      assert UpToDate(s, s.requests[e.id]);
    }
  }

  /** A caller's rule that meets both conditions: one request per device at a time. */
  lemma {:induction false} SerialRunsAreCalmAndTimely(s: State, es: seq<Event>)
    requires Inv(s) && SerialInv(s) && Runs(s, es) && Serial(s, es)
    ensures CalmRun(s, es) && TimelyRun(s, es)
    decreases |es|
  {
    if es != [] {
      InvPreserved(s, es[0]);
      SerialInvPreserved(s, es[0]);
      SerialStep(s, es[0]);
      SerialRunsAreCalmAndTimely(Apply(s, es[0]), es[1..]);
    }
  }

  /** So without overlap no last-seen time goes back, and without gateway discovery the log is a chain. */
  lemma SerialRunsKeepOrder(devices: map<nat, Device>, es: seq<Event>)
    requires Unpaired(devices) && Runs(Init(devices), es) && Serial(Init(devices), es)
    ensures OrderKept(Init(devices), es)
    ensures NoDiscovery(es) ==> Linked(Run(Init(devices), es).log)
  {
    InitInv(devices);
    SerialRunsAreCalmAndTimely(Init(devices), es);
    OrderKeptExactlyWhenTimely(Init(devices), es);
    if NoDiscovery(es) {
      ChainIsTrueExactlyWhenCalm(Init(devices), es);
    }
  }

  // ---- What overlap breaks.

  const BLANK := Device(false, WAITING, None, None, None, None, None)
  const ONE_DEVICE := map[0 := BLANK]

  function JustPaired(): State {
    State(0, 2, map[], map[0 := PairedRow(1, 0, 1)], map[(0, 1) := Span(0, 0)], [Entry(0, 1, NewlyPaired)], map[], [0])
  }

  const COUNTED := Some(Session(0, WAITING, PAIR_TOKEN_TTL_MS, 1))
  const NEW_ROW := Some(PairedRow(1, 0, 1))

  function Confirm(tx: Tx): State {
    State(0, if tx.device.Some? then 2 else 1, map[0 := Session(0, WAITING, PAIR_TOKEN_TTL_MS, 0)], ONE_DEVICE, map[], [],
          map[0 := Confirming(0, 0, 1, false, tx)], [])
  }

  lemma FirstWrites() returns (es: seq<Event>)
    ensures es == [CreateSession(0)] + [ReadSession(0, 0, 1)] + [Work(0)] + [Work(0)]
    ensures Goes(Init(ONE_DEVICE), es, Confirm(Tx(DevicePaired, COUNTED, NEW_ROW, None, None, 0)))
  {
    var s0 := Init(ONE_DEVICE);
    Go(s0, [], s0, CreateSession(0));
    assert [] + [CreateSession(0)] == [CreateSession(0)];
    var s1 := Apply(s0, CreateSession(0));
    Go(s0, [CreateSession(0)], s1, ReadSession(0, 0, 1));
    assert Apply(s1, ReadSession(0, 0, 1)) == Confirm(OPENED);
    es := [CreateSession(0)] + [ReadSession(0, 0, 1)];
    Go(s0, es, Confirm(OPENED), Work(0));
    es := es + [Work(0)];
    Go(s0, es, Confirm(Tx(Counted, COUNTED, None, None, None, 0)), Work(0));
    es := es + [Work(0)];
  }

  const READY := Confirm(Tx(SessionDeleted, COUNTED, NEW_ROW, Some(Span(0, 0)), Some(Entry(0, 1, NewlyPaired)), 0))

  lemma LastWrites(s0: State, es: seq<Event>)
    requires Goes(s0, es, Confirm(Tx(DevicePaired, COUNTED, NEW_ROW, None, None, 0)))
    ensures Goes(s0, es + [Work(0)] + [Work(0)] + [Work(0)], READY)
  {
    var span := Some(Span(0, 0));
    Go(s0, es, Confirm(Tx(DevicePaired, COUNTED, NEW_ROW, None, None, 0)), Work(0));
    Go(s0, es + [Work(0)], Confirm(Tx(IpRecorded, COUNTED, NEW_ROW, span, None, 0)), Work(0));
    Go(s0, es + [Work(0)] + [Work(0)], Confirm(Tx(EventRecorded, COUNTED, NEW_ROW, span, Some(Entry(0, 1, NewlyPaired)), 0)), Work(0));
  }

  lemma LastCommit(s0: State, es: seq<Event>)
    requires Goes(s0, es, READY)
    ensures Goes(s0, es + [Commit(0)], JustPaired())
  {
    Go(s0, es, READY, Commit(0));
    assert READY.requests - {0} == map[] && READY.sessions - {0} == map[];
  }

  /** A run that pairs device 0 from IP 1. */
  lemma PairFirst() returns (es: seq<Event>)
    ensures Goes(Init(ONE_DEVICE), es, JustPaired()) && NoDiscovery(es)
  {
    es := FirstWrites();
    LastWrites(Init(ONE_DEVICE), es);
    es := es + [Work(0)] + [Work(0)] + [Work(0)];
    LastCommit(Init(ONE_DEVICE), es);
    es := es + [Commit(0)];
  }

  /** Two heartbeats under way at once, the second read `ms` later. */
  function TwoBeating(a: Ip, ms: nat, b: Ip): State {
    JustPaired().(now := ms, requests := map[1 := Beating(0, a, 0, Some(1)), 2 := Beating(0, b, ms, Some(1))])
  }

  lemma BothRead(s0: State, es: seq<Event>, a: Ip, ms: nat, b: Ip)
    requires Goes(s0, es, JustPaired())
    ensures Goes(s0, es + [ReadDevice(1, 0, a)] + [Tick(ms)] + [ReadDevice(2, 0, b)], TwoBeating(a, ms, b))
  {
    Go(s0, es, JustPaired(), ReadDevice(1, 0, a));
    var s1 := Apply(JustPaired(), ReadDevice(1, 0, a));
    Go(s0, es + [ReadDevice(1, 0, a)], s1, Tick(ms));
    Go(s0, es + [ReadDevice(1, 0, a)] + [Tick(ms)], Apply(s1, Tick(ms)), ReadDevice(2, 0, b));
  }

  lemma BothBeat(s0: State, es: seq<Event>)
    requires Goes(s0, es, TwoBeating(2, 0, 3))
    ensures Runs(s0, es + [Beat(1)] + [Beat(2)])
    ensures Run(s0, es + [Beat(1)] + [Beat(2)]).log
         == [Entry(0, 1, NewlyPaired), Entry(0, 2, IpChanged(Some(1))), Entry(0, 3, IpChanged(Some(1)))]
  {
    var s1 := TwoBeating(2, 0, 3);
    Go(s0, es, s1, Beat(1));
    Go(s0, es + [Beat(1)], Apply(s1, Beat(1)), Beat(2));
  }

  /** Two overlapping heartbeats that both read IP 1 both log it as `previous`: the log is no chain. */
  lemma OverlapBreaksTheChain() returns (es: seq<Event>)
    ensures Runs(Init(ONE_DEVICE), es) && NoDiscovery(es)
    ensures Run(Init(ONE_DEVICE), es).log
         == [Entry(0, 1, NewlyPaired), Entry(0, 2, IpChanged(Some(1))), Entry(0, 3, IpChanged(Some(1)))]
    ensures !Linked(Run(Init(ONE_DEVICE), es).log)
  {
    var first := PairFirst();
    BothRead(Init(ONE_DEVICE), first, 2, 0, 3);
    var readBoth := first + [ReadDevice(1, 0, 2)] + [Tick(0)] + [ReadDevice(2, 0, 3)];
    BothBeat(Init(ONE_DEVICE), readBoth);
    es := readBoth + [Beat(1)] + [Beat(2)];
    NoChain(Run(Init(ONE_DEVICE), es).log);
  }

  lemma NoChain(log: seq<Entry>)
    requires log == [Entry(0, 1, NewlyPaired), Entry(0, 2, IpChanged(Some(1))), Entry(0, 3, IpChanged(Some(1)))]
    ensures !Linked(log)
  {
    assert log[..2] == [Entry(0, 1, NewlyPaired), Entry(0, 2, IpChanged(Some(1)))];
    assert LastIp(log[..2], 0) == Some(2);
    assert !LinkOk(log[..2], log[2]);
  }

  /** The later heartbeat has written its history row, the earlier one not yet. */
  const LATER_FIRST := JustPaired().(
    now := 5, history := map[(0, 1) := Span(0, 5)], requests := map[1 := Beating(0, 1, 0, Some(1)), 2 := Touching(0, 5)])

  lemma LaterBeatsFirst(s0: State, es: seq<Event>)
    requires Goes(s0, es, TwoBeating(1, 5, 1))
    ensures Goes(s0, es + [Beat(2)], LATER_FIRST)
  {
    Go(s0, es, TwoBeating(1, 5, 1), Beat(2));
  }

  /** Two overlapping heartbeats from an unchanged IP: the later one's time is overwritten by the earlier one's. */
  lemma OverlapTakesTimeBack() returns (es: seq<Event>, s: State, t: State)
    ensures Goes(Init(ONE_DEVICE), es, s) && s.history == map[(0, 1) := Span(0, 5)]
    ensures Goes(Init(ONE_DEVICE), es + [Beat(1)], t) && t.history == map[(0, 1) := Span(0, 0)]
    ensures !NotEarlier(s, t)
  {
    es := PairFirst();
    BothRead(Init(ONE_DEVICE), es, 1, 5, 1);
    es := es + [ReadDevice(1, 0, 1)] + [Tick(5)] + [ReadDevice(2, 0, 1)];
    LaterBeatsFirst(Init(ONE_DEVICE), es);
    es := es + [Beat(2)];
    s, t := LATER_FIRST, Apply(LATER_FIRST, Beat(1));
    Go(Init(ONE_DEVICE), es, s, Beat(1));
    assert s.history[(0, 1)].lastSeen > t.history[(0, 1)].lastSeen;
  }

  /** Two starts whose deletes both run first leave two live sessions for one device. */
  lemma OverlappingStartsLeaveTwo()
    ensures var es := [DropWaiting(0)] + [DropWaiting(0)] + [CreateSession(0)] + [CreateSession(0)];
      && Runs(Init(ONE_DEVICE), es)
      && SessionsOf(Run(Init(ONE_DEVICE), es), 0) == {0, 1}
  {
    var s0 := Init(ONE_DEVICE);
    assert WithoutWaiting(s0.sessions, 0) == s0.sessions;
    Go(s0, [], s0, DropWaiting(0));
    assert [] + [DropWaiting(0)] == [DropWaiting(0)];
    Go(s0, [DropWaiting(0)], s0, DropWaiting(0));
    Go(s0, [DropWaiting(0)] + [DropWaiting(0)], s0, CreateSession(0));
    Go(s0, [DropWaiting(0)] + [DropWaiting(0)] + [CreateSession(0)], Apply(s0, CreateSession(0)), CreateSession(0));
  }
}
