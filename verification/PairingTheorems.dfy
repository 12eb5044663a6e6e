/** What pairing promises, over every run. */
module PairingTheorems {
  import opened Common
  import opened Pairing

  // ---- The confirm transaction.

  /** A pairing token is confirmed at most once, whoever read its session first, and its session is gone. */
  lemma TokenConfirmedAtMostOnce(devices: map<nat, Device>, es: seq<Event>)
    requires Unpaired(devices) && Runs(Init(devices), es)
    ensures var t := Run(Init(devices), es);
      NoDuplicates(t.redeemed) && forall token | token in t.redeemed :: token !in t.sessions
  {
    InitInv(devices);
    InvAlways(Init(devices), es);
  }

  predicate SameTables(s: State, t: State) {
    t.sessions == s.sessions && t.devices == s.devices && t.history == s.history && t.log == s.log && t.redeemed == s.redeemed
  }

  predicate OnlyStatusDiffers(s: State, t: State, d: nat) {
    && d in s.devices && d in t.devices
    && t.devices == s.devices[d := s.devices[d].(pairStatus := t.devices[d].pairStatus)]
    && SameTables(s.(devices := t.devices), t)
  }

  /** Everything a confirm is for, at once. */
  predicate PairedBy(s: State, t: State, r: Request)
    requires r.Confirming?
  {
    && r.token in s.sessions && t.sessions == s.sessions - {r.token} && t.redeemed == s.redeemed + [r.token]
    && t.log == s.log + [Entry(r.device, r.ip, NewlyPaired)]
    && t.history == s.history[(r.device, r.ip) := Seen(s.history, (r.device, r.ip), r.tx.at)]
    && t.devices.Keys == s.devices.Keys && r.device in s.devices
    && (forall c | c in s.devices && c != r.device :: t.devices[c] == s.devices[c])
    && t.devices[r.device].paired && t.devices[r.device].pairStatus == PAIRED
    && t.devices[r.device].dnsSourceIp == t.devices[r.device].publicIp == Some(r.ip)
    && t.devices[r.device].pairedAt == t.devices[r.device].lastSeen == Some(r.tx.at)
    && t.devices[r.device].beacon.Some?
    && forall c | c in s.devices :: t.devices[r.device].beacon != s.devices[c].beacon
  }

  /**
   * A confirm is all or nothing. Its writes and its throw, wherever that comes, change no committed
   * row; the one write outside it changes a pair status, to EXPIRED, and only for a session read too
   * late; its commit makes everything visible together, for a session read in time that is still there.
   */
  lemma ConfirmIsAllOrNothing(s: State, e: Event)
    requires Inv(s) && Enabled(s, e) && (e.Work? || e.Abort? || e.Report? || e.Commit?)
    ensures var t, r := Apply(s, e), s.requests[e.id];
      match e
      case Commit(_) => !r.late && PairedBy(s, t, r)
      case Report(_) => r.late && OnlyStatusDiffers(s, t, r.device) && t.devices[r.device].pairStatus == EXPIRED
      case _ => SameTables(s, t)
  {
    assert ConfirmOk(s, s.requests[e.id]);
    if e.Commit? {
      assert BeaconNew(s, Drawn(s.requests[e.id]).value);
    }
  }

  /** The device a step is about; none for the clock. */
  function Concerns(s: State, e: Event): Option<nat>
    requires Enabled(s, e)
  {
    match e
    case Tick(_) => None
    case DropWaiting(d) => Some(d)
    case CreateSession(d) => Some(d)
    case MarkWaiting(d) => Some(d)
    case ReadSession(_, _, _) => None
    case ReadDevice(_, _, _) => None
    case Touch(_, _) => None
    case Discover(d, _) => Some(d)
    case _ => Some(s.requests[e.id].device)
  }

  /** A step writes the row of one device at most. */
  lemma OtherDevicesUntouched(s: State, e: Event, d: nat)
    requires TxsOk(s) && Enabled(s, e) && Concerns(s, e) != Some(d)
    ensures var t := Apply(s, e); (d in t.devices <==> d in s.devices) && (d in s.devices ==> t.devices[d] == s.devices[d])
  {
    match e
    case Commit(p) => assert ConfirmOk(s, s.requests[p]);
    case _ =>
  }

  /** Creates, changes and deletes sessions of one device at most. */
  lemma OtherSessionsUntouched(s: State, e: Event, d: nat)
    requires SessionsOk(s) && TxsOk(s) && Enabled(s, e) && Concerns(s, e) != Some(d)
    ensures var t := Apply(s, e);
      && (forall k | k in s.sessions && s.sessions[k].device == d :: k in t.sessions && t.sessions[k] == s.sessions[k])
      && (forall k | k in t.sessions && t.sessions[k].device == d :: k in s.sessions)
  {
    match e
    case Commit(p) => assert ConfirmOk(s, s.requests[p]);
    case _ =>
  }

  /** And writes history and log of one device at most. */
  lemma OtherHistoriesUntouched(s: State, e: Event, d: nat)
    requires TxsOk(s) && Enabled(s, e) && Concerns(s, e) != Some(d)
    ensures var t := Apply(s, e);
      && (forall ip :: (d, ip) in t.history <==> (d, ip) in s.history)
      && (forall ip | (d, ip) in s.history :: t.history[(d, ip)] == s.history[(d, ip)])
      && s.log <= t.log && (forall i | |s.log| <= i < |t.log| :: t.log[i].device != d)
  {
    match e
    case Commit(p) => assert ConfirmOk(s, s.requests[p]);
    case _ =>
  }

  /** Gateway discovery, the status write of a start and a heartbeat's last write change one column each. */
  lemma OneColumnWrites(s: State, e: Event)
    requires Enabled(s, e)
    ensures e.Discover? ==>
      Apply(s, e) == s.(devices := s.devices[e.device := s.devices[e.device].(dnsSourceIp := Some(e.ip))])
    ensures e.MarkWaiting? ==>
      Apply(s, e) == s.(devices := s.devices[e.device := s.devices[e.device].(pairStatus := WAITING)])
    ensures e.Touch? ==> Apply(s, e) == s.(requests := s.requests[e.id := Touching(e.device, s.now)])
    ensures e.TouchSeen? ==>
      var r := s.requests[e.id];
      Apply(s, e).devices == s.devices[r.device := s.devices[r.device].(lastSeen := Some(r.at))]
      && SameTables(s.(devices := Apply(s, e).devices), Apply(s, e))
  {
  }

  /**
   * The attempt limit is never reached. Every confirm counts its attempt, but a throw undoes the
   * count and a commit deletes the session, so each count starts from zero: a working copy shows
   * one attempt, a committed session none, and no device is ever FAILED.
   */
  lemma AttemptLimitNeverBites(devices: map<nat, Device>, es: seq<Event>)
    requires Unpaired(devices) && Runs(Init(devices), es)
    ensures var t := Run(Init(devices), es);
      && (forall k | k in t.sessions :: t.sessions[k].attempts == 0 && t.sessions[k].status == WAITING)
      && (forall p | p in t.requests && t.requests[p].Confirming? && t.requests[p].tx.stage == Counted ::
            t.requests[p].tx.session.Some? && t.requests[p].tx.session.value.attempts == 1)
      && (forall d | d in t.devices :: t.devices[d].pairStatus != FAILED)
  {
    InitInv(devices);
    InvAlways(Init(devices), es);
    var t := Run(Init(devices), es);
    forall p | p in t.requests && t.requests[p].Confirming? && t.requests[p].tx.stage == Counted
      ensures t.requests[p].tx.session.Some? && t.requests[p].tx.session.value.attempts == 1
    {
      assert ConfirmOk(t, t.requests[p]);
    }
  }

  // ---- Devices, history and log.

  /** A paired device stays paired and never loses its beacon token. */
  lemma {:induction false} PairedStays(s: State, d: nat, es: seq<Event>)
    requires Inv(s) && d in s.devices && s.devices[d].paired && Runs(s, es)
    ensures var t := Run(s, es); d in t.devices && t.devices[d].paired && t.devices[d].beacon.Some?
    decreases |es|
  {
    if es != [] {
      InvPreserved(s, es[0]);
      PairedStaysOneStep(s, d, es[0]);
      PairedStays(Apply(s, es[0]), d, es[1..]);
    }
  }

  lemma PairedStaysOneStep(s: State, d: nat, e: Event)
    requires TxsOk(s) && d in s.devices && s.devices[d].paired && Enabled(s, e)
    ensures d in Apply(s, e).devices && Apply(s, e).devices[d].paired
  {
    match e
    case Commit(p) => assert ConfirmOk(s, s.requests[p]);
    case Beat(p) =>
    case _ =>
  }

  /** In every reachable state the log replays to the public IP, and the history holds it. */
  lemma LogReplaysToPublicIp(devices: map<nat, Device>, es: seq<Event>, d: nat)
    requires Unpaired(devices) && Runs(Init(devices), es) && d in Run(Init(devices), es).devices
    ensures var t := Run(Init(devices), es);
      && t.devices[d].publicIp == LastIp(t.log, d)
      && t.devices[d].paired == t.devices[d].publicIp.Some?
      && (t.devices[d].paired ==> (d, t.devices[d].publicIp.value) in t.history)
  {
    InitInv(devices);
    InvAlways(Init(devices), es);
  }

  /** The first-seen time of an IP never changes, and its row never goes away. */
  lemma {:induction false} FirstSeenIsFixed(s: State, key: (nat, Ip), es: seq<Event>)
    requires Inv(s) && key in s.history && Runs(s, es)
    ensures key in Run(s, es).history && Run(s, es).history[key].firstSeen == s.history[key].firstSeen
    decreases |es|
  {
    if es != [] {
      InvPreserved(s, es[0]);
      FirstSeenOneStep(s, key, es[0]);
      FirstSeenIsFixed(Apply(s, es[0]), key, es[1..]);
    }
  }

  lemma FirstSeenOneStep(s: State, key: (nat, Ip), e: Event)
    requires TxsOk(s) && key in s.history && Enabled(s, e)
    ensures key in Apply(s, e).history && Apply(s, e).history[key].firstSeen == s.history[key].firstSeen
  {
    match e
    case Commit(p) => assert ConfirmOk(s, s.requests[p]);
    case Beat(p) =>
    case _ =>
  }

  // ---- Cancelling.

  predicate NoCreateFor(es: seq<Event>, d: nat) { forall i | 0 <= i < |es| :: es[i] != CreateSession(d) }

  function PairingOf(d: nat): Entry -> bool { (e: Entry) => e.device == d && e.kind.NewlyPaired? }

  /** How often a device was paired. */
  function Pairings(log: seq<Entry>, d: nat): seq<Entry> { Filter(log, PairingOf(d)) }

  /** After a cancel no confirm for the device commits, not even one already under way, until pairing starts again. */
  lemma NothingPairsAfterCancel(s: State, d: nat, es: seq<Event>)
    requires Inv(s) && Enabled(s, DropWaiting(d)) && Runs(Apply(s, DropWaiting(d)), es) && NoCreateFor(es, d)
    ensures Pairings(Run(Apply(s, DropWaiting(d)), es).log, d) == Pairings(s.log, d)
  {
    InvPreserved(s, DropWaiting(d));
    NoSessionNoPairing(Apply(s, DropWaiting(d)), d, es);
  }

  predicate NoSessionFor(s: State, d: nat) { forall t | t in s.sessions :: s.sessions[t].device != d }

  lemma {:induction false} NoSessionNoPairing(s: State, d: nat, es: seq<Event>)
    requires Inv(s) && NoSessionFor(s, d) && Runs(s, es) && NoCreateFor(es, d)
    ensures Pairings(Run(s, es).log, d) == Pairings(s.log, d)
    decreases |es|
  {
    if es != [] {
      InvPreserved(s, es[0]);
      NoSessionOneStep(s, d, es[0]);
      NoSessionNoPairing(Apply(s, es[0]), d, es[1..]);
    }
  }

  lemma NoSessionOneStep(s: State, d: nat, e: Event)
    requires TxsOk(s) && NoSessionFor(s, d) && Enabled(s, e) && e != CreateSession(d)
    ensures NoSessionFor(Apply(s, e), d)
    ensures Pairings(Apply(s, e).log, d) == Pairings(s.log, d)
  {
    match e
    case Commit(p) =>
      var r := s.requests[p];
      assert ConfirmOk(s, r);
      FilterConcat(s.log, [Entry(r.device, r.ip, NewlyPaired)], PairingOf(d));
    case Beat(p) =>
      var r := s.requests[p];
      FilterConcat(s.log, [Entry(r.device, r.ip, IpChanged(r.source))], PairingOf(d));
    case _ =>
  }

  // ---- One live session per device.

  /** At most one session for the device. */
  predicate AtMostOne(s: State, d: nat) {
    forall t, u | t in s.sessions && u in s.sessions && s.sessions[t].device == d && s.sessions[u].device == d :: t == u
  }

  /** The one step that leaves a device with two live sessions: a create that finds one. */
  lemma TwoSessionsExactlyByCreate(s: State, d: nat, e: Event)
    requires Inv(s) && AtMostOne(s, d) && Enabled(s, e)
    ensures AtMostOne(Apply(s, e), d) <==> (e == CreateSession(d) ==> NoSessionFor(s, d))
  {
    if e.CreateSession? {
      CreateAddsOne(s, d, e.device);
    } else {
      if e.Commit? {
        assert ConfirmOk(s, s.requests[e.id]);
      }
      NoneAddsSessions(s, e);
    }
  }

  lemma CreateAddsOne(s: State, d: nat, c: nat)
    requires SessionsOk(s) && AtMostOne(s, d) && Enabled(s, CreateSession(c))
    ensures AtMostOne(Apply(s, CreateSession(c)), d) <==> (c == d ==> NoSessionFor(s, d))
  {
    var t := Apply(s, CreateSession(c));
    if c == d && !NoSessionFor(s, d) {
      var k :| k in s.sessions && s.sessions[k].device == d;
      assert k in t.sessions && s.minted in t.sessions && k != s.minted;
    }
  }

  lemma NoneAddsSessions(s: State, e: Event)
    requires Enabled(s, e) && !e.CreateSession? && (e.Commit? ==> s.requests[e.id].token in s.sessions)
    ensures forall t | t in Apply(s, e).sessions :: t in s.sessions && Apply(s, e).sessions[t].device == s.sessions[t].device
  {
    match e
    case Beat(p) =>
    case _ =>
  }

  predicate AtMostOneThroughout(s: State, es: seq<Event>, d: nat)
    requires Runs(s, es)
    decreases |es|
  {
    AtMostOne(s, d) && (es == [] || AtMostOneThroughout(Apply(s, es[0]), es[1..], d))
  }

  predicate CreatesFindNone(s: State, es: seq<Event>, d: nat)
    requires Runs(s, es)
    decreases |es|
  {
    es == [] || ((es[0] == CreateSession(d) ==> NoSessionFor(s, d)) && CreatesFindNone(Apply(s, es[0]), es[1..], d))
  }

  /** A device has at most one live session at every moment of a run exactly when no create finds one. */
  lemma {:induction false} OneSessionExactlyWhenCreatesFindNone(s: State, es: seq<Event>, d: nat)
    requires Inv(s) && AtMostOne(s, d) && Runs(s, es)
    ensures AtMostOneThroughout(s, es, d) <==> CreatesFindNone(s, es, d)
    decreases |es|
  {
    if es != [] {
      InvPreserved(s, es[0]);
      TwoSessionsExactlyByCreate(s, d, es[0]);
      if AtMostOne(Apply(s, es[0]), d) {
        OneSessionExactlyWhenCreatesFindNone(Apply(s, es[0]), es[1..], d);
      }
    }
  }

  /** A start's delete leaves nothing for its create to find, if nothing comes between. */
  lemma StartFindsNone(s: State, d: nat)
    requires Inv(s) && Enabled(s, DropWaiting(d))
    ensures NoSessionFor(Apply(s, DropWaiting(d)), d)
    ensures SessionsOf(Apply(Apply(s, DropWaiting(d)), CreateSession(d)), d) == {s.minted}
  {
  }

  /** The sessions of a device. */
  function SessionsOf(s: State, d: nat): set<nat> {
    set t | t in s.sessions && s.sessions[t].device == d
  }

  // ---- The chain of IP changes.

  /** An IP change names as `previous` the IP of the event before it. */
  predicate LinkOk(log: seq<Entry>, e: Entry) {
    e.kind.IpChanged? ==> e.kind.previous == LastIp(log, e.device)
  }

  predicate Linked(log: seq<Entry>) {
    forall i | 0 <= i < |log| :: LinkOk(log[..i], log[i])
  }

  lemma LinkedSnoc(log: seq<Entry>, e: Entry)
    ensures Linked(log + [e]) <==> Linked(log) && LinkOk(log, e)
  {
    forall i | 0 <= i < |log| ensures (log + [e])[..i] == log[..i] && (log + [e])[i] == log[i] {}
    assert (log + [e])[..|log|] == log;
    if Linked(log + [e]) {
      forall i | 0 <= i < |log| ensures LinkOk(log[..i], log[i]) {
        assert LinkOk((log + [e])[..i], (log + [e])[i]);
      }
      assert LinkOk((log + [e])[..|log|], (log + [e])[|log|]);
    }
  }

  /** A heartbeat that reports a change writes over the very IP it read. */
  predicate Calm(s: State, e: Event)
    requires Enabled(s, e)
  {
    e.Beat? && s.requests[e.id].source != Some(s.requests[e.id].ip) ==>
      s.devices[s.requests[e.id].device].dnsSourceIp == s.requests[e.id].source
  }

  predicate CalmRun(s: State, es: seq<Event>)
    requires Runs(s, es)
    decreases |es|
  {
    es == [] || (Calm(s, es[0]) && CalmRun(Apply(s, es[0]), es[1..]))
  }

  predicate NoDiscovery(es: seq<Event>) { forall i | 0 <= i < |es| :: !es[i].Discover? }

  /** Only pairing has written the DNS source IP of a paired device. */
  predicate Synced(s: State) {
    forall d | d in s.devices && s.devices[d].paired :: s.devices[d].dnsSourceIp == s.devices[d].publicIp
  }

  lemma SyncedOneStep(s: State, e: Event)
    requires Synced(s) && TxsOk(s) && Enabled(s, e) && !e.Discover?
    ensures Synced(Apply(s, e))
  {
    match e
    case Commit(p) => assert ConfirmOk(s, s.requests[p]);
    case Beat(p) =>
    case _ =>
  }

  lemma LinkedOneStep(s: State, e: Event)
    requires Inv(s) && Synced(s) && Enabled(s, e) && !e.Discover?
    ensures Linked(Apply(s, e).log) <==> Linked(s.log) && Calm(s, e)
  {
    match e
    case Commit(p) =>
      assert ConfirmOk(s, s.requests[p]);
      LinkedSnoc(s.log, Entry(s.requests[p].device, s.requests[p].ip, NewlyPaired));
    case Beat(p) =>
      var r := s.requests[p];
      LinkedSnoc(s.log, Entry(r.device, r.ip, IpChanged(r.source)));
    case _ =>
  }

  /** With no other writer, the log is a true chain exactly when no heartbeat overwrites an IP it has not seen. */
  lemma {:induction false} ChainIsTrueExactlyWhenCalm(s: State, es: seq<Event>)
    requires Inv(s) && Synced(s) && Linked(s.log) && Runs(s, es) && NoDiscovery(es)
    ensures Linked(Run(s, es).log) <==> CalmRun(s, es)
    decreases |es|
  {
    if es != [] {
      InvPreserved(s, es[0]);
      SyncedOneStep(s, es[0]);
      LinkedOneStep(s, es[0]);
      if Calm(s, es[0]) {
        ChainIsTrueExactlyWhenCalm(Apply(s, es[0]), es[1..]);
      } else {
        BrokenStaysBroken(Apply(s, es[0]), es[1..]);
      }
    }
  }

  lemma {:induction false} BrokenStaysBroken(s: State, es: seq<Event>)
    requires !Linked(s.log) && Runs(s, es)
    ensures !Linked(Run(s, es).log)
    decreases |es|
  {
    if es != [] {
      BrokenOneStep(s, es[0]);
      BrokenStaysBroken(Apply(s, es[0]), es[1..]);
    }
  }

  lemma BrokenOneStep(s: State, e: Event)
    requires !Linked(s.log) && Enabled(s, e)
    ensures !Linked(Apply(s, e).log)
  {
    match e
    case Commit(p) =>
      if s.requests[p].tx.entry.Some? {
        LinkedSnoc(s.log, s.requests[p].tx.entry.value);
      }
    case Beat(p) =>
      var r := s.requests[p];
      LinkedSnoc(s.log, Entry(r.device, r.ip, IpChanged(r.source)));
    case _ =>
  }

  /** An IP change always changes something: its `previous` differs from its own IP, in every run. */
  predicate ChangesDiffer(log: seq<Entry>) {
    forall i | 0 <= i < |log| && log[i].kind.IpChanged? :: log[i].kind.previous != Some(log[i].ip)
  }

  lemma {:induction false} ChangesAlwaysDiffer(s: State, es: seq<Event>)
    requires Inv(s) && ChangesDiffer(s.log) && Runs(s, es)
    ensures ChangesDiffer(Run(s, es).log)
    decreases |es|
  {
    if es != [] {
      InvPreserved(s, es[0]);
      ChangesDifferOneStep(s, es[0]);
      ChangesAlwaysDiffer(Apply(s, es[0]), es[1..]);
    }
  }

  lemma ChangesDifferOneStep(s: State, e: Event)
    requires TxsOk(s) && ChangesDiffer(s.log) && Enabled(s, e)
    ensures ChangesDiffer(Apply(s, e).log)
  {
    match e
    case Commit(p) => assert ConfirmOk(s, s.requests[p]);
    case Beat(p) =>
    case _ =>
  }
}
