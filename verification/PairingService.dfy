/** The pairing service: each method, with nothing in between, is a run of the protocol's events. */
module PairingService {
  import opened Common
  import opened Pairing

  /** The events of a confirm with nothing in between, by how it ends. */
  function ConfirmEvents(s: State, token: nat, ip: Ip): seq<Event>
    requires token in s.sessions
  {
    var x := s.sessions[token];
    if x.status != WAITING then []
    else if x.expiresAt < s.now then [ReadSession(0, token, ip)] + [Work(0)] + [Report(0)] + [Abort(0)]
    else if x.attempts + 1 > PAIR_MAX_CONFIRM_ATTEMPTS then
      [ReadSession(0, token, ip)] + [Work(0)] + [Work(0)] + [Report(0)] + [Abort(0)]
    else [ReadSession(0, token, ip)] + [Work(0)] + [Work(0)] + [Work(0)] + [Work(0)] + [Work(0)] + [Commit(0)]
  }

  /** The tables it leaves. */
  function AfterConfirm(s: State, token: nat, ip: Ip): State
    requires token in s.sessions && s.sessions[token].device in s.devices
  {
    var x := s.sessions[token];
    if x.status != WAITING then s
    else if x.expiresAt < s.now then SetStatus(s, x.device, EXPIRED)
    else if x.attempts + 1 > PAIR_MAX_CONFIRM_ATTEMPTS then SetStatus(s, x.device, FAILED)
    else
      s.(minted := s.minted + 1,
         sessions := s.sessions - {token},
         devices := s.devices[x.device := PairedRow(ip, s.now, s.minted)],
         history := s.history[(x.device, ip) := Seen(s.history, (x.device, ip), s.now)],
         log := s.log + [Entry(x.device, ip, NewlyPaired)],
         redeemed := s.redeemed + [token])
  }

  /** A state whose only request is a confirm with working copy `tx`. */
  function During(s: State, token: nat, ip: Ip, late: bool, tx: Tx): State
    requires token in s.sessions
  {
    s.(requests := map[0 := Confirming(token, s.sessions[token].device, ip, late, tx)],
       minted := if tx.device.Some? then s.minted + 1 else s.minted)
  }

  lemma ReadRuns(s: State, token: nat, ip: Ip)
    requires s.requests == map[] && token in s.sessions && s.sessions[token].status == WAITING
    ensures Goes(s, [ReadSession(0, token, ip)], During(s, token, ip, s.sessions[token].expiresAt < s.now, OPENED))
  {
    assert [] + [ReadSession(0, token, ip)] == [ReadSession(0, token, ip)];
    Go(s, [], s, ReadSession(0, token, ip));
  }

  lemma LateRuns(s: State, token: nat, ip: Ip)
    requires s.requests == map[] && token in s.sessions && s.sessions[token].device in s.devices
    requires s.sessions[token].status == WAITING && s.sessions[token].expiresAt < s.now
    ensures Goes(s, ConfirmEvents(s, token, ip), AfterConfirm(s, token, ip))
  {
    var es, x := [ReadSession(0, token, ip)], s.sessions[token];
    ReadRuns(s, token, ip);
    var s1 := During(s, token, ip, true, OPENED);
    Go(s, es, s1, Work(0));
    var s2 := During(s, token, ip, true, OPENED.(stage := Marked, session := Some(x.(status := EXPIRED))));
    assert Apply(s1, Work(0)) == s2;
    Go(s, es + [Work(0)], s2, Report(0));
    var s3 := Apply(s2, Report(0));
    assert s3.requests - {0} == map[];
    Go(s, es + [Work(0)] + [Report(0)], s3, Abort(0));
  }

  lemma CountedRuns(s: State, token: nat, ip: Ip)
    requires s.requests == map[] && token in s.sessions
    requires s.sessions[token].status == WAITING && s.now <= s.sessions[token].expiresAt
    ensures var row := s.sessions[token].(attempts := s.sessions[token].attempts + 1);
      Goes(s, [ReadSession(0, token, ip)] + [Work(0)], During(s, token, ip, false, Tx(Counted, Some(row), None, None, None, s.now)))
  {
    ReadRuns(s, token, ip);
    Go(s, [ReadSession(0, token, ip)], During(s, token, ip, false, OPENED), Work(0));
  }

  lemma TooManyRuns(s: State, token: nat, ip: Ip)
    requires s.requests == map[] && token in s.sessions && s.sessions[token].device in s.devices
    requires s.sessions[token].status == WAITING && s.now <= s.sessions[token].expiresAt
    requires s.sessions[token].attempts + 1 > PAIR_MAX_CONFIRM_ATTEMPTS
    ensures Goes(s, ConfirmEvents(s, token, ip), AfterConfirm(s, token, ip))
  {
    var es, x := [ReadSession(0, token, ip)] + [Work(0)], s.sessions[token];
    var row := x.(attempts := x.attempts + 1);
    CountedRuns(s, token, ip);
    Go(s, es, During(s, token, ip, false, Tx(Counted, Some(row), None, None, None, s.now)), Work(0));
    var s2 := During(s, token, ip, false, Tx(Marked, Some(row.(status := FAILED)), None, None, None, s.now));
    Go(s, es + [Work(0)], s2, Report(0));
    var s3 := Apply(s2, Report(0));
    assert s3.requests - {0} == map[];
    Go(s, es + [Work(0)] + [Report(0)], s3, Abort(0));
  }

  lemma WritesRun(s: State, token: nat, ip: Ip)
    requires s.requests == map[] && token in s.sessions && s.sessions[token].device in s.devices
    requires s.sessions[token].status == WAITING && s.now <= s.sessions[token].expiresAt
    requires s.sessions[token].attempts + 1 <= PAIR_MAX_CONFIRM_ATTEMPTS
    ensures var x := s.sessions[token]; var key := (x.device, ip);
      Goes(s, [ReadSession(0, token, ip)] + [Work(0)] + [Work(0)] + [Work(0)],
           During(s, token, ip, false, Tx(IpRecorded, Some(x.(attempts := x.attempts + 1)), Some(PairedRow(ip, s.now, s.minted)),
                                          Some(Seen(s.history, key, s.now)), None, s.now)))
  {
    var es, x := [ReadSession(0, token, ip)] + [Work(0)], s.sessions[token];
    var row, dev := Some(x.(attempts := x.attempts + 1)), Some(PairedRow(ip, s.now, s.minted));
    CountedRuns(s, token, ip);
    Go(s, es, During(s, token, ip, false, Tx(Counted, row, None, None, None, s.now)), Work(0));
    Go(s, es + [Work(0)], During(s, token, ip, false, Tx(DevicePaired, row, dev, None, None, s.now)), Work(0));
  }

  lemma CommitRuns(s: State, token: nat, ip: Ip)
    requires s.requests == map[] && token in s.sessions && s.sessions[token].device in s.devices
    requires s.sessions[token].status == WAITING && s.now <= s.sessions[token].expiresAt
    requires s.sessions[token].attempts + 1 <= PAIR_MAX_CONFIRM_ATTEMPTS
    ensures Goes(s, ConfirmEvents(s, token, ip), AfterConfirm(s, token, ip))
  {
    var es, x := [ReadSession(0, token, ip)] + [Work(0)] + [Work(0)] + [Work(0)], s.sessions[token];
    var row, dev := Some(x.(attempts := x.attempts + 1)), Some(PairedRow(ip, s.now, s.minted));
    var span, entry := Some(Seen(s.history, (x.device, ip), s.now)), Some(Entry(x.device, ip, NewlyPaired));
    WritesRun(s, token, ip);
    Go(s, es, During(s, token, ip, false, Tx(IpRecorded, row, dev, span, None, s.now)), Work(0));
    Go(s, es + [Work(0)], During(s, token, ip, false, Tx(EventRecorded, row, dev, span, entry, s.now)), Work(0));
    var last := During(s, token, ip, false, Tx(SessionDeleted, row, dev, span, entry, s.now));
    assert last.requests - {0} == map[];
    Go(s, es + [Work(0)] + [Work(0)], last, Commit(0));
  }

  /** A confirm that meets no other request runs to its end. */
  lemma ConfirmRuns(s: State, token: nat, ip: Ip)
    requires s.requests == map[] && token in s.sessions && s.sessions[token].device in s.devices
    ensures Goes(s, ConfirmEvents(s, token, ip), AfterConfirm(s, token, ip))
  {
    var x := s.sessions[token];
    if x.status == WAITING {
      if x.expiresAt < s.now {
        LateRuns(s, token, ip);
      } else if x.attempts + 1 > PAIR_MAX_CONFIRM_ATTEMPTS {
        TooManyRuns(s, token, ip);
      } else {
        CommitRuns(s, token, ip);
      }
    }
  }

  /** The events of a heartbeat with nothing in between. */
  function Heartbeat(s: State, d: nat, ip: Ip): seq<Event> {
    if d !in s.devices || !s.devices[d].paired then []
    else if s.devices[d].dnsSourceIp != Some(ip) then [ReadDevice(0, d, ip)] + [Beat(0)]
    else [ReadDevice(0, d, ip)] + [Beat(0)] + [TouchSeen(0)]
  }

  /** The events of one probe that meets no other request. */
  function Probe(s: State, token: nat, ip: Ip, beaconOf: Option<nat>): seq<Event> {
    if token in s.sessions then ConfirmEvents(s, token, ip)
    else if beaconOf.None? then []
    else Heartbeat(s, beaconOf.value, ip)
  }

  lemma HeartbeatRuns(s: State, d: nat, ip: Ip)
    requires s.requests == map[] && d in s.devices && s.devices[d].paired
    ensures Goes(s, Heartbeat(s, d, ip),
                 if s.devices[d].dnsSourceIp != Some(ip) then ApplyIpChange(s, d, ip, s.now, s.devices[d].dnsSourceIp)
                 else SetSeen(s.(history := s.history[(d, ip) := Seen(s.history, (d, ip), s.now)]), d, s.now))
  {
    var a := ReadDevice(0, d, ip);
    Go(s, [], s, a);
    assert [] + [a] == [a];
    var s1 := Apply(s, a);
    assert s1.requests - {0} == map[];
    Go(s, [a], s1, Beat(0));
    if s.devices[d].dnsSourceIp == Some(ip) {
      var s2 := Apply(s1, Beat(0));
      assert s2.requests - {0} == map[];
      Go(s, [a] + [Beat(0)], s2, TouchSeen(0));
    }
  }

  lemma StartRuns(s: State, d: nat)
    requires s.requests == map[] && d in s.devices
    ensures
      var t := s.(sessions := WithoutWaiting(s.sessions, d)[s.minted := Session(d, WAITING, s.now + PAIR_TOKEN_TTL_MS, 0)],
                  minted := s.minted + 1);
      Goes(s, [DropWaiting(d)] + [CreateSession(d)] + [MarkWaiting(d)], SetStatus(t, d, WAITING))
  {
    Go(s, [], s, DropWaiting(d));
    assert [] + [DropWaiting(d)] == [DropWaiting(d)];
    var s1 := Apply(s, DropWaiting(d));
    Go(s, [DropWaiting(d)], s1, CreateSession(d));
    Go(s, [DropWaiting(d)] + [CreateSession(d)], Apply(s1, CreateSession(d)), MarkWaiting(d));
  }

  class PairingService {
    const owners: map<nat, nat>   // device to parent
    var minted: nat
    var sessions: map<nat, Session>
    var devices: map<nat, Device>
    var history: History
    var log: seq<Entry>
    ghost var redeemed: seq<nat>

    constructor (owners: map<nat, nat>, devices: map<nat, Device>)
      requires owners.Keys == devices.Keys
      ensures Valid() && View(0) == Init(devices) && this.owners == owners
    {
      this.owners := owners;
      this.devices := devices;
      minted, sessions, history, log, redeemed := 0, map[], map[], [], [];
    }

    ghost function View(now: nat): State
      reads this
    {
      State(now, minted, sessions, devices, history, log, map[], redeemed)
    }

    /** Foreign keys: every session and every owner belongs to a device row. */
    ghost predicate Valid()
      reads this
    {
      && owners.Keys == devices.Keys
      && forall t | t in sessions :: sessions[t].device in devices
    }

    method CheckOwner(deviceId: nat, parentId: nat) returns (r: Result<nat>)
      requires Valid()
      ensures r == if deviceId !in owners then Err(NotFound)
                   else if owners[deviceId] != parentId then Err(Forbidden)
                   else Ok(deviceId)
    {
      if deviceId !in owners {
        return Err(NotFound);
      }
      if owners[deviceId] != parentId {
        return Err(Forbidden);
      }
      return Ok(deviceId);
    }

    method StartPairing(deviceId: nat, parentId: nat, now: nat) returns (r: Result<nat>)
      requires Valid()
      modifies this
      ensures Valid()
      ensures r.Ok? <==> deviceId in owners && owners[deviceId] == parentId
      ensures r.Err? ==> View(now) == old(View(now)) && r.error == if deviceId in owners then Forbidden else NotFound
      ensures r.Ok? ==>
        && Goes(old(View(now)), [DropWaiting(deviceId)] + [CreateSession(deviceId)] + [MarkWaiting(deviceId)], View(now))
        && r.value == old(minted)
      // On the tables: of the device's sessions only those no longer waiting stay, beside the new one.
      ensures r.Ok? ==>
        && r.value in sessions && sessions[r.value] == Session(deviceId, WAITING, now + PAIR_TOKEN_TTL_MS, 0)
        && (forall t | t != r.value :: t in sessions <==>
              t in old(sessions) && !(old(sessions)[t].device == deviceId && old(sessions)[t].status == WAITING))
        && (forall t | t != r.value && t in sessions :: sessions[t] == old(sessions)[t])
        && devices == old(devices)[deviceId := old(devices)[deviceId].(pairStatus := WAITING)]
        && history == old(history) && log == old(log)
    {
      var owned := CheckOwner(deviceId, parentId);
      if owned.Err? {
        return Err(owned.error);
      }
      ghost var s := View(now);
      sessions := WithoutWaiting(sessions, deviceId);
      var token := minted;
      minted := minted + 1;
      sessions := sessions[token := Session(deviceId, WAITING, now + PAIR_TOKEN_TTL_MS, 0)];
      devices := devices[deviceId := devices[deviceId].(pairStatus := WAITING)];
      StartRuns(s, deviceId);
      r := Ok(token);
    }

    method CancelPairing(deviceId: nat, parentId: nat, now: nat) returns (r: Result<nat>)
      requires Valid()
      modifies this
      ensures Valid()
      ensures r.Ok? <==> deviceId in owners && owners[deviceId] == parentId
      ensures r.Err? ==> View(now) == old(View(now)) && r.error == if deviceId in owners then Forbidden else NotFound
      ensures r.Ok? ==>
        Enabled(old(View(now)), DropWaiting(deviceId)) && View(now) == Apply(old(View(now)), DropWaiting(deviceId))
      ensures r.Ok? ==>
        && (forall t :: t in sessions <==>
              t in old(sessions) && !(old(sessions)[t].device == deviceId && old(sessions)[t].status == WAITING))
        && (forall t | t in sessions :: sessions[t] == old(sessions)[t])
        && devices == old(devices) && history == old(history) && log == old(log)
    {
      r := CheckOwner(deviceId, parentId);
      if r.Ok? {
        sessions := WithoutWaiting(sessions, deviceId);
      }
    }

    /** None: not a session token, so the caller goes on to the beacon lookup. */
    method TryConfirmPairingSession(token: nat, ip: Ip, now: nat) returns (r: Option<Result<nat>>)
      requires Valid()
      modifies this
      ensures Valid()
      ensures r.None? <==> token !in old(sessions)
      ensures Goes(old(View(now)), Probe(old(View(now)), token, ip, None), View(now))
      ensures r.Some? ==> r.value == if |log| > |old(log)| then Ok(old(sessions)[token].device) else Err(BadRequest)
      ensures r.None? ==> sessions == old(sessions) && devices == old(devices) && history == old(history) && log == old(log)
      // On the tables: a live session below the limit pairs its device, whose row, history and log say so.
      ensures token in old(sessions) ==>
        var x := old(sessions)[token];
        if x.status == WAITING && now <= x.expiresAt && x.attempts + 1 <= PAIR_MAX_CONFIRM_ATTEMPTS then
          && r == Some(Ok(x.device))
          && sessions == old(sessions) - {token}
          && devices == old(devices)[x.device :=
               Device(true, PAIRED, Some(now), Some(ip), Some(ip), Some(old(minted)), Some(now))]
          && history == old(history)[(x.device, ip) :=
               Span(if (x.device, ip) in old(history) then old(history)[(x.device, ip)].firstSeen else now, now)]
          && log == old(log) + [Entry(x.device, ip, NewlyPaired)]
        else
          && r == Some(Err(BadRequest)) && sessions == old(sessions) && history == old(history) && log == old(log)
          && devices == if x.status != WAITING then old(devices)
                        else old(devices)[x.device := old(devices)[x.device].(
                          pairStatus := if x.expiresAt < now then EXPIRED else FAILED)]
    {
      if token !in sessions {
        return None;
      }
      ConfirmRuns(View(now), token, ip);
      // the transaction's view of the tables, and its token generator's
      var txSessions, txDevices, txHistory, txLog, drawn := sessions, devices, history, log, minted;
      var session := txSessions[token];
      var d := session.device;
      if session.status != WAITING {
        return Some(Err(BadRequest));
      }
      if session.expiresAt < now {
        txSessions := txSessions[token := session.(status := EXPIRED)];
        devices := devices[d := devices[d].(pairStatus := EXPIRED)];   // outside the transaction
        return Some(Err(BadRequest));                                  // thrown: the transaction's view is dropped
      }
      txSessions := txSessions[token := session.(attempts := session.attempts + 1)];
      var attempts := txSessions[token];
      if attempts.attempts > PAIR_MAX_CONFIRM_ATTEMPTS {
        txSessions := txSessions[token := attempts.(status := FAILED)];
        devices := devices[d := devices[d].(pairStatus := FAILED)];    // outside the transaction
        return Some(Err(BadRequest));                                  // thrown
      }
      txDevices := txDevices[d := PairedRow(ip, now, drawn)];
      drawn := drawn + 1;
      txHistory := UpsertIpHistory(txHistory, d, ip, now);
      txLog := txLog + [Entry(d, ip, NewlyPaired)];
      assert txSessions - {token} == sessions - {token};
      txSessions := txSessions - {token};
      sessions, devices, history, log, minted := txSessions, txDevices, txHistory, txLog, drawn;
      redeemed := redeemed + [token];
      r := Some(Ok(d));
    }

    method UpsertIpHistory(rows: History, d: nat, ip: Ip, at: nat) returns (after: History)
      ensures after == rows[(d, ip) := Seen(rows, (d, ip), at)]
    {
      if (d, ip) in rows {
        return rows[(d, ip) := rows[(d, ip)].(lastSeen := at)];
      }
      return rows[(d, ip) := Span(at, at)];
    }

    method RecordHeartbeat(deviceId: nat, ip: Ip, now: nat)
      requires Valid()
      modifies `devices, `history, `log
      ensures Valid()
      ensures Goes(old(View(now)), Heartbeat(old(View(now)), deviceId, ip), View(now))
      // On the tables: a paired device's row and history take the address and the time; a change is logged.
      ensures deviceId !in old(devices) || !old(devices)[deviceId].paired ==>
        devices == old(devices) && history == old(history) && log == old(log)
      ensures deviceId in old(devices) && old(devices)[deviceId].paired ==>
        var was := old(devices)[deviceId];
        && history == old(history)[(deviceId, ip) :=
             Span(if (deviceId, ip) in old(history) then old(history)[(deviceId, ip)].firstSeen else now, now)]
        && devices == old(devices)[deviceId := was.(
             dnsSourceIp := Some(ip), lastSeen := Some(now),
             publicIp := if was.dnsSourceIp == Some(ip) then was.publicIp else Some(ip))]
        && log == if was.dnsSourceIp == Some(ip) then old(log) else old(log) + [Entry(deviceId, ip, IpChanged(was.dnsSourceIp))]
    {
      if deviceId !in devices || !devices[deviceId].paired {
        return;
      }
      HeartbeatRuns(View(now), deviceId, ip);
      var device := devices[deviceId];
      if device.dnsSourceIp != Some(ip) {
        devices := devices[deviceId := device.(dnsSourceIp := Some(ip), publicIp := Some(ip), lastSeen := Some(now))];
        history := UpsertIpHistory(history, deviceId, ip, now);
        log := log + [Entry(deviceId, ip, IpChanged(device.dnsSourceIp))];
      } else {
        history := UpsertIpHistory(history, deviceId, ip, now);
        devices := devices[deviceId := device.(lastSeen := Some(now))];
      }
    }

    method FindDeviceByBeaconToken(token: nat) returns (d: Option<nat>)
      ensures d.Some? ==> d.value in devices && devices[d.value].beacon == Some(token)
      ensures d.None? ==> forall c | c in devices :: devices[c].beacon != Some(token)
    {
      if c :| c in devices && devices[c].beacon == Some(token) {
        return Some(c);
      }
      return None;
    }

    /** A session token confirms; any other token is a beacon token or unknown. */
    method ConfirmProbe(token: nat, ip: Ip, now: nat) returns (r: Result<nat>, ghost beaconOf: Option<nat>)
      requires Valid()
      modifies this
      ensures Valid()
      ensures token !in old(sessions) ==>
        if beaconOf.Some? then beaconOf.value in old(devices) && old(devices)[beaconOf.value].beacon == Some(token)
        else forall c | c in old(devices) :: old(devices)[c].beacon != Some(token)
      ensures Goes(old(View(now)), Probe(old(View(now)), token, ip, beaconOf), View(now))
      ensures token !in old(sessions) ==> r == if beaconOf.Some? then Ok(beaconOf.value) else Err(NotFound)
      ensures token in old(sessions) ==>
        r == if |log| > |old(log)| then Ok(old(sessions)[token].device) else Err(BadRequest)
      // On the tables: a live session token pairs; a beacon of a paired device leaves the address in its row.
      ensures token in old(sessions) && old(sessions)[token].status == WAITING && now <= old(sessions)[token].expiresAt
              && old(sessions)[token].attempts + 1 <= PAIR_MAX_CONFIRM_ATTEMPTS ==>
        var d := old(sessions)[token].device;
        && r == Ok(d) && token !in sessions && d in devices && devices[d].paired
        && devices[d].dnsSourceIp == devices[d].publicIp == Some(ip)
        && (d, ip) in history && log == old(log) + [Entry(d, ip, NewlyPaired)]
      ensures token !in old(sessions) && beaconOf.Some? && old(devices)[beaconOf.value].paired ==>
        && r == Ok(beaconOf.value) && beaconOf.value in devices && sessions == old(sessions)
        && devices[beaconOf.value].dnsSourceIp == Some(ip) && devices[beaconOf.value].lastSeen == Some(now)
        && (beaconOf.value, ip) in history
      ensures forall d | d in old(devices) && d in devices
                && (token in old(sessions) ==> d != old(sessions)[token].device) && (token !in old(sessions) ==> beaconOf != Some(d)) ::
        devices[d] == old(devices)[d]
    {
      beaconOf := None;
      var pairResult := TryConfirmPairingSession(token, ip, now);
      if pairResult.Some? {
        return pairResult.value, None;
      }
      var device := FindDeviceByBeaconToken(token);
      beaconOf := device;
      if device.None? {
        return Err(NotFound), None;
      }
      RecordHeartbeat(device.value, ip, now);
      r := Ok(device.value);
    }
  }
}
