/**
 * The services over the shared store: policy checks and version bumps on the text-keyed
 * cache, and the parent's operations that write a device row and then bump its IPs.
 * Requests run one at a time here; their interleaving is the subject of `DnsCache`.
 */
module DnsService {
  import opened Common
  import opened Rows
  import opened DnsPolicy
  import opened CacheKeys
  import opened Sessions
  import opened SuffixIndex
  import opened Text

  datatype Item =
    | Number(n: nat, expiry: nat)
    | Decision(response: Response, expiry: nat)
    | DeviceId(id: nat, expiry: nat)

  type Cache = map<string, Item>

  class Store {
    var now: nat
    var db: Db
    var cache: Cache
  }

  /** A live item; an expired one reads as missing. */
  function Get(cache: Cache, now: nat, key: string): Option<Item> {
    if key in cache && now < cache[key].expiry then Some(cache[key]) else None
  }

  function VersionIn(cache: Cache, now: nat, ip: string): nat {
    var v := Get(cache, now, VersionKey(ip));
    if v.Some? && v.value.Number? then v.value.n else 0
  }

  function Bumped(cache: Cache, now: nat, ip: string): Cache {
    cache[VersionKey(ip) := Number(VersionIn(cache, now, ip) + 1, now + VERSION_TTL)]
  }

  /** Bumps of a list of nullable IPs, in order; null and empty ones are skipped. */
  function BumpAll(cache: Cache, now: nat, ips: seq<Option<string>>): Cache {
    if ips == [] then cache
    else
      var rest := BumpAll(cache, now, ips[..|ips| - 1]);
      var ip := ips[|ips| - 1];
      if ip.None? || ip.value == "" then rest else Bumped(rest, now, ip.value)
  }

  lemma VersionKeyInjective(a: string, b: string)
    requires VersionKey(a) == VersionKey(b)
    ensures a == b
  {
    assert VersionKey(a)[7..] == a && VersionKey(b)[7..] == b;
  }

  function Occurrences(ips: seq<Option<string>>, ip: string): nat { multiset(ips)[Some(ip)] }

  /**
   * A list of bumps raises the version of each IP by exactly the number of times it is listed,
   * and leaves every other version and every decision alone.
   */
  lemma {:induction false} BumpAllCounts(cache: Cache, now: nat, ips: seq<Option<string>>, ip: string)
    requires ip != ""
    ensures VersionIn(BumpAll(cache, now, ips), now, ip) == VersionIn(cache, now, ip) + Occurrences(ips, ip)
    ensures forall key | key in cache && cache[key].Decision? && (forall x :: key != VersionKey(x)) ::
              key in BumpAll(cache, now, ips) && BumpAll(cache, now, ips)[key] == cache[key]
  {
    if ips != [] {
      var front, last := ips[..|ips| - 1], ips[|ips| - 1];
      BumpAllCounts(cache, now, front, ip);
      assert ips == front + [last];
      if last.Some? && last.value != "" && VersionKey(last.value) == VersionKey(ip) {
        VersionKeyInjective(last.value, ip);
      }
    }
  }

  datatype StoreView = StoreView(db: Db, cache: Cache)

  /** What a missed check writes: the device id of the IP, if there is a device, and the decision. */
  function Remember(cache: Cache, now: nat, device: Option<Device>, ip: string, key: string, r: Response): Cache {
    var withId := if device.Some? then cache[DeviceIdKey(ip) := DeviceId(device.value.id, now + DECISION_TTL)] else cache;
    withId[key := Decision(r, now + DECISION_TTL)]
  }

  /** The reply of one check, and the cache it leaves. */
  function Checked(strict: seq<string>, s: StoreView, now: nat, ip: string, domain: string): (Response, Cache) {
    var key := CacheKey(ip, VersionIn(s.cache, now, ip), domain);
    var hit := Get(s.cache, now, key);
    if hit.Some? && hit.value.Decision? then (hit.value.response, s.cache)
    else
      var r := Uncached(strict, s.db, now, ip, domain);
      (r, Remember(s.cache, now, FindDevice(s.db.devices, ip), ip, key, r))
  }

  class DnsPolicyService {
    const store: Store
    const strict: seq<string>

    constructor (store: Store, strict: seq<string>)
      ensures this.store == store && this.strict == strict
    {
      this.store := store;
      this.strict := strict;
    }

    /** Bumps the version of every given IP. */
    method InvalidateSourceIps(ips: seq<Option<string>>)
      modifies store`cache
      ensures store.cache == BumpAll(old(store.cache), store.now, ips)
    {
      for i := 0 to |ips|
        invariant store.cache == BumpAll(old(store.cache), store.now, ips[..i])
      {
        assert ips[..i + 1][..i] == ips[..i];
        if ips[i].None? || ips[i].value == "" {
          continue;
        }
        var ip := ips[i].value;
        var current := VersionIn(store.cache, store.now, ip);
        store.cache := store.cache[VersionKey(ip) := Number(current + 1, store.now + VERSION_TTL)];
      }
      assert ips[..|ips|] == ips;
    }

    /**
     * One check. A live decision under the current version is returned and changes nothing;
     * otherwise the answer is the uncached engine's, stored for 30 s under that version.
     */
    method CheckPolicy(ip: string, domain: string) returns (r: Response)
      modifies store`cache
      ensures (r, store.cache) == Checked(strict, StoreView(store.db, old(store.cache)), store.now, ip, domain)
    {
      var version := VersionIn(store.cache, store.now, ip);
      var key := CacheKey(ip, version, domain);
      var cached := Get(store.cache, store.now, key);
      if cached.Some? && cached.value.Decision? {
        return cached.value.response;
      }
      var device := FindDevice(store.db.devices, ip);
      if device.Some? {
        store.cache := store.cache[DeviceIdKey(ip) := DeviceId(device.value.id, store.now + DECISION_TTL)];
      }
      r := Decide(device, ip, domain);
      store.cache := store.cache[key := Decision(r, store.now + DECISION_TTL)];
    }

    /** The branches of the engine, in the order the code takes them. */
    method Decide(found: Option<Device>, ip: string, domain: string) returns (r: Response)
      requires found == FindDevice(store.db.devices, ip)
      ensures r == Uncached(strict, store.db, store.now, ip, domain)
    {
      if found.None? {
        return ALLOW_RESPONSE;
      }
      var device := found.value;
      if IsStrictDohDomain(strict, domain) {
        return BlockResponse(STRICT_MODE_DOH);
      }
      if device.internetLocked {
        return BlockResponse(INTERNET_LOCKED);
      }
      if device.status == BLOCKED {
        return BlockResponse(MANUAL_BLOCK);
      }
      var session := FindSession(store.db.sessions, device.id);
      if session.Some? && ResolverExpired(session.value, store.now) {
        return BlockResponse(TIME_LIMIT_EXCEEDED);
      }
      r := DecideByDomain(device, domain);
    }

    /** The lookup of the domain and of the category it is listed under. */
    method DecideByDomain(device: Device, domain: string) returns (r: Response)
      ensures
        var p := AfterDomain(device, FindBlockedDomain(store.db.blocked, domain));
        r == if p.HasDomain?
             then AfterCategory(p.row, p.row.category.Some? && CategoryActive(store.db, p.childId, p.row.category.value)).response
             else p.response
    {
      var candidates := BuildCandidates(Normalise(domain));
      var row := FindBlocked(store.db.blocked, candidates);
      if row.Some? {
        if row.value.category.Some? && device.childId.Some? {
          if CategoryActive(store.db, device.childId.value, row.value.category.value) {
            return Response(BLOCK, Some(CATEGORY_BLOCKED), row.value.category);
          }
        }
        return BlockResponse(DOMAIN_BLOCKED);
      }
      return ALLOW_RESPONSE;
    }
  }

  /** The IPs an operation on a device row invalidates. */
  function IpsOf(d: Device): seq<Option<string>> { [d.ipAddress, d.dnsSourceIp, d.ipv6Address] }

  /** The changes the parent's operations make to a device row. */
  datatype Change = Lock(reason: Option<string>, at: nat) | Unlock | SetStatus(status: DeviceStatus)

  function Changed(d: Device, c: Change): Device {
    match c
    case Lock(reason, at) => LockRow(d, reason, at)
    case Unlock => UnlockRow(d)
    case SetStatus(status) => d.(status := status)
  }

  /**
   * What an operation on one device row does: a missing row or a foreign owner changes nothing;
   * otherwise the row is written first and then each of its IPs is bumped.
   */
  function Operated(s: StoreView, now: nat, id: nat, parentId: Option<nat>, c: Change): (Result<Device>, StoreView) {
    var d := FindById(s.db.devices, id);
    if d.None? then (Err(NotFound), s)
    else if parentId.Some? && d.value.parentId != parentId.value then (Err(Forbidden), s)
    else
      var updated := Changed(d.value, c);
      (Ok(updated), StoreView(s.db.(devices := PutRow(s.db.devices, updated)), BumpAll(s.cache, now, IpsOf(updated))))
  }

  /**
   * The same for an operation that waits between its read and its write, while the store becomes
   * `meanwhile`: the columns are written over the row as it then is, if it still is there, and the IPs
   * bumped are those of the row as it was read.
   */
  function OperatedAcross(s: StoreView, meanwhile: StoreView, later: nat, id: nat, parentId: Option<nat>, c: Change)
    : (Result<Device>, StoreView)
  {
    var d := FindById(s.db.devices, id);
    if d.None? then (Err(NotFound), s)
    else if parentId.Some? && d.value.parentId != parentId.value then (Err(Forbidden), s)
    else
      var row := FindById(meanwhile.db.devices, id);
      if row.None? then (Err(NotFound), meanwhile)
      else
        var updated := Changed(row.value, c);
        (Ok(updated), StoreView(meanwhile.db.(devices := PutRow(meanwhile.db.devices, updated)),
                                BumpAll(meanwhile.cache, later, IpsOf(d.value))))
  }

  /** Whether a call comes past the ownership check. */
  predicate Admitted(s: StoreView, id: nat, parentId: Option<nat>) {
    var d := FindById(s.db.devices, id); d.Some? && (parentId.Some? ==> d.value.parentId == parentId.value)
  }

  /** With nothing in between the two are one. */
  lemma AcrossNothing(s: StoreView, now: nat, id: nat, parentId: Option<nat>, c: Change)
    ensures OperatedAcross(s, s, now, id, parentId, c) == Operated(s, now, id, parentId, c)
  {
    var d := FindById(s.db.devices, id);
    if d.Some? {
      assert IpsOf(Changed(d.value, c)) == IpsOf(d.value);
    }
  }

  /** An operation that waits supersedes the decisions of exactly the IPs its row had when it was read. */
  lemma SupersedesExactlyTheIpsRead(
      s: StoreView, meanwhile: StoreView, later: nat, id: nat, parentId: Option<nat>, c: Change, ip: string)
    requires OperatedAcross(s, meanwhile, later, id, parentId, c).0.Ok? && ip != ""
    ensures FindById(s.db.devices, id).Some?
    ensures VersionIn(OperatedAcross(s, meanwhile, later, id, parentId, c).1.cache, later, ip) > VersionIn(meanwhile.cache, later, ip)
       <==> Some(ip) in IpsOf(FindById(s.db.devices, id).value)
  {
    BumpAllCounts(meanwhile.cache, later, IpsOf(FindById(s.db.devices, id).value), ip);
  }

  // ---- What an operation does to the table, in the table's own terms.

  /** The rows with that id have become `row`; every other row and the other tables are as they were. */
  ghost predicate RowWritten(before: Db, after: Db, id: nat, row: Device) {
    && after == before.(devices := after.devices) && |after.devices| == |before.devices| && row.id == id
    && forall i | 0 <= i < |before.devices| ::
         after.devices[i] == if before.devices[i].id == id then row else before.devices[i]
  }

  lemma {:induction false} WrittenRowIsFound(before: seq<Device>, row: Device)
    requires FindById(before, row.id).Some?
    ensures FindById(PutRow(before, row), row.id) == Some(row)
  {
    assert PutRow(before, row)[1..] == PutRow(before[1..], row);
    if before[0].id != row.id {
      WrittenRowIsFound(before[1..], row);
    }
  }

  class DevicesService {
    const store: Store
    const dns: DnsPolicyService

    constructor (store: Store, dns: DnsPolicyService)
      ensures this.store == store && this.dns == dns
    {
      this.store := store;
      this.dns := dns;
    }

    /** Ownership is checked, the four lock fields are written, then every IP of the row is bumped. */
    method LockInternet(parentId: nat, id: nat, reason: Option<string>) returns (r: Result<Device>)
      requires dns.store == store
      modifies store`db, store`cache
      ensures (r, StoreView(store.db, store.cache))
           == Operated(old(StoreView(store.db, store.cache)), store.now, id, Some(parentId), Lock(reason, store.now))
      ensures
        var d := FindById(old(store.db.devices), id);
        if d.None? then r == Err(NotFound) && store.db == old(store.db) && store.cache == old(store.cache)
        else if d.value.parentId != parentId then r == Err(Forbidden) && store.db == old(store.db) && store.cache == old(store.cache)
        else
          && r == Ok(d.value.(
              blockingMode := FULL_INTERNET_LOCK, internetLocked := true, internetLockedAt := Some(store.now),
              internetLockedReason := if reason.Some? then reason else Some("Locked by parent")))
          && RowWritten(old(store.db), store.db, id, r.value)
    {
      var device := FindById(store.db.devices, id);
      if device.None? {
        return Err(NotFound);
      }
      if device.value.parentId != parentId {
        return Err(Forbidden);
      }
      var updated := device.value.(
        blockingMode := FULL_INTERNET_LOCK,
        internetLocked := true,
        internetLockedReason := if reason.Some? then reason else Some("Locked by parent"),
        internetLockedAt := Some(store.now));
      store.db := store.db.(devices := PutRow(store.db.devices, updated));
      dns.InvalidateSourceIps([updated.ipAddress, updated.dnsSourceIp, updated.ipv6Address]);
      r := Ok(updated);
    }

    method UnlockInternet(parentId: nat, id: nat) returns (r: Result<Device>)
      requires dns.store == store
      modifies store`db, store`cache
      ensures (r, StoreView(store.db, store.cache))
           == Operated(old(StoreView(store.db, store.cache)), store.now, id, Some(parentId), Unlock)
      ensures
        var d := FindById(old(store.db.devices), id);
        if d.None? then r == Err(NotFound) && store.db == old(store.db) && store.cache == old(store.cache)
        else if d.value.parentId != parentId then r == Err(Forbidden) && store.db == old(store.db) && store.cache == old(store.cache)
        else
          && r == Ok(d.value.(
              blockingMode := GAMING_ONLY, internetLocked := false, internetLockedAt := None, internetLockedReason := None))
          && RowWritten(old(store.db), store.db, id, r.value)
    {
      var device := FindById(store.db.devices, id);
      if device.None? {
        return Err(NotFound);
      }
      if device.value.parentId != parentId {
        return Err(Forbidden);
      }
      var updated := device.value.(
        blockingMode := GAMING_ONLY, internetLocked := false, internetLockedReason := None, internetLockedAt := None);
      store.db := store.db.(devices := PutRow(store.db.devices, updated));
      dns.InvalidateSourceIps([updated.ipAddress, updated.dnsSourceIp, updated.ipv6Address]);
      r := Ok(updated);
    }
  }

  class EnforcementService {
    const store: Store
    const dns: DnsPolicyService

    constructor (store: Store, dns: DnsPolicyService)
      ensures this.store == store && this.dns == dns
    {
      this.store := store;
      this.dns := dns;
    }

    /**
     * `success` is the adapter's verdict; `meanwhile` and `later` are the store and the time when it
     * comes. A failed adapter leaves them alone; a row deleted by then makes the write fail.
     */
    method BlockDevice(id: nat, parentId: Option<nat>, success: bool, meanwhile: StoreView, later: nat)
      returns (r: Result<bool>)
      requires dns.store == store
      modifies store
      ensures var before := old(StoreView(store.db, store.cache));
        var op := OperatedAcross(before, meanwhile, later, id, parentId, SetStatus(BLOCKED));
        if Admitted(before, id, parentId) && !success then r == Ok(false) && StoreView(store.db, store.cache) == meanwhile
        else (if op.0.Ok? then r == Ok(true) else r == Err(op.0.error)) && StoreView(store.db, store.cache) == op.1
      ensures
        var d, row := FindById(old(store.db.devices), id), FindById(meanwhile.db.devices, id);
        if d.None? then r == Err(NotFound) && store.db == old(store.db) && store.cache == old(store.cache)
        else if parentId.Some? && d.value.parentId != parentId.value
        then r == Err(Forbidden) && store.db == old(store.db) && store.cache == old(store.cache)
        else if !success then r == Ok(false) && store.db == meanwhile.db && store.cache == meanwhile.cache
        else if row.None? then r == Err(NotFound) && store.db == meanwhile.db && store.cache == meanwhile.cache
        else
          && r == Ok(true)
          && RowWritten(meanwhile.db, store.db, id, row.value.(status := BLOCKED))
          && FindById(store.db.devices, id) == Some(row.value.(status := BLOCKED))
    {
      var device := FindById(store.db.devices, id);
      if device.None? {
        return Err(NotFound);
      }
      if parentId.Some? && device.value.parentId != parentId.value {
        return Err(Forbidden);
      }
      store.now, store.db, store.cache := later, meanwhile.db, meanwhile.cache;
      if success {
        var row := FindById(store.db.devices, id);
        if row.None? {
          return Err(NotFound);
        }
        store.db := store.db.(devices := PutRow(store.db.devices, row.value.(status := BLOCKED)));
        WrittenRowIsFound(meanwhile.db.devices, row.value.(status := BLOCKED));
        dns.InvalidateSourceIps([device.value.ipAddress, device.value.dnsSourceIp, device.value.ipv6Address]);
      }
      r := Ok(success);
    }

    method UnblockDevice(id: nat, parentId: Option<nat>, success: bool, meanwhile: StoreView, later: nat)
      returns (r: Result<bool>)
      requires dns.store == store
      modifies store
      ensures var before := old(StoreView(store.db, store.cache));
        var op := OperatedAcross(before, meanwhile, later, id, parentId, SetStatus(ONLINE));
        if Admitted(before, id, parentId) && !success then r == Ok(false) && StoreView(store.db, store.cache) == meanwhile
        else (if op.0.Ok? then r == Ok(true) else r == Err(op.0.error)) && StoreView(store.db, store.cache) == op.1
      ensures
        var d, row := FindById(old(store.db.devices), id), FindById(meanwhile.db.devices, id);
        if d.None? then r == Err(NotFound) && store.db == old(store.db) && store.cache == old(store.cache)
        else if parentId.Some? && d.value.parentId != parentId.value
        then r == Err(Forbidden) && store.db == old(store.db) && store.cache == old(store.cache)
        else if !success then r == Ok(false) && store.db == meanwhile.db && store.cache == meanwhile.cache
        else if row.None? then r == Err(NotFound) && store.db == meanwhile.db && store.cache == meanwhile.cache
        else
          && r == Ok(true)
          && RowWritten(meanwhile.db, store.db, id, row.value.(status := ONLINE))
          && FindById(store.db.devices, id) == Some(row.value.(status := ONLINE))
    {
      var device := FindById(store.db.devices, id);
      if device.None? {
        return Err(NotFound);
      }
      if parentId.Some? && device.value.parentId != parentId.value {
        return Err(Forbidden);
      }
      store.now, store.db, store.cache := later, meanwhile.db, meanwhile.cache;
      if success {
        var row := FindById(store.db.devices, id);
        if row.None? {
          return Err(NotFound);
        }
        store.db := store.db.(devices := PutRow(store.db.devices, row.value.(status := ONLINE)));
        WrittenRowIsFound(meanwhile.db.devices, row.value.(status := ONLINE));
        dns.InvalidateSourceIps([device.value.ipAddress, device.value.dnsSourceIp, device.value.ipv6Address]);
      }
      r := Ok(success);
    }

    /**
     * A time-limit violation goes through the same block path; only a device that supports no
     * offline control and sits behind no gateway is left alone.
     */
    method HandleOfflineViolation(device: Device, offlineUnsupported: bool, success: bool, meanwhile: StoreView, later: nat)
      returns (r: Result<bool>)
      requires dns.store == store
      modifies store
      ensures var before := old(StoreView(store.db, store.cache));
        var op := OperatedAcross(before, meanwhile, later, device.id, None, SetStatus(BLOCKED));
        var blocks := !offlineUnsupported || device.gatewayId.Some?;
        if !blocks then r == Ok(true) && StoreView(store.db, store.cache) == before
        else if Admitted(before, device.id, None) && !success
        then r == Ok(offlineUnsupported) && StoreView(store.db, store.cache) == meanwhile
        else (if op.0.Ok? then r == Ok(true) else r == Err(op.0.error)) && StoreView(store.db, store.cache) == op.1
      ensures
        var d, row := FindById(old(store.db.devices), device.id), FindById(meanwhile.db.devices, device.id);
        if offlineUnsupported && device.gatewayId.None? then r == Ok(true) && store.db == old(store.db)
        else if d.None? then r == Err(NotFound) && store.db == old(store.db)
        else if !success then r == Ok(offlineUnsupported) && store.db == meanwhile.db
        else if row.None? then r == Err(NotFound) && store.db == meanwhile.db
        else r == Ok(true) && RowWritten(meanwhile.db, store.db, device.id, row.value.(status := BLOCKED))
    {
      if offlineUnsupported {
        if device.gatewayId.Some? {
          var blocked := BlockDevice(device.id, None, success, meanwhile, later);
          if blocked.Err? {
            return blocked;
          }
        }
        return Ok(true);
      }
      r := BlockDevice(device.id, None, success, meanwhile, later);
    }
  }

  /** A successful operation raises the version of each of the row's IPs, so decisions cached before are orphaned. */
  lemma OperationSupersedes(s: StoreView, now: nat, id: nat, parentId: Option<nat>, c: Change, ip: string)
    requires Operated(s, now, id, parentId, c).0.Ok?
    requires ip != "" && Some(ip) in IpsOf(Operated(s, now, id, parentId, c).0.value)
    ensures VersionIn(Operated(s, now, id, parentId, c).1.cache, now, ip) > VersionIn(s.cache, now, ip)
  {
    BumpAllCounts(s.cache, now, IpsOf(Operated(s, now, id, parentId, c).0.value), ip);
  }

  /** After a lock, whichever of its IPs the resolver finds the device by, the engine blocks it. */
  lemma LockedRowIsBlocked(
      strict: seq<string>, s: StoreView, now: nat, d: Device, parentId: Option<nat>, c: Change, ip: string, domain: string)
    requires FindById(s.db.devices, d.id) == Some(d) && FindDevice(s.db.devices, ip) == Some(d)
    requires forall a | a in s.db.devices && a.id == d.id :: a == d
    requires c.Lock? || c == SetStatus(BLOCKED)
    requires Operated(s, now, d.id, parentId, c).0.Ok?
    ensures Uncached(strict, Operated(s, now, d.id, parentId, c).1.db, now, ip, domain).action == BLOCK
  {
    FindAfterPut(s.db.devices, d, Changed(d, c), ip);
  }

  /**
   * The mirror: after an unlock the lock is not the reason any more, after ONLINE is written the manual
   * block is not, and a device free of both answers as strict mode, time and lists alone decide.
   */
  lemma LiftedRowIsFree(
      strict: seq<string>, s: StoreView, now: nat, d: Device, parentId: Option<nat>, c: Change, ip: string, domain: string)
    requires FindById(s.db.devices, d.id) == Some(d) && FindDevice(s.db.devices, ip) == Some(d)
    requires forall a | a in s.db.devices && a.id == d.id :: a == d
    requires c.Unlock? || c == SetStatus(ONLINE)
    requires Operated(s, now, d.id, parentId, c).0.Ok?
    ensures var db := Operated(s, now, d.id, parentId, c).1.db; var r := Uncached(strict, db, now, ip, domain);
      && (c.Unlock? ==> r.reason != Some(INTERNET_LOCKED) && (r.reason == Some(MANUAL_BLOCK) ==> d.status == BLOCKED))
      && (c.SetStatus? ==> r.reason != Some(MANUAL_BLOCK) && (r.reason == Some(INTERNET_LOCKED) ==> d.internetLocked))
      && (r.action == BLOCK && (if c.Unlock? then d.status != BLOCKED else !d.internetLocked) ==>
            IsStrictDohDomain(strict, domain) || TimeUp(db, d.id, now) || Listed(db.blocked, domain))
  {
    var db := Operated(s, now, d.id, parentId, c).1.db;
    FindAfterPut(s.db.devices, d, Changed(d, c), ip);
    UncachedReasonPrecedence(strict, db, now, ip, domain);
    UncachedBlocksExactlyWhen(strict, db, now, ip, domain);
  }

  lemma {:induction false} FindAfterPut(devices: seq<Device>, d: Device, row: Device, ip: string)
    requires row.id == d.id && IpsOf(row) == IpsOf(d)
    requires forall a | a in devices && a.id == d.id :: a == d
    requires FindDevice(devices, ip) == Some(d)
    ensures FindDevice(PutRow(devices, row), ip) == Some(row)
  {
    assert IpsOf(row)[0] == IpsOf(d)[0] && IpsOf(row)[1] == IpsOf(d)[1] && IpsOf(row)[2] == IpsOf(d)[2];
    assert PutRow(devices, row)[1..] == PutRow(devices[1..], row);
    if !HasIp(devices[0], ip) {
      FindAfterPut(devices[1..], d, row, ip);
    }
  }
}
