/** The policy engine: the rows it reads, the chain of branches, and the one-shot specification of that chain. */
module DnsPolicy {
  import opened Common
  import opened Rows
  import opened Text
  import opened SuffixIndex
  import opened Sessions

  datatype Category = GAMING | STREAMING | SOCIAL | ADULT | CUSTOM

  datatype BlockedDomain = BlockedDomain(domain: string, category: Option<Category>)

  datatype Db = Db(
    devices: seq<Device>, sessions: seq<Session>, blocked: seq<BlockedDomain>, categoryBlocks: map<(nat, Category), bool>)

  datatype Action = ALLOW | BLOCK
  datatype Reason =
    STRICT_MODE_DOH | INTERNET_LOCKED | MANUAL_BLOCK | TIME_LIMIT_EXCEEDED | CATEGORY_BLOCKED | DOMAIN_BLOCKED

  datatype Response = Response(action: Action, reason: Option<Reason>, category: Option<Category>)

  const ALLOW_RESPONSE := Response(ALLOW, None, None)

  function BlockResponse(reason: Reason): Response { Response(BLOCK, Some(reason), None) }

  // ---- The four queries. A query without an order returns the first row in table order.

  predicate HasIp(d: Device, ip: string) {
    d.ipAddress == Some(ip) || d.dnsSourceIp == Some(ip) || d.ipv6Address == Some(ip)
  }

  function FindDevice(devices: seq<Device>, ip: string): (r: Option<Device>)
    ensures r.Some? ==> r.value in devices && HasIp(r.value, ip)
    ensures r.None? ==> forall d | d in devices :: !HasIp(d, ip)
  {
    if devices == [] then None
    else if HasIp(devices[0], ip) then Some(devices[0])
    else FindDevice(devices[1..], ip)
  }

  predicate Live(s: Session, deviceId: nat) {
    s.deviceId == deviceId && (s.status == ACTIVE || s.status == PAUSED)
  }

  /** Latest-started ACTIVE or PAUSED session of the device. */
  function FindSession(sessions: seq<Session>, deviceId: nat): (r: Option<Session>)
    ensures r.Some? ==> r.value in sessions && Live(r.value, deviceId)
    ensures forall s | s in sessions && Live(s, deviceId) :: r.Some? && s.startedAt <= r.value.startedAt
  {
    if sessions == [] then None
    else
      var rest := FindSession(sessions[1..], deviceId);
      if Live(sessions[0], deviceId) && (rest.None? || rest.value.startedAt <= sessions[0].startedAt)
      then Some(sessions[0]) else rest
  }

  /** First row whose name is one of the query's suffixes. */
  function FindBlocked(rows: seq<BlockedDomain>, candidates: seq<string>): (r: Option<BlockedDomain>)
    ensures r.Some? ==> r.value in rows && r.value.domain in candidates
    ensures r.None? ==> forall b | b in rows :: b.domain !in candidates
  {
    if rows == [] then None
    else if rows[0].domain in candidates then Some(rows[0])
    else FindBlocked(rows[1..], candidates)
  }

  function FindBlockedDomain(rows: seq<BlockedDomain>, domain: string): Option<BlockedDomain> {
    FindBlocked(rows, Candidates(Normalise(domain)))
  }

  function CategoryActive(db: Db, childId: nat, category: Category): bool {
    (childId, category) in db.categoryBlocks && db.categoryBlocks[(childId, category)]
  }

  // ---- The chain, one awaited read at a time.

  /** One database state and one clock reading. */
  datatype Moment = Moment(now: nat, db: Db)

  /**
   * Where a check that missed the cache stands between two awaits. In every function below `strict`
   * is the list of DoH names in force: the hard-coded list in strict mode, else empty.
   */
  datatype Phase =
    | Start
    | HasDevice(device: Device)
    | HasSession(device: Device, session: Session)
    | PastSession(device: Device)
    | HasDomain(row: BlockedDomain, childId: nat)
    | Decided(response: Response)

  function AfterDevice(strict: seq<string>, domain: string, device: Option<Device>): Phase {
    if device.None? then Decided(ALLOW_RESPONSE)
    else if IsStrictDohDomain(strict, domain) then Decided(BlockResponse(STRICT_MODE_DOH))
    else if device.value.internetLocked then Decided(BlockResponse(INTERNET_LOCKED))
    else if device.value.status == BLOCKED then Decided(BlockResponse(MANUAL_BLOCK))
    else HasDevice(device.value)
  }

  function AfterSession(device: Device, session: Option<Session>): Phase {
    if session.None? then PastSession(device) else HasSession(device, session.value)
  }

  function AfterClock(device: Device, session: Session, now: int): Phase {
    if ResolverExpired(session, now) then Decided(BlockResponse(TIME_LIMIT_EXCEEDED)) else PastSession(device)
  }

  function AfterDomain(device: Device, row: Option<BlockedDomain>): Phase {
    if row.None? then Decided(ALLOW_RESPONSE)
    else if row.value.category.Some? && device.childId.Some? then HasDomain(row.value, device.childId.value)
    else Decided(BlockResponse(DOMAIN_BLOCKED))
  }

  function AfterCategory(row: BlockedDomain, active: bool): Phase {
    Decided(if active then Response(BLOCK, Some(CATEGORY_BLOCKED), row.category) else BlockResponse(DOMAIN_BLOCKED))
  }

  /** The next await of a check, made at moment `m`. */
  function NextPhase(strict: seq<string>, p: Phase, m: Moment, ip: string, domain: string): Phase {
    match p
    case Start => AfterDevice(strict, domain, FindDevice(m.db.devices, ip))
    case HasDevice(device) => AfterSession(device, FindSession(m.db.sessions, device.id))
    case HasSession(device, session) => AfterClock(device, session, m.now)
    case PastSession(device) => AfterDomain(device, FindBlockedDomain(m.db.blocked, domain))
    case HasDomain(row, childId) =>
      AfterCategory(row, row.category.Some? && CategoryActive(m.db, childId, row.category.value))
    case Decided(_) => p
  }

  /** What each read of a check saw. */
  datatype View = View(device: Moment, session: Moment, clock: Moment, domain: Moment, category: Moment)

  /** The answer of a check whose reads saw `v`. */
  function Answer(strict: seq<string>, v: View, ip: string, domain: string): Response {
    var p1 := NextPhase(strict, Start, v.device, ip, domain);
    var p2 := if p1.HasDevice? then NextPhase(strict, p1, v.session, ip, domain) else p1;
    var p3 := if p2.HasSession? then NextPhase(strict, p2, v.clock, ip, domain) else p2;
    var p4 := if p3.PastSession? then NextPhase(strict, p3, v.domain, ip, domain) else p3;
    var p5 := if p4.HasDomain? then NextPhase(strict, p4, v.category, ip, domain) else p4;
    p5.response
  }

  /** All reads from one database and one clock: the engine without a cache. */
  function Uncached(strict: seq<string>, db: Db, now: nat, ip: string, domain: string): Response {
    var m := Moment(now, db);
    Answer(strict, View(m, m, m, m, m), ip, domain)
  }

  // ---- What the engine means.

  predicate Listed(rows: seq<BlockedDomain>, domain: string) {
    exists b :: b in rows && Under(Normalise(domain), b.domain)
  }

  predicate TimeUp(db: Db, deviceId: nat, now: nat) {
    var s := FindSession(db.sessions, deviceId);
    s.Some? && ResolverExpired(s.value, now)
  }

  lemma LookupIsListed(rows: seq<BlockedDomain>, domain: string)
    ensures FindBlockedDomain(rows, domain).Some? <==> Listed(rows, domain)
  {
    var q := Normalise(domain);
    forall name {
      CandidatesAreTheNamesAbove(q, name);
    }
  }

  /** In the columns' own terms: a device answers for each of its three addresses, whichever the query comes from. */
  lemma FoundByAnyAddress(devices: seq<Device>, ip: string)
    ensures FindDevice(devices, ip).None?
       <==> forall d | d in devices :: d.ipAddress != Some(ip) && d.dnsSourceIp != Some(ip) && d.ipv6Address != Some(ip)
    ensures var r := FindDevice(devices, ip); r.Some? ==>
      r.value in devices && Some(ip) in [r.value.ipAddress, r.value.dnsSourceIp, r.value.ipv6Address]
  {
    var r := FindDevice(devices, ip);
    if r.Some? {
      var three := [r.value.ipAddress, r.value.dnsSourceIp, r.value.ipv6Address];
      assert three[0] == r.value.ipAddress && three[1] == r.value.dnsSourceIp && three[2] == r.value.ipv6Address;
    }
  }

  /** And a paused session counts as much as an active one; of several, the latest started. */
  lemma LatestLiveSessionDecides(sessions: seq<Session>, deviceId: nat)
    ensures var r := FindSession(sessions, deviceId);
      && (r.None? <==> forall s | s in sessions && s.deviceId == deviceId :: s.status != ACTIVE && s.status != PAUSED)
      && (r.Some? ==> r.value in sessions && r.value.deviceId == deviceId && r.value.status in {ACTIVE, PAUSED})
      && forall s | s in sessions && s.deviceId == deviceId && s.status in {ACTIVE, PAUSED} ::
           r.Some? && s.startedAt <= r.value.startedAt
  {
    assert forall s | s in sessions && s.deviceId == deviceId && s.status in {ACTIVE, PAUSED} :: Live(s, deviceId);
  }

  /** The step-by-step chain with its early exits blocks exactly when one of five conditions holds. */
  lemma UncachedBlocksExactlyWhen(strict: seq<string>, db: Db, now: nat, ip: string, domain: string)
    ensures Uncached(strict, db, now, ip, domain).action == BLOCK <==>
      var d := FindDevice(db.devices, ip);
      d.Some? && ((IsStrictDohDomain(strict, domain)) || d.value.internetLocked || d.value.status == BLOCKED
                  || TimeUp(db, d.value.id, now) || Listed(db.blocked, domain))
  {
    LookupIsListed(db.blocked, domain);
  }

  /** The precedence of the reasons: each is given exactly when its condition holds and none before it does. */
  lemma UncachedReasonPrecedence(strict: seq<string>, db: Db, now: nat, ip: string, domain: string)
    requires FindDevice(db.devices, ip).Some?
    ensures
      var key := (FindDevice(db.devices, ip).value.childId, FindBlockedDomain(db.blocked, domain));
      var active := key.0.Some? && key.1.Some? && key.1.value.category.Some?
        && (key.0.value, key.1.value.category.value) in db.categoryBlocks
        && db.categoryBlocks[(key.0.value, key.1.value.category.value)];
      var d := FindDevice(db.devices, ip).value;
      var doh := IsStrictDohDomain(strict, domain);
      var row := FindBlockedDomain(db.blocked, domain);
      var r := Uncached(strict, db, now, ip, domain).reason;
      && (r == Some(STRICT_MODE_DOH) <==> doh)
      && (r == Some(INTERNET_LOCKED) <==> d.internetLocked && !doh)
      && (r == Some(MANUAL_BLOCK) <==> d.status == BLOCKED && !doh && !d.internetLocked)
      && (r == Some(TIME_LIMIT_EXCEEDED) <==>
            TimeUp(db, d.id, now) && !doh && !d.internetLocked && d.status != BLOCKED)
      && (r == Some(CATEGORY_BLOCKED) <==>
            active && !doh && !d.internetLocked && d.status != BLOCKED && !TimeUp(db, d.id, now))
      && (r == Some(DOMAIN_BLOCKED) <==>
            row.Some? && !active && !doh && !d.internetLocked && d.status != BLOCKED && !TimeUp(db, d.id, now))
      && (r == None <==> row.None? && !doh && !d.internetLocked && d.status != BLOCKED && !TimeUp(db, d.id, now))
  {
    var d := FindDevice(db.devices, ip).value;
    var s := FindSession(db.sessions, d.id);
    var row := FindBlockedDomain(db.blocked, domain);
    if s.Some? && ResolverExpired(s.value, now) {
    } else if row.Some? {
    }
  }

  /** Whichever matching blocklist row the query returns, the action is the same. */
  lemma ActionIgnoresWhichRowMatched(strict: seq<string>, v: View, rows: seq<BlockedDomain>, ip: string, domain: string)
    requires multiset(rows) == multiset(v.domain.db.blocked)
    ensures Answer(strict, v.(domain := v.domain.(db := v.domain.db.(blocked := rows))), ip, domain).action
         == Answer(strict, v, ip, domain).action
  {
    LookupIsListed(rows, domain);
    LookupIsListed(v.domain.db.blocked, domain);
    forall b ensures b in rows <==> b in v.domain.db.blocked {
      assert b in multiset(rows) <==> b in multiset(v.domain.db.blocked);
    }
  }

  /**
   * Category blocks name the reason and nothing else: a listed name is blocked with or without one, an
   * unlisted name is never looked up. So setting any of them turns no ALLOW into a BLOCK.
   */
  lemma CategoryBlocksOnlyNameTheReason(
    strict: seq<string>, v: View, blocks: map<(nat, Category), bool>, ip: string, domain: string)
    ensures
      var r := Answer(strict, v, ip, domain);
      var t := Answer(strict, v.(category := v.category.(db := v.category.db.(categoryBlocks := blocks))), ip, domain);
      && t.action == r.action
      && (t != r ==> {t.reason, r.reason} == {Some(CATEGORY_BLOCKED), Some(DOMAIN_BLOCKED)})
  {
  }

  /** Adding blocklist rows adds exactly the blocks of the names now listed: it never turns a BLOCK into an ALLOW. */
  lemma GrowingTheListNeverUnblocks(strict: seq<string>, db: Db, more: seq<BlockedDomain>, now: nat, ip: string, domain: string)
    requires forall b | b in db.blocked :: b in more
    ensures Uncached(strict, db.(blocked := more), now, ip, domain).action == BLOCK <==>
      || Uncached(strict, db, now, ip, domain).action == BLOCK
      || (FindDevice(db.devices, ip).Some? && Listed(more, domain))
  {
    UncachedBlocksExactlyWhen(strict, db, now, ip, domain);
    UncachedBlocksExactlyWhen(strict, db.(blocked := more), now, ip, domain);
  }

  /** A blocked domain takes every subdomain with it, in any letter case, with or without a trailing dot. */
  lemma BlockingCoversSubdomains(rows: seq<BlockedDomain>, sub: string, domain: string)
    requires Listed(rows, domain)
    ensures Listed(rows, sub + "." + domain)
  {
    var b :| b in rows && Under(Normalise(domain), b.domain);
    UnderIsClosedUnderSubdomains(ToLower(sub), Normalise(domain), b.domain);
    var q := sub + "." + domain;
    assert ToLower(q) == ToLower(sub) + "." + ToLower(domain);
    assert Normalise(q) == ToLower(sub) + "." + Normalise(domain);
  }

  /** A device seen locked is answered BLOCK, whatever the other reads see. */
  lemma LockedIsBlocked(strict: seq<string>, v: View, ip: string, domain: string)
    requires var d := FindDevice(v.device.db.devices, ip); d.Some? && (d.value.internetLocked || d.value.status == BLOCKED)
    ensures Answer(strict, v, ip, domain).action == BLOCK
  {
  }
}
