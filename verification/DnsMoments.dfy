/** When a check's answer is the engine's at one moment, whatever is written between its reads. */
module DnsMoments {
  import opened Common
  import opened Rows
  import opened DnsPolicy
  import opened DnsTheorems
  import opened DnsWitness
  import Text
  import SuffixIndex

  /** The database differs from one moment to the next only at the moments in `writes`; clocks move forward. */
  predicate WrittenAt(hist: seq<Moment>, writes: set<nat>) {
    forall i | 0 < i < |hist| :: hist[i - 1].now <= hist[i].now && (i !in writes ==> hist[i].db == hist[i - 1].db)
  }

  /** No write falls after the device read and up to moment `last`. */
  predicate Undivided(r: ReadTimes, writes: set<nat>, last: nat) {
    forall w | w in writes :: w <= r.device || last < w
  }

  /** The answer on these reads is the uncached engine's at some moment of the history. */
  predicate OfOneMoment(strict: seq<string>, hist: seq<Moment>, r: ReadTimes, ip: string, domain: string)
    requires Within(r, 0, |hist|)
  {
    exists m | 0 <= m < |hist| ::
      Answer(strict, ViewOf(hist, r), ip, domain) == Uncached(strict, hist[m].db, hist[m].now, ip, domain)
  }

  /** ALLOW or BLOCK is. */
  predicate ActionOfOneMoment(strict: seq<string>, hist: seq<Moment>, r: ReadTimes, ip: string, domain: string)
    requires Within(r, 0, |hist|)
  {
    exists m | 0 <= m < |hist| ::
      Answer(strict, ViewOf(hist, r), ip, domain).action == Uncached(strict, hist[m].db, hist[m].now, ip, domain).action
  }

  // ---- No write in between.

  lemma {:induction false} SameUntil(hist: seq<Moment>, writes: set<nat>, a: nat, b: nat)
    requires WrittenAt(hist, writes) && a <= b < |hist| && forall w | w in writes :: w <= a || b < w
    ensures hist[a].db == hist[b].db
    decreases b - a
  {
    if a < b {
      SameUntil(hist, writes, a, b - 1);
      assert b !in writes;
    }
  }

  lemma UndividedIsOfOneMoment(
      strict: seq<string>, hist: seq<Moment>, r: ReadTimes, writes: set<nat>, ip: string, domain: string)
    requires Within(r, 0, |hist|) && InOrder(r) && WrittenAt(hist, writes) && Undivided(r, writes, r.category)
    ensures OfOneMoment(strict, hist, r, ip, domain)
  {
    SameUntil(hist, writes, r.device, r.session);
    SameUntil(hist, writes, r.device, r.clock);
    SameUntil(hist, writes, r.device, r.domain);
    SameUntil(hist, writes, r.device, r.category);
    UndisturbedIsUncached(strict, ViewOf(hist, r), ip, domain);
  }

  lemma UndividedActionIsOfOneMoment(
      strict: seq<string>, hist: seq<Moment>, r: ReadTimes, writes: set<nat>, ip: string, domain: string)
    requires Within(r, 0, |hist|) && InOrder(r) && WrittenAt(hist, writes) && Undivided(r, writes, r.domain)
    ensures ActionOfOneMoment(strict, hist, r, ip, domain)
  {
    SameUntil(hist, writes, r.device, r.session);
    SameUntil(hist, writes, r.device, r.clock);
    SameUntil(hist, writes, r.device, r.domain);
    var v, db := ViewOf(hist, r), hist[r.category].db;
    OtherCategoryRead(strict, v, hist[r.domain], ip, domain);
    UndisturbedIsUncached(strict, v.(category := hist[r.domain]), ip, domain);
  }

  /** Which moment the category was read at does not change the action. */
  lemma OtherCategoryRead(strict: seq<string>, v: View, m: Moment, ip: string, domain: string)
    ensures Answer(strict, v.(category := m), ip, domain).action == Answer(strict, v, ip, domain).action
  {
  }

  // ---- A write in between.

  function Divided(n: nat, w: nat, before: Db, after: Db): (hist: seq<Moment>)
    ensures |hist| == n && forall i | 0 <= i < n :: hist[i] == Moment(0, if i < w then before else after)
  {
    seq(n, i => Moment(0, if i < w then before else after))
  }

  lemma NameIsListed(rows: seq<BlockedDomain>, row: BlockedDomain)
    requires rows == [row] && row.domain == NAME
    ensures Listed(rows, NAME) && FindBlockedDomain(rows, NAME) == Some(row)
  {
    assert Text.Normalise(NAME) == NAME;
    assert SuffixIndex.Under(NAME, NAME) by { assert NAME[1] == '.'; }
    assert row in rows;
    LookupIsListed(rows, NAME);
  }

  /** Open and listed, then locked and unlisted: either says BLOCK. */
  lemma BothSidesBlock(m: Moment)
    requires m.db == OPEN_LISTED || m.db == LOCKED_UNLISTED
    ensures Uncached([], m.db, m.now, IP, NAME).action == BLOCK
  {
    NameIsListed([GAME], GAME);
    UncachedBlocksExactlyWhen([], m.db, m.now, IP, NAME);
  }

  /** A write after the device read and up to the list read: the device is read open, the list empty. */
  lemma DividedBeforeTheList(r: ReadTimes, n: nat, w: nat)
    requires InOrder(r) && r.category < n && r.device < w <= r.domain
    ensures !ActionOfOneMoment([], Divided(n, w, OPEN_LISTED, LOCKED_UNLISTED), r, IP, NAME)
  {
    var hist := Divided(n, w, OPEN_LISTED, LOCKED_UNLISTED);
    assert Answer([], ViewOf(hist, r), IP, NAME) == ALLOW_RESPONSE;
    forall m | 0 <= m < n ensures Uncached([], hist[m].db, hist[m].now, IP, NAME).action == BLOCK {
      BothSidesBlock(hist[m]);
    }
  }

  const CHILDS := FREE.(childId := Some(7))
  const PLAY := BlockedDomain(NAME, Some(GAMING))
  const OPEN_PLAY := Db([CHILDS], [], [PLAY], map[])
  const LOCKED_BLOCKED := Db([LockRow(CHILDS, None, 0)], [], [PLAY], map[(7, GAMING) := true])

  /** Open without the category block, then locked with it: neither gives the category as the reason. */
  lemma NoSideNamesTheCategory(m: Moment)
    requires m.db == OPEN_PLAY || m.db == LOCKED_BLOCKED
    ensures Uncached([], m.db, m.now, IP, NAME).reason != Some(CATEGORY_BLOCKED)
  {
    assert FindDevice(m.db.devices, IP) == Some(m.db.devices[0]);
    UncachedReasonPrecedence([], m.db, m.now, IP, NAME);
    NameIsListed([PLAY], PLAY);
    assert m.db == OPEN_PLAY ==> !CategoryActive(m.db, 7, GAMING);
  }

  lemma DeviceIsRead(m: Moment)
    requires m.db == OPEN_PLAY
    ensures NextPhase([], Start, m, IP, NAME) == HasDevice(CHILDS)
  {
  }

  lemma ListIsRead(m: Moment)
    requires m.db == OPEN_PLAY
    ensures NextPhase([], PastSession(CHILDS), m, IP, NAME) == HasDomain(PLAY, 7)
  {
    NameIsListed([PLAY], PLAY);
  }

  lemma CategoryIsRead(m: Moment)
    requires m.db == LOCKED_BLOCKED
    ensures NextPhase([], HasDomain(PLAY, 7), m, IP, NAME) == Decided(Response(BLOCK, Some(CATEGORY_BLOCKED), Some(GAMING)))
  {
  }

  /** The chain on four such reads, whatever they saw. */
  lemma FourReads(v: View, d: Device, row: BlockedDomain, childId: nat, response: Response)
    requires NextPhase([], Start, v.device, IP, NAME) == HasDevice(d) && v.session.db.sessions == []
    requires NextPhase([], PastSession(d), v.domain, IP, NAME) == HasDomain(row, childId)
    requires NextPhase([], HasDomain(row, childId), v.category, IP, NAME) == Decided(response)
    ensures Answer([], v, IP, NAME) == response
  {
  }

  /** A write after the list read and up to the category read: the device is read open, the category blocked. */
  lemma DividedAfterTheList(r: ReadTimes, n: nat, w: nat)
    requires InOrder(r) && r.category < n && r.domain < w <= r.category
    ensures !OfOneMoment([], Divided(n, w, OPEN_PLAY, LOCKED_BLOCKED), r, IP, NAME)
  {
    var hist := Divided(n, w, OPEN_PLAY, LOCKED_BLOCKED);
    DeviceIsRead(hist[r.device]);
    ListIsRead(hist[r.domain]);
    CategoryIsRead(hist[r.category]);
    FourReads(ViewOf(hist, r), CHILDS, PLAY, 7, Response(BLOCK, Some(CATEGORY_BLOCKED), Some(GAMING)));
    forall m | 0 <= m < n ensures Uncached([], hist[m].db, hist[m].now, IP, NAME).reason != Some(CATEGORY_BLOCKED) {
      NoSideNamesTheCategory(hist[m]);
    }
  }

  // ---- The exact condition.

  /** Every history of `n` moments, written only at `writes`, gives the answer of one of its moments. */
  ghost predicate AlwaysOfOneMoment(n: nat, r: ReadTimes, writes: set<nat>)
    requires InOrder(r) && r.category < n
  {
    forall strict, hist, ip, domain | |hist| == n && WrittenAt(hist, writes) :: OfOneMoment(strict, hist, r, ip, domain)
  }

  /** Gives the action of one of its moments. */
  ghost predicate AlwaysActionOfOneMoment(n: nat, r: ReadTimes, writes: set<nat>)
    requires InOrder(r) && r.category < n
  {
    forall strict, hist, ip, domain | |hist| == n && WrittenAt(hist, writes) :: ActionOfOneMoment(strict, hist, r, ip, domain)
  }

  lemma NotAlways(n: nat, r: ReadTimes, writes: set<nat>, hist: seq<Moment>)
    requires InOrder(r) && r.category < n && |hist| == n && WrittenAt(hist, writes)
    ensures !OfOneMoment([], hist, r, IP, NAME) ==> !AlwaysOfOneMoment(n, r, writes)
    ensures !ActionOfOneMoment([], hist, r, IP, NAME) ==> !AlwaysActionOfOneMoment(n, r, writes)
  {
  }

  lemma OneWrite(n: nat, w: nat, before: Db, after: Db, writes: set<nat>)
    requires w in writes
    ensures WrittenAt(Divided(n, w, before, after), writes)
  {
  }

  /** An answer of one moment has the action of one. */
  lemma ActionFollows(strict: seq<string>, hist: seq<Moment>, r: ReadTimes, ip: string, domain: string)
    requires Within(r, 0, |hist|) && OfOneMoment(strict, hist, r, ip, domain)
    ensures ActionOfOneMoment(strict, hist, r, ip, domain)
  {
  }

  /**
   * For reads at given moments of a history and writes at given others: the answer is the engine's at
   * one moment of the history, whatever is written, exactly when no write falls after the device read
   * and up to the category read.
   */
  lemma OfOneMomentExactlyWhenUndivided(n: nat, r: ReadTimes, writes: set<nat>)
    requires InOrder(r) && r.category < n
    ensures AlwaysOfOneMoment(n, r, writes) <==> Undivided(r, writes, r.category)
  {
    if Undivided(r, writes, r.category) {
      forall strict, hist, ip, domain | |hist| == n && WrittenAt(hist, writes)
        ensures OfOneMoment(strict, hist, r, ip, domain)
      {
        UndividedIsOfOneMoment(strict, hist, r, writes, ip, domain);
      }
    } else {
      var w :| w in writes && r.device < w <= r.category;
      DividedAnywhere(n, r, writes, w);
    }
  }

  lemma DividedAnywhere(n: nat, r: ReadTimes, writes: set<nat>, w: nat)
    requires InOrder(r) && r.category < n && w in writes && r.device < w <= r.category
    ensures !AlwaysOfOneMoment(n, r, writes)
    ensures w <= r.domain ==> !AlwaysActionOfOneMoment(n, r, writes)
  {
    if w <= r.domain {
      var hist := Divided(n, w, OPEN_LISTED, LOCKED_UNLISTED);
      OneWrite(n, w, OPEN_LISTED, LOCKED_UNLISTED, writes);
      DividedBeforeTheList(r, n, w);
      if OfOneMoment([], hist, r, IP, NAME) {
        ActionFollows([], hist, r, IP, NAME);
      }
      NotAlways(n, r, writes, hist);
    } else {
      OneWrite(n, w, OPEN_PLAY, LOCKED_BLOCKED, writes);
      DividedAfterTheList(r, n, w);
      NotAlways(n, r, writes, Divided(n, w, OPEN_PLAY, LOCKED_BLOCKED));
    }
  }

  /** ALLOW or BLOCK is that of one moment exactly when no write falls after the device read and up to the list read. */
  lemma ActionOfOneMomentExactlyWhenUndivided(n: nat, r: ReadTimes, writes: set<nat>)
    requires InOrder(r) && r.category < n
    ensures AlwaysActionOfOneMoment(n, r, writes) <==> Undivided(r, writes, r.domain)
  {
    if Undivided(r, writes, r.domain) {
      forall strict, hist, ip, domain | |hist| == n && WrittenAt(hist, writes)
        ensures ActionOfOneMoment(strict, hist, r, ip, domain)
      {
        UndividedActionIsOfOneMoment(strict, hist, r, writes, ip, domain);
      }
    } else {
      var w :| w in writes && r.device < w <= r.domain;
      DividedAnywhere(n, r, writes, w);
    }
  }
}
