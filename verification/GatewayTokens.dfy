/**
 * Gateway token rotation: many gateways, each with a current token and a previous one that
 * still authenticates during a grace period, and the agents that pick the new token up from
 * a policy poll. A rotation is a read and a later write; a poll is an authentication and a
 * later fetch; all of them interleave.
 */
module GatewayTokens {
  import opened Common

  type Token = nat   // a UUID: never generated twice

  datatype Gateway = Gateway(
    parentId: nat, token: Token, previousToken: Option<Token>, previousTokenExpiresAt: nat, paired: bool, lastSeen: Option<nat>)

  /** A rotation between its read and its write. */
  datatype Rotation = Rotation(gid: nat, found: Token, next: Token, expiresAt: nat)

  /** A poll that has authenticated; `overtaken`: a rotation was written since. */
  datatype Polling = Polling(usedPrevious: bool, overtaken: bool)

  /** The agent of a gateway; `polled`: it completed a poll since the last rotation. */
  datatype Agent = Agent(token: Token, poll: Option<Polling>, polled: bool)

  /**
   * `owner`, `installed` and `rejected` are history: whom a token was generated for, the tokens
   * ever current, and the gateways whose agent was ever refused. No step branches on them.
   */
  datatype State = State(
    now: nat, nextToken: Token, gateways: map<nat, Gateway>, rotations: map<nat, Rotation>, agents: map<nat, Agent>,
    owner: map<Token, nat>, installed: set<Token>, rejected: set<nat>)

  datatype Event =
    | Tick(to: nat)
    | Register(gid: nat, parentId: nat)
    | RotateRead(id: nat, gid: nat, parentId: nat, gracePeriodMs: nat)
    | RotateWrite(id: nat)
    | Delete(gid: nat)
    | PollAuth(gid: nat)
    | PollFetch(gid: nat)

  function Init(now: nat): State { State(now, 0, map[], map[], map[], map[], {}, {}) }

  predicate IsCurrent(gateways: map<nat, Gateway>, t: Token) {
    exists g :: g in gateways && gateways[g].token == t
  }

  /** The guard: a lookup by current token, then the grace-period fallback, then the paired flag. */
  predicate Accepts(s: State, g: nat, t: Token) {
    && g in s.gateways && s.gateways[g].paired
    && (s.gateways[g].token == t
        || (!IsCurrent(s.gateways, t) && s.gateways[g].previousToken == Some(t) && s.now < s.gateways[g].previousTokenExpiresAt))
  }

  predicate Enabled(s: State, e: Event) {
    match e
    case Tick(to) => s.now <= to
    case Register(g, _) => g !in s.gateways
    case RotateRead(p, g, parentId, _) => p !in s.rotations && g in s.gateways && s.gateways[g].parentId == parentId
    case RotateWrite(p) => p in s.rotations && s.rotations[p].gid in s.gateways
    case Delete(g) => g in s.gateways
    case PollAuth(g) => g in s.agents && g in s.gateways && s.agents[g].poll.None?
    case PollFetch(g) => g in s.agents && g in s.gateways && s.agents[g].poll.Some?
  }

  function Rotated(g: Gateway, r: Rotation): Gateway {
    g.(token := r.next, previousToken := Some(r.found), previousTokenExpiresAt := r.expiresAt)
  }

  function Overtake(a: Agent): Agent {
    a.(polled := false, poll := if a.poll.Some? then Some(a.poll.value.(overtaken := true)) else None)
  }

  /** The agent adopts `rotatedToken`, present exactly when the poll used the previous token. */
  function Adopt(a: Agent, g: Gateway): Agent
    requires a.poll.Some?
  {
    Agent(if a.poll.value.usedPrevious then g.token else a.token, None, a.polled || !a.poll.value.overtaken)
  }

  function Apply(s: State, e: Event): State
    requires Enabled(s, e)
  {
    match e
    case Tick(to) => s.(now := to)
    case Register(g, parentId) =>
      var t := s.nextToken;
      s.(nextToken := t + 1, gateways := s.gateways[g := Gateway(parentId, t, None, 0, true, None)],
         agents := s.agents[g := Agent(t, None, true)], owner := s.owner[t := g], installed := s.installed + {t})
    case RotateRead(p, g, _, gracePeriodMs) =>
      var t := s.nextToken;
      s.(nextToken := t + 1, owner := s.owner[t := g],
         rotations := s.rotations[p := Rotation(g, s.gateways[g].token, t, s.now + gracePeriodMs)])
    case RotateWrite(p) =>
      var r := s.rotations[p];
      s.(rotations := s.rotations - {p}, gateways := s.gateways[r.gid := Rotated(s.gateways[r.gid], r)],
         agents := if r.gid in s.agents then s.agents[r.gid := Overtake(s.agents[r.gid])] else s.agents,
         installed := s.installed + {r.next})
    case Delete(g) => s.(gateways := s.gateways - {g}, agents := s.agents - {g})
    case PollAuth(g) =>
      var a := s.agents[g];
      if Accepts(s, g, a.token)
      then s.(agents := s.agents[g := a.(poll := Some(Polling(s.gateways[g].token != a.token, false)))])
      else s.(rejected := s.rejected + {g})
    case PollFetch(g) =>
      s.(agents := s.agents[g := Adopt(s.agents[g], s.gateways[g])],
         gateways := s.gateways[g := s.gateways[g].(lastSeen := Some(s.now))])
  }

  predicate Runs(s: State, es: seq<Event>)
    decreases |es|
  {
    es == [] || (Enabled(s, es[0]) && Runs(Apply(s, es[0]), es[1..]))
  }

  function Run(s: State, es: seq<Event>): State
    requires Runs(s, es)
    decreases |es|
  {
    if es == [] then s else Run(Apply(s, es[0]), es[1..])
  }

  // ---- Every interleaving.

  predicate OwnedBy(s: State, t: Token, g: nat) { t in s.owner && s.owner[t] == g && t < s.nextToken }

  predicate GatewayOk(s: State, g: nat)
    requires g in s.gateways
  {
    var row := s.gateways[g];
    && row.paired
    && OwnedBy(s, row.token, g) && row.token in s.installed
    && (row.previousToken.Some? ==> OwnedBy(s, row.previousToken.value, g) && row.previousToken.value in s.installed
                                    && row.previousToken.value != row.token)
  }

  predicate RotationOk(s: State, p: nat)
    requires p in s.rotations
  {
    var r := s.rotations[p];
    && OwnedBy(s, r.found, r.gid) && r.found in s.installed
    && OwnedBy(s, r.next, r.gid) && r.next !in s.installed
  }

  predicate Inv(s: State) {
    && (forall t | t in s.installed :: t < s.nextToken)
    && (forall t | t in s.owner :: t < s.nextToken)
    && (forall g | g in s.gateways :: GatewayOk(s, g))
    && (forall p | p in s.rotations :: RotationOk(s, p))
    && (forall p, q | p in s.rotations && q in s.rotations && p != q :: s.rotations[p].next != s.rotations[q].next)
    && (forall g | g in s.agents :: OwnedBy(s, s.agents[g].token, g))
  }

  lemma GatewaysStayOk(s: State, e: Event, g: nat)
    requires Inv(s) && Enabled(s, e) && g in Apply(s, e).gateways
    ensures GatewayOk(Apply(s, e), g)
  {
    assert g in s.gateways ==> GatewayOk(s, g);
    if e.RotateWrite? {
      assert RotationOk(s, e.id);
    }
  }

  lemma RotationsStayOk(s: State, e: Event, p: nat)
    requires Inv(s) && Enabled(s, e) && p in Apply(s, e).rotations
    ensures RotationOk(Apply(s, e), p)
  {
    assert p in s.rotations ==> RotationOk(s, p);
    if e.RotateRead? {
      assert GatewayOk(s, e.gid);
    }
  }

  lemma RotationsStayApart(s: State, e: Event, p: nat, q: nat)
    requires Inv(s) && Enabled(s, e) && p != q && p in Apply(s, e).rotations && q in Apply(s, e).rotations
    ensures Apply(s, e).rotations[p].next != Apply(s, e).rotations[q].next
  {
    assert p in s.rotations ==> RotationOk(s, p);
    assert q in s.rotations ==> RotationOk(s, q);
  }

  lemma {:induction false} InvPreserved(s: State, e: Event)
    requires Inv(s) && Enabled(s, e)
    ensures Inv(Apply(s, e))
  {
    var t := Apply(s, e);
    forall g | g in t.gateways ensures GatewayOk(t, g) {
      GatewaysStayOk(s, e, g);
    }
    forall p | p in t.rotations ensures RotationOk(t, p) {
      RotationsStayOk(s, e, p);
    }
    forall p, q | p in t.rotations && q in t.rotations && p != q ensures t.rotations[p].next != t.rotations[q].next {
      RotationsStayApart(s, e, p, q);
    }
    AgentsKeepTheirTokens(s, e);
  }

  lemma AgentsKeepTheirTokens(s: State, e: Event)
    requires Inv(s) && Enabled(s, e)
    ensures forall g | g in Apply(s, e).agents :: OwnedBy(Apply(s, e), Apply(s, e).agents[g].token, g)
  {
    if e.PollFetch? {
      assert GatewayOk(s, e.gid);
    }
  }

  lemma {:induction false} InvAlways(s: State, es: seq<Event>)
    requires Inv(s) && Runs(s, es)
    ensures Inv(Run(s, es))
    decreases |es|
  {
    if es != [] {
      InvPreserved(s, es[0]);
      InvAlways(Apply(s, es[0]), es[1..]);
    }
  }

  /** In every run a token identifies at most one gateway, and a gateway accepts at most two tokens. */
  lemma TokensIdentifyGateways(now: nat, es: seq<Event>)
    requires Runs(Init(now), es)
    ensures var s := Run(Init(now), es);
      && (forall g, h, t | Accepts(s, g, t) && Accepts(s, h, t) :: g == h)
      && (forall g, t, u, v | Accepts(s, g, t) && Accepts(s, g, u) && Accepts(s, g, v) :: t == u || u == v || t == v)
  {
    InvAlways(Init(now), es);
    var s := Run(Init(now), es);
    forall g, h, t | Accepts(s, g, t) && Accepts(s, h, t) ensures g == h {
      assert GatewayOk(s, g) && GatewayOk(s, h);
    }
  }

  // ---- Rotations of one gateway do not overlap.

  /** The row still holds the token the rotation read: no other rotation was written in between. */
  predicate Serial(s: State, e: Event)
    requires Enabled(s, e)
  {
    e.RotateWrite? ==> s.gateways[s.rotations[e.id].gid].token == s.rotations[e.id].found
  }

  predicate SerialRun(s: State, es: seq<Event>)
    requires Runs(s, es)
    decreases |es|
  {
    es == [] || (Serial(s, es[0]) && SerialRun(Apply(s, es[0]), es[1..]))
  }

  /** A token that was once some gateway's own and authenticates nowhere now. */
  predicate Retired(s: State, t: Token) {
    t in s.installed && forall g | g in s.gateways :: !Accepts(s, g, t)
  }

  lemma NotCurrent(s: State, t: Token)
    requires Inv(s) && Retired(s, t)
    ensures !IsCurrent(s.gateways, t)
  {
    forall g | g in s.gateways ensures s.gateways[g].token != t {
      assert GatewayOk(s, g) && !Accepts(s, g, t);
    }
  }

  /** A rotation that read `t` as current writes it back as the previous token, in time for its grace period. */
  predicate Revives(s: State, e: Event, t: Token) {
    e.RotateWrite? && Enabled(s, e) && s.rotations[e.id].found == t && s.now < s.rotations[e.id].expiresAt
  }

  /** The exact step that brings a retired token back. */
  lemma RevivedExactlyByStaleRotation(s: State, e: Event, t: Token)
    requires Inv(s) && Enabled(s, e) && Retired(s, t)
    ensures Retired(Apply(s, e), t) <==> !Revives(s, e, t)
  {
    NotCurrent(s, t);
    if Revives(s, e, t) {
      RevivedIsAccepted(s, e.id, t);
    } else {
      forall g | g in Apply(s, e).gateways ensures !Accepts(Apply(s, e), g, t) {
        StaysRefused(s, e, t, g);
      }
    }
  }

  lemma StaysRefused(s: State, e: Event, t: Token, g: nat)
    requires Inv(s) && Enabled(s, e) && Retired(s, t) && !IsCurrent(s.gateways, t) && !Revives(s, e, t)
    requires g in Apply(s, e).gateways
    ensures !Accepts(Apply(s, e), g, t)
  {
    if g in s.gateways {
      assert GatewayOk(s, g) && !Accepts(s, g, t);
    }
    if e.RotateWrite? {
      assert RotationOk(s, e.id);
    }
  }

  lemma RevivedIsAccepted(s: State, p: nat, t: Token)
    requires Inv(s) && !IsCurrent(s.gateways, t) && Revives(s, RotateWrite(p), t) && t in s.installed
    ensures Accepts(Apply(s, RotateWrite(p)), s.rotations[p].gid, t)
  {
    assert RotationOk(s, p) && GatewayOk(s, s.rotations[p].gid);
    assert forall h | h in s.gateways :: s.gateways[h].token != t;
  }

  predicate RetiredThroughout(s: State, es: seq<Event>, t: Token)
    requires Runs(s, es)
    decreases |es|
  {
    Retired(s, t) && (es == [] || RetiredThroughout(Apply(s, es[0]), es[1..], t))
  }

  predicate NoneRevives(s: State, es: seq<Event>, t: Token)
    requires Runs(s, es)
    decreases |es|
  {
    es == [] || (!Revives(s, es[0], t) && NoneRevives(Apply(s, es[0]), es[1..], t))
  }

  /** A retired token never authenticates in a run exactly when no such rotation is written in it. */
  lemma {:induction false} RetiredExactlyWhenNoneRevives(s: State, es: seq<Event>, t: Token)
    requires Inv(s) && Runs(s, es) && Retired(s, t)
    ensures RetiredThroughout(s, es, t) <==> NoneRevives(s, es, t)
    decreases |es|
  {
    if es != [] {
      InvPreserved(s, es[0]);
      RevivedExactlyByStaleRotation(s, es[0], t);
      if !Revives(s, es[0], t) {
        RetiredExactlyWhenNoneRevives(Apply(s, es[0]), es[1..], t);
      }
    }
  }

  /** A rule a caller can keep: rotations of one gateway do not overlap. */
  lemma {:induction false} RetiredForGood(s: State, es: seq<Event>, t: Token)
    requires Inv(s) && Runs(s, es) && SerialRun(s, es) && Retired(s, t)
    ensures RetiredThroughout(s, es, t)
    decreases |es|
  {
    if es != [] {
      InvPreserved(s, es[0]);
      NotCurrent(s, t);
      RevivedExactlyByStaleRotation(s, es[0], t);
      RetiredForGood(Apply(s, es[0]), es[1..], t);
    }
  }

  /** What retires a token: a second rotation, unless that very rotation read it as current and is still in time. */
  lemma SecondRotationRetires(s: State, p: nat, t: Token)
    requires Inv(s) && Enabled(s, RotateWrite(p))
    requires s.gateways[s.rotations[p].gid].previousToken == Some(t)
    ensures Retired(Apply(s, RotateWrite(p)), t) <==> !Revives(s, RotateWrite(p), t)
  {
    var u := Apply(s, RotateWrite(p));
    var g := s.rotations[p].gid;
    assert GatewayOk(s, g) && RotationOk(s, p);
    PreviousIsNotCurrent(s, g, t);
    if Revives(s, RotateWrite(p), t) {
      RevivedIsAccepted(s, p, t);
    } else {
      forall h | h in u.gateways ensures !Accepts(u, h, t) {
        assert h in s.gateways ==> GatewayOk(s, h);
      }
    }
  }

  lemma PreviousIsNotCurrent(s: State, g: nat, t: Token)
    requires Inv(s) && g in s.gateways && s.gateways[g].previousToken == Some(t)
    ensures !IsCurrent(s.gateways, t)
  {
    forall h | h in s.gateways ensures s.gateways[h].token != t {
      assert GatewayOk(s, g) && GatewayOk(s, h);
    }
  }

  /** Or the end of its grace period. */
  lemma ExpiryRetires(s: State, g: nat, t: Token, to: nat)
    requires Inv(s) && g in s.gateways && s.gateways[g].previousToken == Some(t)
    requires s.now <= to && s.gateways[g].previousTokenExpiresAt <= to
    ensures Retired(Apply(s, Tick(to)), t)
  {
    assert GatewayOk(s, g);
    forall h | h in s.gateways ensures !Accepts(Apply(s, Tick(to)), h, t) {
      assert GatewayOk(s, h);
    }
  }

  /** A rotation that read the token it replaces, and is written within its own grace period. */
  predicate RotatesInTime(s: State, e: Event)
    requires Enabled(s, e)
  {
    e.RotateWrite? ==> Serial(s, e) && s.now < s.rotations[e.id].expiresAt
  }

  /** Every gateway's current token still authenticates after the step. */
  predicate CurrentKept(s: State, e: Event)
    requires Enabled(s, e)
  {
    forall g | g in s.gateways && g in Apply(s, e).gateways :: Accepts(Apply(s, e), g, s.gateways[g].token)
  }

  /** The exact step that locks out a current token: the write of a rotation that had not found it, or is too late. */
  lemma CurrentLostExactlyByRotation(s: State, e: Event)
    requires Inv(s) && Enabled(s, e)
    ensures CurrentKept(s, e) <==> RotatesInTime(s, e)
  {
    var t := Apply(s, e);
    forall g | g in s.gateways && g in t.gateways && (RotatesInTime(s, e) || (e.RotateWrite? && s.rotations[e.id].gid != g))
      ensures Accepts(t, g, s.gateways[g].token)
    {
      OthersKeepTheirToken(s, e, g);
    }
    if !RotatesInTime(s, e) {
      assert RotationOk(s, e.id) && GatewayOk(s, s.rotations[e.id].gid);
      assert !Accepts(t, s.rotations[e.id].gid, s.gateways[s.rotations[e.id].gid].token);
    }
  }

  lemma OthersKeepTheirToken(s: State, e: Event, g: nat)
    requires Inv(s) && Enabled(s, e) && g in s.gateways && g in Apply(s, e).gateways
    requires RotatesInTime(s, e) || s.rotations[e.id].gid != g
    ensures Accepts(Apply(s, e), g, s.gateways[g].token)
  {
    var t, token := Apply(s, e), s.gateways[g].token;
    assert GatewayOk(s, g);
    if e.RotateWrite? && s.rotations[e.id].gid == g {
      assert RotationOk(s, e.id);
      forall h | h in t.gateways ensures t.gateways[h].token != token {
        assert GatewayOk(s, h);
      }
    }
  }

  predicate CurrentKeptThroughout(s: State, es: seq<Event>)
    requires Runs(s, es)
    decreases |es|
  {
    es == [] || (CurrentKept(s, es[0]) && CurrentKeptThroughout(Apply(s, es[0]), es[1..]))
  }

  predicate RotatesInTimeThroughout(s: State, es: seq<Event>)
    requires Runs(s, es)
    decreases |es|
  {
    es == [] || (RotatesInTime(s, es[0]) && RotatesInTimeThroughout(Apply(s, es[0]), es[1..]))
  }

  /** In every run no step locks out a current token exactly when every rotation is written in time and alone. */
  lemma {:induction false} CurrentKeptExactlyWhenInTime(s: State, es: seq<Event>)
    requires Inv(s) && Runs(s, es)
    ensures CurrentKeptThroughout(s, es) <==> RotatesInTimeThroughout(s, es)
    decreases |es|
  {
    if es != [] {
      InvPreserved(s, es[0]);
      CurrentLostExactlyByRotation(s, es[0]);
      CurrentKeptExactlyWhenInTime(Apply(s, es[0]), es[1..]);
    }
  }

  // ---- The grace a rotation grants.

  /** The replaced token passes the guard until the rotation's expiry, and no longer. */
  lemma GraceLasts(s: State, p: nat, to: nat)
    requires Inv(s) && Enabled(s, RotateWrite(p)) && Serial(s, RotateWrite(p)) && s.now <= to
    ensures Accepts(Apply(Apply(s, RotateWrite(p)), Tick(to)), s.rotations[p].gid, s.rotations[p].found)
       <==> to < s.rotations[p].expiresAt
  {
    var t := Apply(s, RotateWrite(p));
    assert RotationOk(s, p);
    forall h | h in t.gateways ensures t.gateways[h].token != s.rotations[p].found {
      assert h in s.gateways ==> GatewayOk(s, h);
      assert GatewayOk(s, s.rotations[p].gid);
    }
  }

  /** The rotation `p` is not written in this run. */
  predicate Unwritten(es: seq<Event>, p: nat) { forall i | 0 <= i < |es| :: es[i] != RotateWrite(p) }

  lemma {:induction false} RotationWaits(s: State, es: seq<Event>, p: nat)
    requires Inv(s) && p in s.rotations && Runs(s, es) && Unwritten(es, p)
    ensures Inv(Run(s, es)) && p in Run(s, es).rotations && Run(s, es).rotations[p] == s.rotations[p]
    decreases |es|
  {
    if es != [] {
      InvPreserved(s, es[0]);
      RotationWaits(Apply(s, es[0]), es[1..], p);
    }
  }

  /**
   * A rotation begun at time n with a grace period, whatever comes before its write: from the write on
   * the token it replaced passes the guard at a time exactly when that time is before n + grace.
   */
  lemma GraceIsGranted(s: State, p: nat, g: nat, parentId: nat, gracePeriodMs: nat, es: seq<Event>, to: nat)
    requires Inv(s) && Enabled(s, RotateRead(p, g, parentId, gracePeriodMs))
    requires var s1 := Apply(s, RotateRead(p, g, parentId, gracePeriodMs));
      Runs(s1, es) && Unwritten(es, p) && Enabled(Run(s1, es), RotateWrite(p)) && Serial(Run(s1, es), RotateWrite(p))
      && Run(s1, es).now <= to
    ensures var s2 := Run(Apply(s, RotateRead(p, g, parentId, gracePeriodMs)), es);
      Accepts(Apply(Apply(s2, RotateWrite(p)), Tick(to)), g, s.gateways[g].token) <==> to < s.now + gracePeriodMs
  {
    var read := RotateRead(p, g, parentId, gracePeriodMs);
    InvPreserved(s, read);
    RotationWaits(Apply(s, read), es, p);
    GraceLasts(Run(Apply(s, read), es), p, to);
  }

  /** The same for a rotation with nothing in between, whose new token is current whatever the time. */
  lemma GraceOfRotation(s: State, g: nat, parentId: nat, gracePeriodMs: nat, to: nat)
    requires Inv(s) && s.rotations == map[] && Enabled(s, RotateRead(0, g, parentId, gracePeriodMs)) && s.now <= to
    ensures var s1 := Apply(s, RotateRead(0, g, parentId, gracePeriodMs));
      && Enabled(s1, RotateWrite(0))
      && (Accepts(Apply(Apply(s1, RotateWrite(0)), Tick(to)), g, s.gateways[g].token) <==> to < s.now + gracePeriodMs)
      && Accepts(Apply(Apply(s1, RotateWrite(0)), Tick(to)), g, s.nextToken)
  {
    var s1 := Apply(s, RotateRead(0, g, parentId, gracePeriodMs));
    assert GatewayOk(s, g);
    GraceIsGranted(s, 0, g, parentId, gracePeriodMs, [], to);
    assert Run(s1, []) == s1;
  }

  lemma GraceFromNow(s: State, t: State, g: nat, parentId: nat, gracePeriodMs: nat)
    requires Inv(s) && s.rotations == map[] && Enabled(s, RotateRead(0, g, parentId, gracePeriodMs))
    requires var s1 := Apply(s, RotateRead(0, g, parentId, gracePeriodMs));
      Enabled(s1, RotateWrite(0)) && t == Apply(s1, RotateWrite(0))
    ensures forall to | s.now <= to ::
      && (Accepts(Apply(t, Tick(to)), g, s.gateways[g].token) <==> to < s.now + gracePeriodMs)
      && Accepts(Apply(t, Tick(to)), g, s.nextToken)
  {
    forall to | s.now <= to
      ensures Accepts(Apply(t, Tick(to)), g, s.gateways[g].token) <==> to < s.now + gracePeriodMs
      ensures Accepts(Apply(t, Tick(to)), g, s.nextToken)
    {
      GraceOfRotation(s, g, parentId, gracePeriodMs, to);
    }
  }

  /** A rotation with nothing in between, as one change of the state. */
  lemma RotationAtOnce(s: State, g: nat, parentId: nat, gracePeriodMs: nat)
    requires s.rotations == map[] && Enabled(s, RotateRead(0, g, parentId, gracePeriodMs))
    ensures var s1, was := Apply(s, RotateRead(0, g, parentId, gracePeriodMs)), s.gateways[g];
      && Enabled(s1, RotateWrite(0)) && Serial(s1, RotateWrite(0))
      && Apply(s1, RotateWrite(0)) == s.(
           nextToken := s.nextToken + 1,
           gateways := s.gateways[g := was.(token := s.nextToken, previousToken := Some(was.token),
                                            previousTokenExpiresAt := s.now + gracePeriodMs)],
           agents := if g in s.agents then s.agents[g := Overtake(s.agents[g])] else s.agents,
           owner := s.owner[s.nextToken := g], installed := s.installed + {s.nextToken})
  {
    assert map[0 := Rotation(g, s.gateways[g].token, s.nextToken, s.now + gracePeriodMs)] - {0} == map[];
  }

  // ---- One gateway's rows.

  /** A step on one gateway leaves every other gateway and its agent alone. */
  lemma OtherGatewaysUntouched(s: State, e: Event, h: nat)
    requires Enabled(s, e)
    requires e.Register? || e.Delete? || e.PollAuth? || e.PollFetch? ==> e.gid != h
    requires e.RotateWrite? ==> s.rotations[e.id].gid != h
    ensures var t := Apply(s, e);
      && (h in t.gateways <==> h in s.gateways) && (h in s.gateways ==> t.gateways[h] == s.gateways[h])
      && (h in t.agents <==> h in s.agents) && (h in s.agents ==> t.agents[h] == s.agents[h])
      && (h in t.rejected <==> h in s.rejected)
  {
  }

  /** A deleted gateway's tokens authenticate nowhere, and an agent is refused exactly when the guard refuses its token. */
  lemma DeletedAndRefused(s: State, g: nat)
    requires Inv(s)
    ensures Enabled(s, Delete(g)) ==>
      forall t, h | Accepts(s, g, t) :: !Accepts(Apply(s, Delete(g)), h, t)
    ensures Enabled(s, PollAuth(g)) && g !in s.rejected ==>
      (g in Apply(s, PollAuth(g)).rejected <==> !Accepts(s, g, s.agents[g].token))
  {
    if Enabled(s, Delete(g)) {
      forall t, h | Accepts(s, g, t) ensures !Accepts(Apply(s, Delete(g)), h, t) {
        assert GatewayOk(s, g) && (h in s.gateways ==> GatewayOk(s, h));
      }
    }
  }

  function OverlapRun(): seq<Event> {
    [Register(1, 7), RotateRead(0, 1, 7, 10), RotateRead(9, 1, 7, 50), RotateWrite(0), Tick(20)]
  }

  /** Overlapping rotations break it: the stalled one brings a retired token back and locks out the current one. */
  lemma OverlapRevives()
    ensures Runs(Init(0), OverlapRun())
    ensures var s := Run(Init(0), OverlapRun());
      && Retired(s, 0) && Accepts(s, 1, 1)
      && Enabled(s, RotateWrite(9))
      && Accepts(Apply(s, RotateWrite(9)), 1, 0) && !Accepts(Apply(s, RotateWrite(9)), 1, 1)
  {
    var es := OverlapRun();
    var s1 := Apply(Init(0), es[0]);
    var s2 := Apply(s1, es[1]);
    var s3 := Apply(s2, es[2]);
    var s4 := Apply(s3, es[3]);
    var s5 := Apply(s4, es[4]);
    assert s5.gateways == map[1 := Gateway(7, 1, Some(0), 10, true, None)];
    assert s5.rotations[9] == Rotation(1, 0, 2, 50);
    RunUnfold(s4, es[4..]);
    RunUnfold(s3, es[3..]);
    RunUnfold(s2, es[2..]);
    RunUnfold(s1, es[1..]);
    RunUnfold(Init(0), es);
  }

  lemma RunUnfold(s: State, es: seq<Event>)
    requires es != [] && Enabled(s, es[0])
    ensures Runs(s, es) <==> Runs(Apply(s, es[0]), es[1..])
    ensures Runs(s, es) ==> Run(s, es) == Run(Apply(s, es[0]), es[1..])
    ensures |es| == 1 ==> Runs(s, es) && Run(s, es) == Apply(s, es[0])
  {
  }

  // ---- The handover between a gateway and its agent.

  /**
   * What the operator and the agent owe: rotations of a gateway do not overlap, each is
   * preceded by a whole poll since the last one and written before its own grace period ends,
   * and the agent completes a poll within the grace period of each rotation.
   */
  predicate Orderly(s: State, e: Event)
    requires Enabled(s, e)
  {
    match e
    case RotateWrite(p) =>
      var r := s.rotations[p];
      Serial(s, e) && (r.gid in s.agents ==> s.agents[r.gid].polled) && s.now < r.expiresAt
    case Tick(to) =>
      forall g | g in s.agents && g in s.gateways && !s.agents[g].polled :: to < s.gateways[g].previousTokenExpiresAt
    case _ => true
  }

  predicate OrderlyRun(s: State, es: seq<Event>)
    requires Runs(s, es)
    decreases |es|
  {
    es == [] || (Orderly(s, es[0]) && OrderlyRun(Apply(s, es[0]), es[1..]))
  }

  predicate AgentOk(s: State, g: nat)
    requires g in s.agents && g in s.gateways
  {
    var a, row := s.agents[g], s.gateways[g];
    && (a.token == row.token || (!a.polled && row.previousToken == Some(a.token) && s.now < row.previousTokenExpiresAt))
    && (a.poll.Some? && !a.poll.value.overtaken && !a.poll.value.usedPrevious ==> a.token == row.token)
  }

  predicate HandoverInv(s: State) {
    && Inv(s)
    && (forall g | g in s.agents :: g in s.gateways && AgentOk(s, g))
    && s.rejected == {}
  }

  lemma AgentAccepted(s: State, g: nat)
    requires HandoverInv(s) && g in s.agents
    ensures Accepts(s, g, s.agents[g].token)
  {
    assert AgentOk(s, g) && GatewayOk(s, g);
    forall h | h in s.gateways && h != g ensures s.gateways[h].token != s.agents[g].token {
      assert GatewayOk(s, h);
    }
  }

  lemma {:induction false} HandoverStep(s: State, e: Event)
    requires HandoverInv(s) && Enabled(s, e) && Orderly(s, e)
    ensures HandoverInv(Apply(s, e))
    ensures e.PollFetch? && !s.agents[e.gid].poll.value.overtaken
        ==> Apply(s, e).agents[e.gid].token == Apply(s, e).gateways[e.gid].token
  {
    InvPreserved(s, e);
    var t := Apply(s, e);
    if e.PollAuth? {
      AgentAccepted(s, e.gid);
    }
    forall g | g in t.agents ensures g in t.gateways && AgentOk(t, g) {
      assert g in s.agents ==> AgentOk(s, g);
    }
  }

  lemma {:induction false} HandoverAlways(s: State, es: seq<Event>)
    requires HandoverInv(s) && Runs(s, es) && OrderlyRun(s, es)
    ensures HandoverInv(Run(s, es))
    decreases |es|
  {
    if es != [] {
      HandoverStep(s, es[0]);
      HandoverAlways(Apply(s, es[0]), es[1..]);
    }
  }

  /**
   * In every orderly run no poll is ever refused, every agent still holds an accepted token, and
   * an agent that has completed a poll since the last rotation holds the current one.
   */
  lemma Handover(now: nat, es: seq<Event>)
    requires Runs(Init(now), es) && OrderlyRun(Init(now), es)
    ensures var t := Run(Init(now), es);
      && t.rejected == {}
      && forall g | g in t.agents ::
           && Accepts(t, g, t.agents[g].token)
           && g in t.gateways && (t.agents[g].polled ==> t.agents[g].token == t.gateways[g].token)
  {
    HandoverAlways(Init(now), es);
    var t := Run(Init(now), es);
    forall g | g in t.agents ensures Accepts(t, g, t.agents[g].token) && AgentOk(t, g) {
      AgentAccepted(t, g);
    }
  }

  // ---- The service and the guard.

  /** The rows are real; the agents of the installation and the histories are ghost. */
  class GatewayService {
    var now: nat
    var nextToken: Token
    var gateways: map<nat, Gateway>
    ghost var agents: map<nat, Agent>
    ghost var owner: map<Token, nat>
    ghost var installed: set<Token>
    ghost var rejected: set<nat>

    ghost function View(): State
      reads this
    {
      State(now, nextToken, gateways, map[], agents, owner, installed, rejected)
    }

    /** A registered gateway is paired at once and authenticates with its token. */
    method Register(gid: nat, parentId: nat) returns (token: Token)
      requires gid !in gateways
      modifies this
      ensures View() == Apply(old(View()), Event.Register(gid, parentId)) && Accepts(View(), gid, token)
      ensures gateways == old(gateways)[gid := Gateway(parentId, token, None, 0, true, None)] && token == old(nextToken)
    {
      token := nextToken;
      nextToken := nextToken + 1;
      gateways := gateways[gid := Gateway(parentId, token, None, 0, true, None)];
      agents, owner, installed := agents[gid := Agent(token, None, true)], owner[token := gid], installed + {token};
    }

    /** A rotation with nothing in between is its read step followed by its write step. */
    method RotateToken(parentId: nat, gid: nat, gracePeriodMs: nat) returns (r: Result<Token>)
      modifies this
      ensures r.Err? ==> View() == old(View()) && r.error == if gid !in gateways then NotFound else Forbidden
      ensures r.Err? <==> gid !in old(gateways) || old(gateways)[gid].parentId != parentId
      ensures r.Ok? ==>
        var s, read := old(View()), RotateRead(0, gid, parentId, gracePeriodMs);
        && Enabled(s, read)
        && Enabled(Apply(s, read), RotateWrite(0)) && Serial(Apply(s, read), RotateWrite(0))
        && View() == Apply(Apply(s, read), RotateWrite(0))
        && r.value == View().gateways[gid].token
      // On the rows, and from then on: the new token is current, the replaced one good for the grace period.
      ensures r.Ok? ==>
        var was := old(gateways)[gid];
        && gateways == old(gateways)[gid := was.(
             token := r.value, previousToken := Some(was.token), previousTokenExpiresAt := now + gracePeriodMs)]
        && now == old(now) && r.value == old(nextToken)
      ensures r.Ok? && Inv(old(View())) ==>
        forall to | now <= to ::
          && (Accepts(Apply(View(), Tick(to)), gid, old(gateways)[gid].token) <==> to < now + gracePeriodMs)
          && Accepts(Apply(View(), Tick(to)), gid, r.value)
    {
      if gid !in gateways {
        return Err(NotFound);
      }
      var gateway := gateways[gid];
      if gateway.parentId != parentId {
        return Err(Forbidden);
      }
      var newToken := nextToken;
      nextToken := nextToken + 1;
      var previousTokenExpiresAt := now + gracePeriodMs;
      gateways := gateways[gid := gateway.(
        token := newToken, previousToken := Some(gateway.token), previousTokenExpiresAt := previousTokenExpiresAt)];
      r := Ok(newToken);
      agents := if gid in agents then agents[gid := Overtake(agents[gid])] else agents;
      owner, installed := owner[newToken := gid], installed + {newToken};
      RotationAtOnce(old(View()), gid, parentId, gracePeriodMs);
      if Inv(old(View())) {
        GraceFromNow(old(View()), View(), gid, parentId, gracePeriodMs);
      }
    }

    /** The guard: exactly the accepted tokens pass, marked by whether the previous token was used. */
    method CanActivate(token: Token) returns (r: Result<(nat, bool)>)
      requires Inv(View())
      ensures r.Ok? <==> exists g :: Accepts(View(), g, token)
      ensures r.Ok? ==> Accepts(View(), r.value.0, token) && (r.value.1 <==> gateways[r.value.0].token != token)
      ensures r.Err? ==> r.error == Unauthorized
      // On the rows: a current token passes as its gateway; a previous one does in its grace time, if it is nobody's current.
      ensures forall g | g in gateways && gateways[g].token == token :: r == Ok((g, false))
      ensures r.Ok? && r.value.1 ==>
        r.value.0 in gateways && gateways[r.value.0].previousToken == Some(token) && now < gateways[r.value.0].previousTokenExpiresAt
      ensures forall g | g in gateways && gateways[g].previousToken == Some(token) && now < gateways[g].previousTokenExpiresAt ::
        r.Ok?
    {
      ghost var s := View();
      var found: Option<nat> := None;
      var usedPreviousToken := false;
      if g :| g in gateways && gateways[g].token == token {
        found := Some(g);
        assert GatewayOk(s, g);
      } else {
        if g :| g in gateways && gateways[g].previousToken == Some(token) && now < gateways[g].previousTokenExpiresAt {
          found, usedPreviousToken := Some(g), true;
          assert GatewayOk(s, g);
        }
      }
      if found.None? || !gateways[found.value].paired {
        return Err(Unauthorized);
      }
      assert Accepts(s, found.value, token);
      r := Ok((found.value, usedPreviousToken));
    }

    /** The rotation part of a policy response: `rotatedToken` only for a poll that used the previous token. */
    method GetPolicies(gid: nat, usedPreviousToken: bool) returns (r: Result<Option<Token>>)
      modifies this`gateways
      ensures gid !in old(gateways) ==> r == Err(NotFound) && gateways == old(gateways)
      ensures gid in old(gateways) ==>
        && gateways == old(gateways)[gid := old(gateways)[gid].(lastSeen := Some(now))]
        && r == Ok(if usedPreviousToken then Some(old(gateways)[gid].token) else None)
    {
      if gid !in gateways {
        return Err(NotFound);
      }
      gateways := gateways[gid := gateways[gid].(lastSeen := Some(now))];
      r := Ok(if usedPreviousToken then Some(gateways[gid].token) else None);
    }
  }

  /** The agent's side of a poll: it presents its token and adopts a `rotatedToken` it is given. */
  class GatewayAgent {
    const gid: nat
    const service: GatewayService
    var token: Token

    constructor (gid: nat, service: GatewayService, token: Token)
      ensures this.gid == gid && this.service == service && this.token == token
    {
      this.gid, this.service, this.token := gid, service, token;
    }

    /** The protocol's agent of this gateway is this one, between polls. */
    ghost predicate InStep()
      reads this, service
    {
      gid in service.agents && service.agents[gid].token == token && service.agents[gid].poll.None?
    }

    /** A poll with nothing in between is the protocol's authentication and, if accepted, its fetch. */
    method Poll() returns (accepted: bool)
      requires Inv(service.View()) && InStep() && gid in service.gateways
      modifies this`token, service`gateways, service`agents, service`rejected
      ensures InStep()
      ensures accepted == Accepts(old(service.View()), gid, old(token))
      ensures
        var s := old(service.View());
        && Enabled(s, PollAuth(gid))
        && (!accepted ==> service.View() == Apply(s, PollAuth(gid)))
        && (accepted ==>
              Enabled(Apply(s, PollAuth(gid)), PollFetch(gid))
              && service.View() == Apply(Apply(s, PollAuth(gid)), PollFetch(gid)))
    {
      ghost var s := service.View();
      var auth := service.CanActivate(token);
      if auth.Err? {
        assert service.View() == s && !Accepts(service.View(), gid, token);
        service.rejected := service.rejected + {gid};
        return false;
      }
      var (found, usedPrevious) := auth.value;
      assert GatewayOk(s, found);
      assert found == gid;
      service.agents := service.agents[gid := service.agents[gid].(poll := Some(Polling(usedPrevious, false)))];
      assert service.View() == Apply(s, PollAuth(gid));
      var policies := service.GetPolicies(found, usedPrevious);
      if policies.value.Some? {
        token := policies.value.value;
      }
      service.agents := service.agents[gid := Agent(token, None, true)];
      accepted := true;
    }
  }
}
