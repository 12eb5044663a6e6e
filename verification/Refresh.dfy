/**
 * Refresh-token rotation as a protocol: reads, mints, compare-and-swap writes, login installs
 * and logouts of any number of concurrent requests, interleaved at every await.
 */
module Refresh {
  import opened Common

  /** A signed refresh token; `jti` is the unique id of section 4.1.7 of RFC 7519. */
  datatype Token = Token(sub: nat, jti: nat)

  /** SHA-256 taken as injective: a hash is known by the token it hashes. */
  datatype Hash = Hash(of: Token)

  /** A request between two awaits. */
  datatype Request =
    | Checked(token: Token)                // refresh: the stored hash matched the presented token
    | Minted(token: Token, next: Token)   // refresh: the replacement is signed, the swap not yet done
    | Issuing(next: Token)                // login or registration: signed, not yet installed

  /**
   * `stored` is the users' `refreshToken` column (absent: null). `redeemed` and `installed`
   * record, in order, the tokens successfully exchanged and the tokens ever written to a row;
   * no step branches on them.
   */
  datatype State = State(
    stored: map<nat, Hash>, nextJti: nat, requests: map<nat, Request>,
    redeemed: seq<Token>, installed: seq<Token>)

  datatype Event =
    | RefreshRead(id: nat, token: Token, verified: bool)   // `verified`: signature and expiry check out
    | RefreshMint(id: nat)
    | RefreshSwap(id: nat)
    | LoginMint(id: nat, user: nat)
    | LoginInstall(id: nat)
    | Logout(user: nat)

  function Init(): State { State(map[], 0, map[], [], []) }

  predicate Matches(s: State, t: Token) { t.sub in s.stored && s.stored[t.sub] == Hash(t) }

  predicate Enabled(s: State, e: Event) {
    match e
    case RefreshRead(p, _, _) => p !in s.requests
    case RefreshMint(p) => p in s.requests && s.requests[p].Checked?
    case RefreshSwap(p) => p in s.requests && s.requests[p].Minted?
    case LoginMint(p, _) => p !in s.requests
    case LoginInstall(p) => p in s.requests && s.requests[p].Issuing?
    case Logout(_) => true
  }

  /** A refresh swap that writes: the stored hash still equals the presented one. */
  predicate Succeeds(s: State, e: Event) {
    e.RefreshSwap? && Enabled(s, e) && Matches(s, s.requests[e.id].token)
  }

  function Install(s: State, t: Token): State {
    s.(stored := s.stored[t.sub := Hash(t)], installed := s.installed + [t])
  }

  function Apply(s: State, e: Event): State
    requires Enabled(s, e)
  {
    match e
    case RefreshRead(p, t, verified) =>
      if verified && Matches(s, t) then s.(requests := s.requests[p := Checked(t)]) else s
    case RefreshMint(p) =>
      var t := s.requests[p].token;
      s.(requests := s.requests[p := Minted(t, Token(t.sub, s.nextJti))], nextJti := s.nextJti + 1)
    case RefreshSwap(p) =>
      var Minted(t, next) := s.requests[p];
      var done := s.(requests := s.requests - {p});
      if Matches(s, t) then Install(done, next).(redeemed := s.redeemed + [t]) else done
    case LoginMint(p, u) =>
      s.(requests := s.requests[p := Issuing(Token(u, s.nextJti))], nextJti := s.nextJti + 1)
    case LoginInstall(p) => Install(s.(requests := s.requests - {p}), s.requests[p].next)
    case Logout(u) => s.(stored := s.stored - {u})
  }

  predicate Runs(s: State, es: seq<Event>)
    decreases |es|
  {
    es == [] || (Enabled(s, es[0]) && Runs(Apply(s, es[0]), es[1..]))
  }

  function Run(s: State, es: seq<Event>): State
    requires Runs(s, es)
    decreases |es|
  {
    if es == [] then s else Run(Apply(s, es[0]), es[1..])
  }

  // ---- The invariant.

  predicate NoDuplicates(ts: seq<Token>) {
    forall i, j | 0 <= i < j < |ts| :: ts[i] != ts[j]
  }

  /** The token a request has signed and not yet written. */
  function Fresh(r: Request): Option<Token> {
    match r
    case Checked(_) => None
    case Minted(_, next) => Some(next)
    case Issuing(next) => Some(next)
  }

  /** Subject and id of a signed token were fixed when it was signed, and nobody else has signed the same. */
  predicate FreshOk(s: State, p: nat)
    requires p in s.requests
  {
    var t := Fresh(s.requests[p]);
    && (t.Some? ==> t.value.jti < s.nextJti && t.value !in s.installed)
    && (s.requests[p].Minted? ==> s.requests[p].token.sub == s.requests[p].next.sub)
  }

  predicate Inv(s: State) {
    && (forall u | u in s.stored :: s.stored[u].of.sub == u && s.stored[u].of in s.installed)
    && (forall t | t in s.installed :: t.jti < s.nextJti)
    && NoDuplicates(s.installed)
    && (forall p | p in s.requests :: FreshOk(s, p))
    && (forall p, q | p in s.requests && q in s.requests && p != q && Fresh(s.requests[p]).Some? ::
          Fresh(s.requests[p]) != Fresh(s.requests[q]))
    && (forall t | t in s.redeemed :: t in s.installed && !Matches(s, t))
    && NoDuplicates(s.redeemed)
  }

  lemma SnocNoDuplicates(ts: seq<Token>, t: Token)
    requires NoDuplicates(ts) && t !in ts
    ensures NoDuplicates(ts + [t])
  {
  }

  /** Writing a signed token that was never written before. */
  lemma InstallKeepsHistory(s: State, p: nat)
    requires Inv(s) && p in s.requests && Fresh(s.requests[p]).Some?
    ensures var t := Fresh(s.requests[p]).value;
      NoDuplicates(s.installed + [t]) && t.jti < s.nextJti && !Matches(s, t) && t !in s.redeemed
  {
    assert FreshOk(s, p);
    SnocNoDuplicates(s.installed, Fresh(s.requests[p]).value);
  }

  lemma RequestsStayOk(s: State, e: Event)
    requires Inv(s) && Enabled(s, e)
    ensures var t := Apply(s, e);
      && (forall p | p in t.requests :: FreshOk(t, p))
      && (forall p, q | p in t.requests && q in t.requests && p != q && Fresh(t.requests[p]).Some? ::
            Fresh(t.requests[p]) != Fresh(t.requests[q]))
  {
    var t := Apply(s, e);
    forall p | p in t.requests ensures FreshOk(t, p) {
      assert p in s.requests ==> FreshOk(s, p);
    }
    forall p, q | p in t.requests && q in t.requests && p != q && Fresh(t.requests[p]).Some?
      ensures Fresh(t.requests[p]) != Fresh(t.requests[q])
    {
      assert p in s.requests ==> FreshOk(s, p);
      assert q in s.requests ==> FreshOk(s, q);
    }
  }

  lemma {:induction false} InvPreserved(s: State, e: Event)
    requires Inv(s) && Enabled(s, e)
    ensures Inv(Apply(s, e))
  {
    RequestsStayOk(s, e);
    match e
    case RefreshSwap(p) =>
      InstallKeepsHistory(s, p);
      if Matches(s, s.requests[p].token) {
        SnocNoDuplicates(s.redeemed, s.requests[p].token);
      }
    case LoginInstall(p) => InstallKeepsHistory(s, p);
    case _ =>
  }

  lemma {:induction false} InvAlways(s: State, es: seq<Event>)
    requires Inv(s) && Runs(s, es)
    ensures Inv(Run(s, es))
    decreases |es|
  {
    if es != [] {
      InvPreserved(s, es[0]);
      InvAlways(Apply(s, es[0]), es[1..]);
    }
  }

  // ---- One user's row.

  /** A step changes no row but that of the user it logs out, or whose token it swaps or installs. */
  lemma OthersKeepTheirTokens(s: State, e: Event, u: nat)
    requires Inv(s) && Enabled(s, e)
    requires e.Logout? ==> e.user != u
    requires e.RefreshSwap? ==> s.requests[e.id].token.sub != u
    requires e.LoginInstall? ==> s.requests[e.id].next.sub != u
    ensures var t := Apply(s, e); (u in t.stored <==> u in s.stored) && (u in s.stored ==> t.stored[u] == s.stored[u])
    ensures forall t: Token | t.sub == u :: Matches(Apply(s, e), t) <==> Matches(s, t)
  {
    if e.RefreshSwap? {
      assert FreshOk(s, e.id);
    }
  }

  /** A refused swap changes no row at all, a logout leaves its user none, and an install its own token alone. */
  lemma WritersWriteTheirRow(s: State, e: Event)
    requires Inv(s) && Enabled(s, e)
    ensures e.RefreshSwap? && !Matches(s, s.requests[e.id].token) ==> Apply(s, e).stored == s.stored
    ensures e.Logout? ==> forall t: Token | t.sub == e.user :: !Matches(Apply(s, e), t)
    ensures e.LoginInstall? ==> forall t: Token | t.sub == s.requests[e.id].next.sub ::
              Matches(Apply(s, e), t) <==> t == s.requests[e.id].next
  {
  }

  /**
   * A request goes its own way: no other step touches it, a refresh is admitted exactly with the stored
   * token, and what is signed for it is for the user of that token, or of that login, and new.
   */
  lemma RequestsGoTheirWay(s: State, e: Event, p: nat)
    requires Inv(s) && Enabled(s, e)
    ensures p in s.requests && (e.Logout? || e.id != p) ==> p in Apply(s, e).requests && Apply(s, e).requests[p] == s.requests[p]
    ensures e.RefreshRead? && e.id == p ==>
      (p in Apply(s, e).requests <==> e.verified && e.token.sub in s.stored && s.stored[e.token.sub] == Hash(e.token))
    ensures (e.RefreshMint? || e.LoginMint?) && e.id == p ==>
      && p in Apply(s, e).requests && Fresh(Apply(s, e).requests[p]).Some?
      && var t := Fresh(Apply(s, e).requests[p]).value;
         t !in s.installed && t.sub == if e.LoginMint? then e.user else s.requests[p].token.sub
    ensures e.RefreshMint? && e.id == p ==>
      Apply(s, e).requests[p].Minted? && Apply(s, e).requests[p].token == s.requests[p].token
  {
  }

  /** What one user's requests do is nothing to another's token, over whole runs. */
  predicate Leaves(s: State, e: Event, u: nat)
    requires Enabled(s, e)
  {
    match e
    case Logout(v) => v != u
    case RefreshSwap(p) => s.requests[p].token.sub != u
    case LoginInstall(p) => s.requests[p].next.sub != u
    case _ => true
  }

  predicate LeavesThroughout(s: State, es: seq<Event>, u: nat)
    requires Runs(s, es)
    decreases |es|
  {
    es == [] || (Leaves(s, es[0], u) && LeavesThroughout(Apply(s, es[0]), es[1..], u))
  }

  lemma {:induction false} TokenStaysGood(s: State, es: seq<Event>, t: Token)
    requires Inv(s) && Matches(s, t) && Runs(s, es) && LeavesThroughout(s, es, t.sub)
    ensures Matches(Run(s, es), t)
    decreases |es|
  {
    if es != [] {
      InvPreserved(s, es[0]);
      OthersKeepTheirTokens(s, es[0], t.sub);
      TokenStaysGood(Apply(s, es[0]), es[1..], t);
    }
  }

  // ---- The promises of rotation.

  /** Under every interleaving each refresh token is exchanged at most once, and once exchanged matches no row. */
  lemma EachTokenRedeemedAtMostOnce(es: seq<Event>)
    requires Runs(Init(), es)
    ensures var s := Run(Init(), es);
      NoDuplicates(s.redeemed) && forall t | t in s.redeemed :: !Matches(s, t)
  {
    InvAlways(Init(), es);
  }

  /** Only a swap that finds its token still stored exchanges it, and it makes its own new token the stored one. */
  lemma RedeemedExactlyBySwaps(s: State, e: Event)
    requires Inv(s) && Enabled(s, e)
    ensures Succeeds(s, e) ==>
      var Minted(t, next) := s.requests[e.id];
      Apply(s, e).redeemed == s.redeemed + [t] && Matches(Apply(s, e), next) && !Matches(Apply(s, e), t)
    ensures !Succeeds(s, e) ==> Apply(s, e).redeemed == s.redeemed
  {
    if e.RefreshSwap? {
      assert FreshOk(s, e.id);
    }
  }

  /** A token that was stored once and is stored no longer is never redeemable again. */
  lemma {:induction false} ReplacedNeverReturns(s: State, t: Token, es: seq<Event>)
    requires Inv(s) && t in s.installed && !Matches(s, t) && Runs(s, es)
    ensures !Matches(Run(s, es), t)
    decreases |es|
  {
    if es != [] {
      var e := es[0];
      InvPreserved(s, e);
      if e.RefreshSwap? || e.LoginInstall? {
        assert FreshOk(s, e.id);
      }
      ReplacedNeverReturns(Apply(s, e), t, es[1..]);
    }
  }

  /** No login of user `u` reaches its install in this run. */
  predicate NoInstallFor(s: State, es: seq<Event>, u: nat)
    requires Runs(s, es)
    decreases |es|
  {
    es == [] ||
    (!(es[0].LoginInstall? && s.requests[es[0].id].next.sub == u) && NoInstallFor(Apply(s, es[0]), es[1..], u))
  }

  function RedeemedBy(s: State, u: nat): seq<Token> { Filter(s.redeemed, (t: Token) => t.sub == u) }

  /** After a logout no refresh of that user succeeds until a login installs a new token. */
  lemma NoRefreshAfterLogout(s: State, u: nat, es: seq<Event>)
    requires Inv(s) && Runs(Apply(s, Logout(u)), es) && NoInstallFor(Apply(s, Logout(u)), es, u)
    ensures var t := Run(Apply(s, Logout(u)), es);
      RedeemedBy(t, u) == RedeemedBy(s, u) && u !in t.stored
  {
    InvPreserved(s, Logout(u));
    LoggedOutStays(Apply(s, Logout(u)), u, es);
  }

  lemma {:induction false} LoggedOutStays(s: State, u: nat, es: seq<Event>)
    requires Inv(s) && u !in s.stored && Runs(s, es) && NoInstallFor(s, es, u)
    ensures u !in Run(s, es).stored
    ensures RedeemedBy(Run(s, es), u) == RedeemedBy(s, u)
    decreases |es|
  {
    if es != [] {
      var e := es[0];
      InvPreserved(s, e);
      if e.RefreshSwap? {
        assert FreshOk(s, e.id);
        var t := s.requests[e.id].token;
        FilterConcat(s.redeemed, [t], (x: Token) => x.sub == u);
      }
      LoggedOutStays(Apply(s, e), u, es[1..]);
    }
  }

  // ---- The service.

  class AuthService {
    var stored: map<nat, Hash>
    var nextJti: nat
    ghost var redeemed: seq<Token>
    ghost var installed: seq<Token>

    ghost function View(requests: map<nat, Request>): State
      reads this
    {
      State(stored, nextJti, requests, redeemed, installed)
    }

    method GenerateTokens(sub: nat) returns (t: Token)
      modifies `nextJti
      ensures t == Token(sub, old(nextJti)) && nextJti == old(nextJti) + 1
    {
      t := Token(sub, nextJti);
      nextJti := nextJti + 1;
    }

    /** `updateMany` with the presented hash in its `where`: the number of rows written. */
    method CompareAndSwap(presented: Token, next: Token) returns (count: nat)
      modifies `stored
      ensures count == if presented.sub in old(stored) && old(stored)[presented.sub] == Hash(presented) then 1 else 0
      ensures stored == if count == 1 then old(stored)[presented.sub := Hash(next)] else old(stored)
    {
      if presented.sub in stored && stored[presented.sub] == Hash(presented) {
        stored := stored[presented.sub := Hash(next)];
        return 1;
      }
      return 0;
    }

    /** A refresh with nothing in between is the run of its three steps. */
    method Refresh(token: Token, verified: bool) returns (r: Result<Token>)
      modifies this
      ensures
        var s := old(View(map[]));
        var es := if verified && Matches(s, token)
                  then [RefreshRead(0, token, verified), RefreshMint(0), RefreshSwap(0)]
                  else [RefreshRead(0, token, verified)];
        && Runs(s, es) && View(map[]) == Run(s, es)
        && r == if verified && Matches(s, token) then Ok(Token(token.sub, old(nextJti))) else Err(Unauthorized)
      // On the rows: it succeeds exactly for the stored token, whose place the new one takes; no other row changes.
      ensures r.Ok? <==> verified && token.sub in old(stored) && old(stored)[token.sub] == Hash(token)
      ensures r.Ok? ==> stored == old(stored)[token.sub := Hash(r.value)] && r.value.sub == token.sub && r.value.jti == old(nextJti)
      ensures r.Err? ==> stored == old(stored)
    {
      if !verified {
        return Err(Unauthorized);
      }
      if token.sub !in stored || stored[token.sub] != Hash(token) {
        return Err(Unauthorized);
      }
      ghost var s := View(map[]);
      var tokens := GenerateTokens(token.sub);
      var count := CompareAndSwap(token, tokens);
      if count == 0 {
        return Err(Unauthorized);
      }
      redeemed, installed := redeemed + [token], installed + [tokens];
      r := Ok(tokens);
      ThreeSteps(s, token);
    }

    /** The token part of a login or registration: sign, then install unconditionally. */
    method IssueTokens(sub: nat) returns (t: Token)
      modifies this
      ensures var s, es := old(View(map[])), [LoginMint(0, sub), LoginInstall(0)];
        Runs(s, es) && View(map[]) == Run(s, es) && Matches(View(map[]), t)
      ensures t == Token(sub, old(nextJti)) && stored == old(stored)[sub := Hash(t)]
    {
      ghost var s := View(map[]);
      t := GenerateTokens(sub);
      stored := stored[sub := Hash(t)];
      installed := installed + [t];
      ghost var s1 := Apply(s, LoginMint(0, sub));
      assert s1.requests - {0} == map[];
      assert [LoginMint(0, sub), LoginInstall(0)][1..] == [LoginInstall(0)];
      OneStep(s1, LoginInstall(0));
    }

    method Logout(user: nat)
      modifies `stored
      ensures View(map[]) == Apply(old(View(map[])), Event.Logout(user))
      ensures user !in stored
      ensures forall v | v != user :: (v in stored <==> v in old(stored)) && (v in stored ==> stored[v] == old(stored)[v])
    {
      stored := stored - {user};
    }
  }

  lemma OneStep(s: State, e: Event)
    ensures Runs(s, [e]) <==> Enabled(s, e)
    ensures Enabled(s, e) ==> Run(s, [e]) == Apply(s, e)
  {
    assert [e][1..] == [];
  }

  lemma ThreeSteps(s: State, token: Token)
    requires s.requests == map[] && Matches(s, token)
    ensures
      var es := [RefreshRead(0, token, true), RefreshMint(0), RefreshSwap(0)];
      var next := Token(token.sub, s.nextJti);
      Runs(s, es) && Run(s, es) == Install(s, next).(nextJti := s.nextJti + 1, redeemed := s.redeemed + [token])
  {
    var es := [RefreshRead(0, token, true), RefreshMint(0), RefreshSwap(0)];
    var s1 := Apply(s, es[0]);
    var s2 := Apply(s1, es[1]);
    assert es[1..] == [es[1], es[2]] && [es[1], es[2]][1..] == [es[2]];
    assert s2.requests - {0} == map[];
    OneStep(s2, es[2]);
    assert Runs(s1, [es[1], es[2]]);
  }
}
