/**
 * The router command queue: one shared table, a FIFO per gateway. A poll reads the PENDING rows
 * first and marks those very ids DELIVERED afterwards. Ids are table positions, in creation order.
 */
module RouterQueue {
  import opened Common

  datatype CommandStatus = PENDING | DELIVERED | ACKNOWLEDGED | FAILED

  datatype Row = Row(gateway: nat, command: string, status: CommandStatus)

  /** A poll that has read `ids` and not yet marked them. */
  datatype Poll = Poll(gateway: nat, ids: seq<nat>)

  /** `delivered` records what polls returned, in order, with the gateway they returned it to. */
  datatype State = State(rows: seq<Row>, polls: map<nat, Poll>, delivered: seq<(nat, nat)>)

  datatype Event =
    | Enqueue(gateway: nat, command: string)
    | PollReads(p: nat, gateway: nat)
    | PollMarks(p: nat)
    | Acknowledge(id: nat, success: bool)   // after the ownership check

  // ---- Queries.

  /** The ids of the rows a `where` clause selects, oldest first. */
  function Where(rows: seq<Row>, test: Row -> bool): seq<nat> {
    if rows == [] then []
    else
      var n := |rows| - 1;
      Where(rows[..n], test) + if test(rows[n]) then [n] else []
  }

  function Of(g: nat): Row -> bool { (r: Row) => r.gateway == g }
  function PendingOf(g: nat): Row -> bool { (r: Row) => r.gateway == g && r.status == PENDING }

  function Enqueued(rows: seq<Row>, g: nat): seq<nat> { Where(rows, Of(g)) }
  function Pending(rows: seq<Row>, g: nat): seq<nat> { Where(rows, PendingOf(g)) }

  predicate Ascending(ids: seq<nat>) {
    forall i, j | 0 <= i < j < |ids| :: ids[i] < ids[j]
  }

  lemma {:induction false} WhereMembers(rows: seq<Row>, test: Row -> bool)
    ensures Ascending(Where(rows, test))
    ensures forall i :: i in Where(rows, test) <==> 0 <= i < |rows| && test(rows[i])
  {
    if rows != [] {
      var n := |rows| - 1;
      WhereMembers(rows[..n], test);
      var w := Where(rows[..n], test);
      forall k | 0 <= k < |w| ensures w[k] < n {
        assert w[k] in w;
      }
    }
  }

  /** An ascending list is known by its members. */
  lemma {:induction false} AscendingIsUnique(a: seq<nat>, b: seq<nat>)
    requires Ascending(a) && Ascending(b)
    requires forall i :: i in a <==> i in b
    ensures a == b
  {
    assert a != [] ==> a[|a| - 1] in a;
    assert b != [] ==> b[|b| - 1] in b;
    if a != [] {
      var m, n := |a| - 1, |b| - 1;
      assert a[m] == b[n];
      forall i ensures i in a[..m] <==> i in b[..n] {
        assert i in a <==> i in a[..m] || i == a[m] by { assert a == a[..m] + [a[m]]; }
        assert i in b <==> i in b[..n] || i == b[n] by { assert b == b[..n] + [b[n]]; }
      }
      AscendingIsUnique(a[..m], b[..n]);
      assert a == a[..m] + [a[m]] && b == b[..n] + [b[n]];
    }
  }

  // ---- Steps.

  /** `updateMany({ where: { id: { in: ids } } })`, whatever the rows' status has become. */
  function Mark(rows: seq<Row>, ids: seq<nat>): (r: seq<Row>)
    ensures |r| == |rows|
    ensures forall i | 0 <= i < |r| :: r[i] == if i in ids then rows[i].(status := DELIVERED) else rows[i]
  {
    seq(|rows|, i requires 0 <= i < |rows| => if i in ids then rows[i].(status := DELIVERED) else rows[i])
  }

  function Returns(ids: seq<nat>, g: nat): (r: seq<(nat, nat)>)
    ensures |r| == |ids|
    ensures forall i | 0 <= i < |r| :: r[i] == (g, ids[i])
  {
    seq(|ids|, i requires 0 <= i < |ids| => (g, ids[i]))
  }

  predicate Enabled(s: State, e: Event) {
    match e
    case Enqueue(_, _) => true
    case PollReads(p, _) => p !in s.polls
    case PollMarks(p) => p in s.polls
    case Acknowledge(id, _) => id < |s.rows|
  }

  function Apply(s: State, e: Event): State
    requires Enabled(s, e)
  {
    match e
    case Enqueue(g, command) => s.(rows := s.rows + [Row(g, command, PENDING)])
    case PollReads(p, g) => s.(polls := s.polls[p := Poll(g, Pending(s.rows, g))])
    case PollMarks(p) =>
      var Poll(g, ids) := s.polls[p];
      State(Mark(s.rows, ids), s.polls - {p}, s.delivered + Returns(ids, g))
    case Acknowledge(id, success) =>
      s.(rows := s.rows[id := s.rows[id].(status := if success then ACKNOWLEDGED else FAILED)])
  }

  predicate Runs(s: State, es: seq<Event>)
    decreases |es|
  {
    es == [] || (Enabled(s, es[0]) && Runs(Apply(s, es[0]), es[1..]))
  }

  function Run(s: State, es: seq<Event>): State
    requires Runs(s, es)
    decreases |es|
  {
    if es == [] then s else Run(Apply(s, es[0]), es[1..])
  }

  function Init(): State { State([], map[], []) }

  /** What a gateway has been given, in order. */
  function Delivered(delivered: seq<(nat, nat)>, g: nat): seq<nat> {
    if delivered == [] then []
    else
      var n := |delivered| - 1;
      Delivered(delivered[..n], g) + if delivered[n].0 == g then [delivered[n].1] else []
  }

  lemma {:induction false} DeliveredReturns(delivered: seq<(nat, nat)>, ids: seq<nat>, h: nat, g: nat)
    ensures Delivered(delivered + Returns(ids, h), g) == Delivered(delivered, g) + if h == g then ids else []
  {
    if ids == [] {
      assert delivered + Returns(ids, h) == delivered;
    } else {
      var n := |ids| - 1;
      DeliveredReturns(delivered, ids[..n], h, g);
      assert Returns(ids, h)[..n] == Returns(ids[..n], h);
      assert (delivered + Returns(ids, h))[..|delivered| + n] == delivered + Returns(ids[..n], h);
      assert ids == ids[..n] + [ids[n]];
    }
  }

  // ---- What a step does to one gateway's queue.

  lemma EnqueuePushes(s: State, h: nat, command: string, g: nat)
    ensures var t := Apply(s, Enqueue(h, command)); var new_ := if h == g then [|s.rows|] else [];
      && Pending(t.rows, g) == Pending(s.rows, g) + new_
      && Enqueued(t.rows, g) == Enqueued(s.rows, g) + new_
  {
    assert Apply(s, Enqueue(h, command)).rows[..|s.rows|] == s.rows;
  }

  /** Two tables that agree on a query's test give the same answer. */
  lemma SameAnswer(a: seq<Row>, b: seq<Row>, test: Row -> bool)
    requires |a| == |b| && forall i | 0 <= i < |a| :: test(a[i]) == test(b[i])
    ensures Where(a, test) == Where(b, test)
  {
    WhereMembers(a, test);
    WhereMembers(b, test);
    AscendingIsUnique(Where(a, test), Where(b, test));
  }

  /** Marking a prefix of what is pending takes exactly that prefix off. */
  lemma MarkPops(rows: seq<Row>, ids: seq<nat>, g: nat)
    requires ids <= Pending(rows, g)
    ensures Pending(rows, g) == ids + Pending(Mark(rows, ids), g)
  {
    var before, after := Pending(rows, g), Pending(Mark(rows, ids), g);
    WhereMembers(rows, PendingOf(g));
    WhereMembers(Mark(rows, ids), PendingOf(g));
    var rest := before[|ids|..];
    assert before == ids + rest;
    forall i ensures i in rest <==> i in after {
      if i in rest {
        var k :| 0 <= k < |rest| && rest[k] == i;
        assert before[|ids| + k] == i;
        forall j | 0 <= j < |ids| ensures ids[j] != i {
          assert before[j] == ids[j];
        }
      }
      if i in after {
        assert i in before;
      }
    }
    AscendingIsUnique(rest, after);
  }

  /** Every command in the list of another gateway is another row. */
  lemma MarkOfOther(rows: seq<Row>, ids: seq<nat>, h: nat, g: nat)
    requires h != g && forall i | i in ids :: 0 <= i < |rows| && rows[i].gateway == h
    ensures Pending(Mark(rows, ids), g) == Pending(rows, g)
  {
    SameAnswer(Mark(rows, ids), rows, PendingOf(g));
  }

  lemma MarkKeepsEnqueued(rows: seq<Row>, ids: seq<nat>, g: nat)
    ensures Enqueued(Mark(rows, ids), g) == Enqueued(rows, g)
  {
    SameAnswer(Mark(rows, ids), rows, Of(g));
  }

  // ---- The invariant.

  /** What gateway `g` was given, then what waits for it, is everything enqueued for it, in creation order. */
  predicate Conserved(s: State, g: nat) {
    Delivered(s.delivered, g) + Pending(s.rows, g) == Enqueued(s.rows, g)
  }

  /** A poll read rows of its own gateway. */
  predicate PollsOwn(s: State) {
    forall p | p in s.polls :: forall i | i in s.polls[p].ids :: i < |s.rows| && s.rows[i].gateway == s.polls[p].gateway
  }

  lemma PollsOwnPreserved(s: State, e: Event)
    requires PollsOwn(s) && Enabled(s, e)
    ensures PollsOwn(Apply(s, e))
  {
    if e.PollReads? {
      WhereMembers(s.rows, PendingOf(e.gateway));
    }
  }

  /** A poll marks what is still the front of its queue; a command acknowledged has been delivered. */
  predicate Keeps(s: State, e: Event, g: nat)
    requires Enabled(s, e)
  {
    match e
    case PollMarks(p) => s.polls[p].gateway == g ==> s.polls[p].ids <= Pending(s.rows, g)
    case Acknowledge(id, _) => id !in Pending(s.rows, g)
    case _ => true
  }

  /**
   * Exactly when a step breaks a gateway's queue: marking ids that are no longer the front of its
   * queue (a second poll had read them too), or acknowledging a command never delivered.
   */
  lemma BrokenExactlyBy(s: State, e: Event, g: nat)
    requires Conserved(s, g) && PollsOwn(s) && Enabled(s, e)
    ensures Conserved(Apply(s, e), g) <==> Keeps(s, e, g)
  {
    match e
    case Enqueue(h, command) => EnqueuePushes(s, h, command, g);
    case PollReads(p, h) =>
    case PollMarks(p) => MarkStep(s, p, g);
    case Acknowledge(id, success) => AcknowledgeStep(s, id, success, g);
  }

  lemma SamePrefix(a: seq<nat>, b: seq<nat>, c: seq<nat>)
    requires a + b == a + c
    ensures b == c
  {
    assert (a + b)[|a|..] == b && (a + c)[|a|..] == c;
  }

  lemma Regroup(a: seq<nat>, b: seq<nat>, c: seq<nat>)
    ensures a + b + c == a + (b + c)
  {
  }

  /** In terms of the four lists: what a poll took off the front is what it returned. */
  lemma Moved(given: seq<nat>, before: seq<nat>, ids: seq<nat>, after: seq<nat>, all: seq<nat>)
    requires given + before == all
    requires ids <= before ==> before == ids + after
    ensures given + ids + after == all <==> ids <= before
  {
    Regroup(given, ids, after);
    if given + ids + after == all {
      SamePrefix(given, before, ids + after);
    }
  }

  lemma MarkKeepsOther(s: State, p: nat, g: nat)
    requires PollsOwn(s) && p in s.polls && s.polls[p].gateway != g
    ensures var t := Apply(s, PollMarks(p));
      && Delivered(t.delivered, g) == Delivered(s.delivered, g)
      && Pending(t.rows, g) == Pending(s.rows, g)
      && Enqueued(t.rows, g) == Enqueued(s.rows, g)
  {
    var Poll(h, ids) := s.polls[p];
    DeliveredReturns(s.delivered, ids, h, g);
    MarkKeepsEnqueued(s.rows, ids, g);
    MarkOfOther(s.rows, ids, h, g);
  }

  lemma MarkMoves(s: State, p: nat, g: nat)
    requires p in s.polls && s.polls[p].gateway == g
    ensures var t, ids := Apply(s, PollMarks(p)), s.polls[p].ids;
      && Delivered(t.delivered, g) == Delivered(s.delivered, g) + ids
      && (ids <= Pending(s.rows, g) ==> Pending(s.rows, g) == ids + Pending(t.rows, g))
      && Enqueued(t.rows, g) == Enqueued(s.rows, g)
  {
    var ids := s.polls[p].ids;
    DeliveredReturns(s.delivered, ids, g, g);
    MarkKeepsEnqueued(s.rows, ids, g);
    if ids <= Pending(s.rows, g) {
      MarkPops(s.rows, ids, g);
    }
  }

  lemma MarkStep(s: State, p: nat, g: nat)
    requires Conserved(s, g) && PollsOwn(s) && p in s.polls
    ensures Conserved(Apply(s, PollMarks(p)), g) <==> (s.polls[p].gateway == g ==> s.polls[p].ids <= Pending(s.rows, g))
  {
    var t := Apply(s, PollMarks(p));
    if s.polls[p].gateway != g {
      MarkKeepsOther(s, p, g);
    } else {
      MarkMoves(s, p, g);
      Moved(Delivered(s.delivered, g), Pending(s.rows, g), s.polls[p].ids, Pending(t.rows, g), Enqueued(s.rows, g));
    }
  }

  lemma AcknowledgeStep(s: State, id: nat, success: bool, g: nat)
    requires Conserved(s, g) && id < |s.rows|
    ensures Conserved(Apply(s, Acknowledge(id, success)), g) <==> id !in Pending(s.rows, g)
  {
    var rows := Apply(s, Acknowledge(id, success)).rows;
    SameAnswer(rows, s.rows, Of(g));
    WhereMembers(s.rows, PendingOf(g));
    WhereMembers(rows, PendingOf(g));
    if id !in Pending(s.rows, g) {
      SameAnswer(rows, s.rows, PendingOf(g));
    } else {
      assert id in Pending(s.rows, g) && id !in Pending(rows, g);
      if Conserved(Apply(s, Acknowledge(id, success)), g) {
        SamePrefix(Delivered(s.delivered, g), Pending(s.rows, g), Pending(rows, g));
        assert false;
      }
    }
  }

  // ---- Runs.

  predicate ConservedThroughout(s: State, es: seq<Event>, g: nat)
    requires Runs(s, es)
    decreases |es|
  {
    Conserved(s, g) && (es == [] || ConservedThroughout(Apply(s, es[0]), es[1..], g))
  }

  predicate KeepsRun(s: State, es: seq<Event>, g: nat)
    requires Runs(s, es)
    decreases |es|
  {
    es == [] || (Keeps(s, es[0], g) && KeepsRun(Apply(s, es[0]), es[1..], g))
  }

  /** Over every run: a gateway's queue is conserved at every moment exactly when no step is of those two kinds. */
  lemma {:induction false} ConservedExactlyWhenKept(s: State, es: seq<Event>, g: nat)
    requires Conserved(s, g) && PollsOwn(s) && Runs(s, es)
    ensures ConservedThroughout(s, es, g) <==> KeepsRun(s, es, g)
    decreases |es|
  {
    if es != [] {
      BrokenExactlyBy(s, es[0], g);
      PollsOwnPreserved(s, es[0]);
      if Keeps(s, es[0], g) {
        ConservedExactlyWhenKept(Apply(s, es[0]), es[1..], g);
      }
    }
  }

  /** The agent of a gateway polls one at a time and acknowledges what it was given. */
  predicate Orderly(s: State, e: Event) {
    && (e.PollReads? ==> forall p | p in s.polls :: s.polls[p].gateway != e.gateway)
    && (e.Acknowledge? && e.id < |s.rows| ==> s.rows[e.id].status != PENDING)
  }

  predicate OrderlyRun(s: State, es: seq<Event>)
    requires Runs(s, es)
    decreases |es|
  {
    es == [] || (Orderly(s, es[0]) && OrderlyRun(Apply(s, es[0]), es[1..]))
  }

  /** One poll under way per gateway at most, and what it read is still the front of the queue. */
  predicate PollsAtFront(s: State) {
    && (forall p | p in s.polls :: s.polls[p].ids <= Pending(s.rows, s.polls[p].gateway))
    && (forall p, q | p in s.polls && q in s.polls && p != q :: s.polls[p].gateway != s.polls[q].gateway)
  }

  lemma PollsAtFrontPreserved(s: State, e: Event)
    requires PollsAtFront(s) && PollsOwn(s) && Enabled(s, e) && Orderly(s, e)
    ensures PollsAtFront(Apply(s, e))
  {
    var t := Apply(s, e);
    forall q | q in t.polls ensures t.polls[q].ids <= Pending(t.rows, t.polls[q].gateway) {
      var g := t.polls[q].gateway;
      match e
      case Enqueue(h, command) => EnqueuePushes(s, h, command, g);
      case PollReads(p, h) =>
      case PollMarks(p) => MarkOfOther(s.rows, s.polls[p].ids, s.polls[p].gateway, g);
      case Acknowledge(id, success) => SameAnswer(t.rows, s.rows, PendingOf(g));
    }
  }

  /** An orderly agent's steps are of neither kind. */
  lemma {:induction false} OrderlyRunsKeep(s: State, es: seq<Event>, g: nat)
    requires PollsOwn(s) && PollsAtFront(s) && Runs(s, es) && OrderlyRun(s, es)
    ensures KeepsRun(s, es, g)
    decreases |es|
  {
    if es != [] {
      if es[0].Acknowledge? {
        WhereMembers(s.rows, PendingOf(g));
      }
      PollsOwnPreserved(s, es[0]);
      PollsAtFrontPreserved(s, es[0]);
      OrderlyRunsKeep(Apply(s, es[0]), es[1..], g);
    }
  }

  lemma {:induction false} ConservedAtTheEnd(s: State, es: seq<Event>, g: nat)
    requires Runs(s, es) && ConservedThroughout(s, es, g)
    ensures Conserved(Run(s, es), g)
    decreases |es|
  {
    if es != [] {
      ConservedAtTheEnd(Apply(s, es[0]), es[1..], g);
    }
  }

  lemma QueueAlways(s: State, es: seq<Event>, g: nat)
    requires Conserved(s, g) && PollsOwn(s) && PollsAtFront(s) && Runs(s, es) && OrderlyRun(s, es)
    ensures ConservedThroughout(s, es, g) && Conserved(Run(s, es), g)
  {
    OrderlyRunsKeep(s, es, g);
    ConservedExactlyWhenKept(s, es, g);
    ConservedAtTheEnd(s, es, g);
  }

  /**
   * Whatever the other gateways do, the polls of one gateway return a prefix of its commands in
   * creation order, each once.
   */
  lemma PollsReturnAPrefix(es: seq<Event>, g: nat)
    requires Runs(Init(), es) && OrderlyRun(Init(), es)
    ensures var t := Run(Init(), es);
      && Delivered(t.delivered, g) <= Enqueued(t.rows, g)
      && Ascending(Delivered(t.delivered, g))
      && (forall i | i in Delivered(t.delivered, g) :: i < |t.rows| && t.rows[i].status != PENDING)
  {
    var t := Run(Init(), es);
    QueueAlways(Init(), es, g);
    WhereMembers(t.rows, Of(g));
    WhereMembers(t.rows, PendingOf(g));
    var d, q := Delivered(t.delivered, g), Pending(t.rows, g);
    forall k | 0 <= k < |d|
      ensures d[k] < |t.rows| && t.rows[d[k]].status != PENDING
    {
      assert (d + q)[k] == d[k];
      assert d[k] in Enqueued(t.rows, g);
      forall j | 0 <= j < |q| ensures q[j] != d[k] {
        assert (d + q)[|d| + j] == q[j];
      }
    }
    assert Ascending(d) by {
      forall i, j | 0 <= i < j < |d| ensures d[i] < d[j] {
        assert (d + q)[i] == d[i] && (d + q)[j] == d[j];
      }
    }
  }

  /** Once delivered, a command is never PENDING again, in any run at all. */
  lemma {:induction false} NeverPendingAgain(s: State, i: nat, es: seq<Event>)
    requires i < |s.rows| && s.rows[i].status != PENDING && Runs(s, es)
    ensures i < |Run(s, es).rows| && Run(s, es).rows[i].status != PENDING
    decreases |es|
  {
    if es != [] {
      NeverPendingAgain(Apply(s, es[0]), i, es[1..]);
    }
  }

  lemma OneStep(s: State, e: Event)
    ensures Runs(s, [e]) <==> Enabled(s, e)
    ensures Enabled(s, e) ==> Run(s, [e]) == Apply(s, e)
  {
    assert [e][1..] == [];
  }

  /** The steps `es`, every one enabled, lead from `s` to `t`. */
  predicate Goes(s: State, es: seq<Event>, t: State) { Runs(s, es) && t == Run(s, es) }

  lemma {:induction false} Go(s0: State, es: seq<Event>, s: State, e: Event) returns (es': seq<Event>, t: State)
    requires Goes(s0, es, s) && Enabled(s, e)
    ensures es' == es + [e] && t == Apply(s, e) && Goes(s0, es', t)
    decreases |es|
  {
    es', t := es + [e], Apply(s, e);
    if es == [] {
      assert es'[1..] == [];
    } else {
      assert es'[1..] == es[1..] + [e];
      var _, _ := Go(Apply(s0, es[0]), es[1..], s, e);
    }
  }

  lemma SingleRow(row: Row, test: Row -> bool)
    ensures Where([row], test) == if test(row) then [0] else []
  {
    assert [row][..0] == [];
  }

  /** One command, enqueued. */
  lemma OneWaits(g: nat, command: string) returns (es: seq<Event>, s: State)
    ensures es == [Enqueue(g, command)] && Goes(Init(), es, s) && s == State([Row(g, command, PENDING)], map[], [])
    ensures Pending(s.rows, g) == [0]
  {
    es, s := Go(Init(), [], Init(), Enqueue(g, command));
    SingleRow(s.rows[0], PendingOf(g));
  }

  /** With one row, what was delivered and waits is not what was enqueued. */
  lemma OneRowBroken(s: State, g: nat)
    requires |s.rows| == 1 && s.rows[0].gateway == g && s.rows[0].status != PENDING && Delivered(s.delivered, g) != [0]
    ensures Pending(s.rows, g) == [] && Enqueued(s.rows, g) == [0] && !Conserved(s, g)
  {
    assert s.rows == [s.rows[0]];
    SingleRow(s.rows[0], PendingOf(g));
    SingleRow(s.rows[0], Of(g));
    assert Delivered(s.delivered, g) + [] == Delivered(s.delivered, g);
  }

  /** Two polls read the one command. */
  lemma BothRead(g: nat, command: string) returns (es: seq<Event>, s: State)
    ensures es == [Enqueue(g, command)] + [PollReads(0, g)] + [PollReads(1, g)] && Goes(Init(), es, s)
    ensures s == State([Row(g, command, PENDING)], map[0 := Poll(g, [0]), 1 := Poll(g, [0])], [])
  {
    es, s := OneWaits(g, command);
    es, s := Go(Init(), es, s, PollReads(0, g));
    es, s := Go(Init(), es, s, PollReads(1, g));
  }

  /** Two polls that overlap are both given the one command. */
  lemma OverlappingPollsDeliverTwice(g: nat, command: string) returns (s: State)
    ensures var es := [Enqueue(g, command)] + [PollReads(0, g)] + [PollReads(1, g)] + [PollMarks(0)] + [PollMarks(1)];
      Goes(Init(), es, s)
    ensures s.delivered == [(g, 0), (g, 0)] && !Conserved(s, g)
  {
    var es;
    es, s := BothRead(g, command);
    es, s := Go(Init(), es, s, PollMarks(0));
    assert s.delivered == [(g, 0)] && s.polls == map[1 := Poll(g, [0])];
    es, s := Go(Init(), es, s, PollMarks(1));
    DeliveredReturns([], [0, 0], g, g);
    assert s.delivered == [] + Returns([0, 0], g);
    OneRowBroken(s, g);
  }

  /** A command acknowledged before any poll read it waits for none and is given to none. */
  lemma EarlyAcknowledgementLoses(g: nat, command: string, success: bool) returns (s: State)
    ensures Goes(Init(), [Enqueue(g, command)] + [Acknowledge(0, success)], s)
    ensures s.delivered == [] && Pending(s.rows, g) == [] && Enqueued(s.rows, g) == [0] && !Conserved(s, g)
  {
    var es;
    es, s := OneWaits(g, command);
    es, s := Go(Init(), es, s, Acknowledge(0, success));
    OneRowBroken(s, g);
  }

  // ---- The service.

  /** Exactly the gateway's pending rows were polled, oldest first, and they have become DELIVERED. */
  ghost predicate PolledRows(before: seq<Row>, after: seq<Row>, ids: seq<nat>, g: nat) {
    && (forall i, j | 0 <= i < j < |ids| :: ids[i] < ids[j])
    && (forall i :: i in ids <==> 0 <= i < |before| && before[i].gateway == g && before[i].status == PENDING)
    && |after| == |before|
    && forall i | 0 <= i < |before| :: after[i] ==
         if before[i].gateway == g && before[i].status == PENDING then before[i].(status := DELIVERED) else before[i]
  }

  lemma PollOnRows(rows: seq<Row>, g: nat)
    ensures PolledRows(rows, Mark(rows, Pending(rows, g)), Pending(rows, g), g)
    ensures Pending(rows, g) == [] ==> Mark(rows, Pending(rows, g)) == rows
  {
    WhereMembers(rows, PendingOf(g));
  }

  class RouterCommandService {
    var rows: seq<Row>
    ghost var delivered: seq<(nat, nat)>

    constructor ()
      ensures View() == Init()
    {
      rows := [];
      delivered := [];
    }

    ghost function View(): State
      reads this
    {
      State(rows, map[], delivered)
    }

    method EnqueueCommand(gateway: nat, command: string) returns (id: nat)
      modifies this
      ensures View() == Apply(old(View()), Enqueue(gateway, command)) && id == |old(rows)|
      ensures rows == old(rows) + [Row(gateway, command, PENDING)]
    {
      id := |rows|;
      rows := rows + [Row(gateway, command, PENDING)];
    }

    method FindPending(gateway: nat) returns (ids: seq<nat>)
      ensures ids == Pending(rows, gateway)
    {
      ids := [];
      for i := 0 to |rows|
        invariant ids == Pending(rows[..i], gateway)
      {
        assert rows[..i + 1][..i] == rows[..i];
        if rows[i].gateway == gateway && rows[i].status == PENDING {
          ids := ids + [i];
        }
      }
      assert rows[..|rows|] == rows;
    }

    /** A poll with nothing in between returns everything pending, oldest first, and leaves nothing pending. */
    method GetPendingCommands(gateway: nat) returns (commands: seq<nat>)
      modifies this
      ensures commands == Pending(old(rows), gateway)
      ensures var es := [PollReads(0, gateway), PollMarks(0)];
        Runs(old(View()), es) && View() == Run(old(View()), es)
      ensures Pending(rows, gateway) == []
      // On the rows: exactly the gateway's pending commands, in creation order, become DELIVERED.
      ensures PolledRows(old(rows), rows, commands, gateway)
    {
      commands := FindPending(gateway);
      PollOnRows(rows, gateway);
      ghost var s := View();
      ghost var t := Apply(s, PollReads(0, gateway));
      assert t.polls - {0} == map[];
      assert [PollReads(0, gateway), PollMarks(0)][1..] == [PollMarks(0)];
      OneStep(t, PollMarks(0));
      MarkPops(rows, commands, gateway);
      if |commands| == 0 {
        assert Mark(rows, []) == rows && delivered + Returns([], gateway) == delivered;
        return;
      }
      rows := Mark(rows, commands);
      delivered := delivered + Returns(commands, gateway);
    }

    method AcknowledgeCommand(gateway: nat, id: nat, success: bool) returns (r: Result<Row>)
      modifies this
      ensures
        if id >= |old(rows)| then r == Err(NotFound) && View() == old(View())
        else if old(rows)[id].gateway != gateway then r == Err(Forbidden) && View() == old(View())
        else View() == Apply(old(View()), Acknowledge(id, success)) && r == Ok(rows[id])
      ensures r.Ok? ==> rows == old(rows)[id := old(rows)[id].(status := if success then ACKNOWLEDGED else FAILED)]
    {
      if id >= |rows| {
        return Err(NotFound);
      }
      if rows[id].gateway != gateway {
        return Err(Forbidden);
      }
      rows := rows[id := rows[id].(status := if success then ACKNOWLEDGED else FAILED)];
      r := Ok(rows[id]);
    }
  }
}
