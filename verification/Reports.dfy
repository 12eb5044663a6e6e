/** Report windows over days of fixed length, daily buckets, and the per-child breakdown. */
module Reports {
  import opened Common
  import opened Sessions

  // ---- Windows.

  datatype Range = Range(start: int, end: int, days: int)

  function Max(a: int, b: int): int { if a < b then b else a }

  /** Local midnight; every day lasts DAY_MS. */
  function StartOfDay(t: int): int { t - t % DAY_MS }

  /** A window of `days` days that ends with today, shifted back by whole windows. */
  function RangeAt(now: int, days: int, offset: int): Range {
    var safeDays := Max(1, days);
    var end := StartOfDay(now) + DAY_MS - safeDays * Max(0, offset) * DAY_MS;
    Range(end - safeDays * DAY_MS, end, safeDays)
  }

  method ResolveRange(now: int, days: int, offset: int) returns (r: Range)
    ensures r == RangeAt(now, days, offset)
  {
    var safeDays, safeOffset := Max(1, days), Max(0, offset);
    var end := StartOfDay(now);
    end := end + (1 - safeDays * safeOffset) * DAY_MS;
    var start := end;
    start := start - safeDays * DAY_MS;
    r := Range(start, end, safeDays);
  }

  /** A day starts at a multiple of its length and holds its instants; a window has at least a day, an offset is never negative. */
  lemma DaysAndOffsets(now: int, days: int, offset: int)
    ensures StartOfDay(now) <= now < StartOfDay(now) + DAY_MS && StartOfDay(now) % DAY_MS == 0
    ensures RangeAt(now, days, offset).days == if days < 1 then 1 else days
    ensures RangeAt(now, days, offset).end - RangeAt(now, days, offset).start == RangeAt(now, days, offset).days * DAY_MS
    ensures offset < 0 ==> RangeAt(now, days, offset) == RangeAt(now, days, 0)
  {
  }

  predicate In(t: int, r: Range) { r.start <= t < r.end }

  /** The window that holds an instant, counted back from the present one. */
  function OffsetOf(now: int, days: int, t: int): int {
    (StartOfDay(now) + DAY_MS - 1 - t) / (Max(1, days) * DAY_MS)
  }

  lemma QuotientIs(x: int, n: int, k: int)
    requires n > 0
    ensures x / n == k <==> n * k <= x < n * k + n
  {
    var q, r := x / n, x % n;
    assert x == n * q + r && 0 <= r < n;
    if q > k {
      MulApart(n, q, k);
    } else if q < k {
      MulApart(n, k, q);
    }
  }

  lemma {:induction false} MulApart(n: int, a: int, b: int)
    requires n > 0 && a > b
    ensures n * a >= n * b + n
    decreases a - b
  {
    assert n * a == n * (a - 1) + n;
    if a > b + 1 {
      MulApart(n, a - 1, b);
    }
  }

  lemma QuotientNonNegative(x: int, n: int)
    requires n > 0 && x >= 0
    ensures x / n >= 0
  {
  }

  lemma RangeEnd(now: int, days: int, offset: nat)
    ensures RangeAt(now, days, offset).end == StartOfDay(now) + DAY_MS - (Max(1, days) * DAY_MS) * offset
  {
    var d := Max(1, days);
    assert d * offset * DAY_MS == (d * DAY_MS) * offset;
  }

  /** Each window ends where the one before it starts. */
  lemma WindowsAreAdjacent(now: int, days: int, offset: nat)
    ensures RangeAt(now, days, offset + 1).end == RangeAt(now, days, offset).start
  {
    var d := Max(1, days);
    assert d * (offset + 1) == d * offset + d;
  }

  /** The present window ends with the day: it holds `now` and nothing from tomorrow on. */
  lemma PresentWindow(now: int, days: int)
    ensures In(now, RangeAt(now, days, 0))
    ensures RangeAt(now, days, 0).end == StartOfDay(now) + DAY_MS
  {
  }

  /** Every instant before tomorrow lies in exactly one window. */
  lemma ExactlyOneWindow(now: int, days: int, t: int, offset: nat)
    requires t < StartOfDay(now) + DAY_MS
    ensures OffsetOf(now, days, t) >= 0
    ensures In(t, RangeAt(now, days, offset)) <==> offset == OffsetOf(now, days, t)
  {
    var n := Max(1, days) * DAY_MS;
    RangeEnd(now, days, offset);
    QuotientNonNegative(StartOfDay(now) + DAY_MS - 1 - t, n);
    QuotientIs(StartOfDay(now) + DAY_MS - 1 - t, n, offset);
  }

  // ---- Totals.

  /** The columns a report selects. */
  datatype Item = Item(at: int, minutes: int, childId: nat)

  function Total(items: seq<Item>, keep: Item -> bool): int {
    if items == [] then 0
    else
      var n := |items| - 1;
      Total(items[..n], keep) + if keep(items[n]) then items[n].minutes else 0
  }

  function All(): Item -> bool { (i: Item) => true }
  function Within(r: Range): Item -> bool { (i: Item) => In(i.at, r) }
  function OfChild(c: nat): Item -> bool { (i: Item) => i.childId == c }

  /** Day number `d` of a window. */
  function Day(r: Range, d: int): Range { Range(r.start + d * DAY_MS, r.start + (d + 1) * DAY_MS, 1) }

  lemma {:induction false} TotalSplits(items: seq<Item>, a: Item -> bool, b: Item -> bool, both: Item -> bool)
    requires forall i | i in items :: both(i) == (a(i) || b(i)) && !(a(i) && b(i))
    ensures Total(items, both) == Total(items, a) + Total(items, b)
  {
    if items != [] {
      TotalSplits(items[..|items| - 1], a, b, both);
    }
  }

  lemma {:induction false} TotalAgrees(items: seq<Item>, a: Item -> bool, b: Item -> bool)
    requires forall i | i in items :: a(i) == b(i)
    ensures Total(items, a) == Total(items, b)
  {
    if items != [] {
      TotalAgrees(items[..|items| - 1], a, b);
    }
  }

  /** The windows 0 to `k` - 1 together hold what lies between the start of the last and tomorrow. */
  function WindowTotals(items: seq<Item>, now: int, days: int, k: nat): int {
    if k == 0 then 0
    else WindowTotals(items, now, days, k - 1) + Total(items, Within(RangeAt(now, days, k - 1)))
  }

  lemma {:induction false} WindowsAddUp(items: seq<Item>, now: int, days: int, k: nat)
    ensures WindowTotals(items, now, days, k)
         == Total(items, Within(Range(RangeAt(now, days, k).end, RangeAt(now, days, 0).end, 1)))
  {
    var whole := Range(RangeAt(now, days, k).end, RangeAt(now, days, 0).end, 1);
    if k == 0 {
      NothingWithin(items, whole);
    } else {
      WindowsAddUp(items, now, days, k - 1);
      WindowsAreAdjacent(now, days, k - 1);
      RangeEnd(now, days, k - 1);
      var later := Range(RangeAt(now, days, k - 1).end, RangeAt(now, days, 0).end, 1);
      assert later.start <= later.end by {
        assert (Max(1, days) * DAY_MS) * (k - 1) >= 0;
      }
      TotalSplits(items, Within(later), Within(RangeAt(now, days, k - 1)), Within(whole));
    }
  }

  lemma {:induction false} NothingWithin(items: seq<Item>, r: Range)
    requires r.start >= r.end
    ensures Total(items, Within(r)) == 0
  {
    if items != [] {
      NothingWithin(items[..|items| - 1], r);
    }
  }

  // ---- Daily buckets.

  function Sum(values: seq<int>): int {
    if values == [] then 0 else Sum(values[..|values| - 1]) + values[|values| - 1]
  }

  /** The bucket loop puts every item of the window into the bucket of its day and ignores the others. */
  method BucketDaily(items: seq<Item>, range: Range) returns (daily: seq<int>)
    requires range.days >= 1
    ensures |daily| == range.days
    ensures forall d | 0 <= d < range.days :: daily[d] == Total(items, Within(Day(range, d)))
  {
    var buckets := new int[range.days](_ => 0);
    for i := 0 to |items|
      invariant forall d | 0 <= d < range.days :: buckets[d] == Total(items[..i], Within(Day(range, d)))
    {
      var item := items[i];
      assert items[..i + 1][..i] == items[..i];
      var idx := (item.at - range.start) / DAY_MS;
      if 0 <= idx < range.days {
        buckets[idx] := buckets[idx] + item.minutes;
      }
    }
    assert items[..|items|] == items;
    daily := buckets[..];
  }

  /** The first `k` days of a window. */
  function FirstDays(r: Range, k: int): Range { Range(r.start, r.start + k * DAY_MS, k) }

  /** The buckets add up to the minutes of the whole window. */
  lemma {:induction false} BucketsAddUp(items: seq<Item>, range: Range, daily: seq<int>)
    requires forall d | 0 <= d < |daily| :: daily[d] == Total(items, Within(Day(range, d)))
    ensures Sum(daily) == Total(items, Within(FirstDays(range, |daily|)))
  {
    if daily == [] {
      NothingWithin(items, FirstDays(range, 0));
    } else {
      var n := |daily| - 1;
      BucketsAddUp(items, range, daily[..n]);
      TotalSplits(items, Within(FirstDays(range, n)), Within(Day(range, n)), Within(FirstDays(range, n + 1)));
    }
  }

  // ---- The per-child breakdown.

  datatype Entry = Entry(childId: nat, name: string, screenMinutes: int, sessions: nat)

  /** A JavaScript `Map` keyed by child: a new key goes last, a known one keeps its place. */
  type Breakdown = seq<Entry>

  function Name(names: map<nat, string>, c: nat): string { if c in names then names[c] else "Child" }

  function Add(m: Breakdown, item: Item, names: map<nat, string>): Breakdown {
    if m == [] then [Entry(item.childId, Name(names, item.childId), item.minutes, 1)]
    else if m[0].childId == item.childId then
      [m[0].(screenMinutes := m[0].screenMinutes + item.minutes, sessions := m[0].sessions + 1)] + m[1..]
    else [m[0]] + Add(m[1..], item, names)
  }

  /** `get(key)`, a missing key being an entry of zeros. */
  function Get(m: Breakdown, c: nat, names: map<nat, string>): Entry {
    if m == [] then Entry(c, Name(names, c), 0, 0)
    else if m[0].childId == c then m[0] else Get(m[1..], c, names)
  }

  predicate Has(m: Breakdown, c: nat) { exists i :: 0 <= i < |m| && m[i].childId == c }

  function MinutesOf(m: Breakdown): int { if m == [] then 0 else m[0].screenMinutes + MinutesOf(m[1..]) }
  function SessionsOf(m: Breakdown): int { if m == [] then 0 else m[0].sessions + SessionsOf(m[1..]) }

  predicate DistinctChildren(m: Breakdown) { forall i, j | 0 <= i < j < |m| :: m[i].childId != m[j].childId }

  lemma {:induction false} AddIsPut(m: Breakdown, item: Item, names: map<nat, string>, c: nat)
    ensures var g := Get(m, c, names);
      Get(Add(m, item, names), c, names)
      == if c == item.childId then g.(screenMinutes := g.screenMinutes + item.minutes, sessions := g.sessions + 1) else g
    ensures Has(Add(m, item, names), c) <==> Has(m, c) || c == item.childId
  {
    var n := Add(m, item, names);
    if m == [] {
      assert n[0].childId == item.childId;
    } else if m[0].childId == item.childId {
      assert n[1..] == m[1..] && n[0].childId == item.childId;
      HasSplits(m, c);
      HasSplits(n, c);
    } else {
      AddIsPut(m[1..], item, names, c);
      assert n[1..] == Add(m[1..], item, names);
      HasSplits(m, c);
      HasSplits(n, c);
    }
  }

  lemma HasSplits(m: Breakdown, c: nat)
    requires m != []
    ensures Has(m, c) <==> m[0].childId == c || Has(m[1..], c)
  {
    if Has(m, c) {
      var i :| 0 <= i < |m| && m[i].childId == c;
      if i > 0 { assert m[1..][i - 1].childId == c; }
    }
    if Has(m[1..], c) {
      var i :| 0 <= i < |m[1..]| && m[1..][i].childId == c;
      assert m[i + 1].childId == c;
    }
  }

  lemma {:induction false} AddKeepsDistinct(m: Breakdown, item: Item, names: map<nat, string>)
    requires DistinctChildren(m)
    ensures DistinctChildren(Add(m, item, names))
  {
    if m != [] && m[0].childId != item.childId {
      AddKeepsDistinct(m[1..], item, names);
      var n := Add(m, item, names);
      AddIsPut(m[1..], item, names, m[0].childId);
      forall j | 1 <= j < |n| ensures n[j].childId != m[0].childId {
        assert n[j] == Add(m[1..], item, names)[j - 1];
        assert !Has(m[1..], m[0].childId);
      }
    }
  }

  lemma {:induction false} AddAddsUp(m: Breakdown, item: Item, names: map<nat, string>)
    ensures MinutesOf(Add(m, item, names)) == MinutesOf(m) + item.minutes
    ensures SessionsOf(Add(m, item, names)) == SessionsOf(m) + 1
  {
    if m != [] {
      if m[0].childId == item.childId {
        assert Add(m, item, names)[1..] == m[1..];
      } else {
        AddAddsUp(m[1..], item, names);
        assert Add(m, item, names)[1..] == Add(m[1..], item, names);
      }
    }
  }

  function Count(items: seq<Item>, keep: Item -> bool): nat {
    if items == [] then 0
    else
      var n := |items| - 1;
      Count(items[..n], keep) + if keep(items[n]) then 1 else 0
  }

  /** What the map holds after the loop has seen `items`. */
  ghost predicate Tallies(m: Breakdown, items: seq<Item>, names: map<nat, string>) {
    && DistinctChildren(m)
    && (forall c :: Has(m, c) <==> exists i :: 0 <= i < |items| && items[i].childId == c)
    && (forall c :: Get(m, c, names) == Entry(c, Name(names, c), Total(items, OfChild(c)), Count(items, OfChild(c))))
    && MinutesOf(m) == Total(items, All())
    && SessionsOf(m) == |items|
  }

  lemma TalliesSnoc(m: Breakdown, items: seq<Item>, item: Item, names: map<nat, string>)
    requires Tallies(m, items, names)
    ensures Tallies(Add(m, item, names), items + [item], names)
  {
    var all := items + [item];
    assert all[..|items|] == items;
    AddKeepsDistinct(m, item, names);
    AddAddsUp(m, item, names);
    forall c
      ensures Has(Add(m, item, names), c) <==> exists i :: 0 <= i < |all| && all[i].childId == c
      ensures Get(Add(m, item, names), c, names)
           == Entry(c, Name(names, c), Total(all, OfChild(c)), Count(all, OfChild(c)))
    {
      AddIsPut(m, item, names, c);
      if c == item.childId {
        assert all[|items|].childId == c;
      }
      if exists i :: 0 <= i < |items| && items[i].childId == c {
        var i :| 0 <= i < |items| && items[i].childId == c;
        assert all[i].childId == c;
      }
    }
  }

  /** One entry per child that has a session, with that child's minutes and number of sessions. */
  method TallyByChild(items: seq<Item>, names: map<nat, string>) returns (byChild: Breakdown)
    ensures Tallies(byChild, items, names)
    ensures forall e | e in byChild :: e.name == if e.childId in names then names[e.childId] else "Child"
  {
    byChild := [];
    for i := 0 to |items|
      invariant Tallies(byChild, items[..i], names)
    {
      TalliesSnoc(byChild, items[..i], items[i], names);
      assert items[..i + 1] == items[..i] + [items[i]];
      byChild := Add(byChild, items[i], names);
    }
    assert items[..|items|] == items;
    forall e | e in byChild ensures e.name == if e.childId in names then names[e.childId] else "Child" {
      EntryIsGot(byChild, e, names);
    }
  }

  lemma {:induction false} EntryIsGot(m: Breakdown, e: Entry, names: map<nat, string>)
    requires DistinctChildren(m) && e in m
    ensures Get(m, e.childId, names) == e
  {
    if m[0] != e {
      var i :| 0 < i < |m| && m[i] == e;
      assert m[1..][i - 1] == e;
      EntryIsGot(m[1..], e, names);
    }
  }

  // ---- The report.

  /** The session part of a report, before the entries are sorted for display. */
  datatype Report = Report(range: Range, sessionsCount: nat, screenMinutes: int, dailyMinutes: seq<int>, byChild: Breakdown)

  predicate Selected(s: Session, parentId: nat, range: Range, childId: Option<nat>) {
    s.parentId == parentId && In(s.startedAt, range) && (childId.Some? ==> s.childId == childId.value)
  }

  function Select(rows: seq<Session>, parentId: nat, range: Range, childId: Option<nat>): seq<Item> {
    if rows == [] then []
    else
      var n := |rows| - 1;
      Select(rows[..n], parentId, range, childId)
      + if Selected(rows[n], parentId, range, childId)
        then [Item(rows[n].startedAt, rows[n].durationMinutes, rows[n].childId)] else []
  }

  /** The rows of the query, by position: the parent's, in the window, and of the child asked for. */
  function Chosen(rows: seq<Session>, parentId: nat, range: Range, childId: Option<nat>): set<int> {
    set i | 0 <= i < |rows| && rows[i].parentId == parentId && range.start <= rows[i].startedAt < range.end
            && (childId.Some? ==> rows[i].childId == childId.value)
  }

  /** The query selects each of them once, with its start, minutes and child, and nothing else. */
  lemma {:induction false} SelectIsChosen(rows: seq<Session>, parentId: nat, range: Range, childId: Option<nat>)
    ensures |Select(rows, parentId, range, childId)| == |Chosen(rows, parentId, range, childId)|
    ensures forall x :: x in Select(rows, parentId, range, childId) <==>
      exists i | i in Chosen(rows, parentId, range, childId) :: x == Item(rows[i].startedAt, rows[i].durationMinutes, rows[i].childId)
    decreases |rows|
  {
    if rows != [] {
      var n := |rows| - 1;
      var front, row := Chosen(rows[..n], parentId, range, childId), rows[n];
      SelectIsChosen(rows[..n], parentId, range, childId);
      assert Chosen(rows, parentId, range, childId) == front + if Selected(row, parentId, range, childId) then {n} else {};
      assert n !in front;
    }
  }

  lemma {:induction false} SelectedAreWithin(rows: seq<Session>, parentId: nat, range: Range, childId: Option<nat>)
    ensures forall i | i in Select(rows, parentId, range, childId) :: In(i.at, range)
  {
    if rows != [] {
      SelectedAreWithin(rows[..|rows| - 1], parentId, range, childId);
    }
  }

  method FindSessions(rows: seq<Session>, parentId: nat, range: Range, childId: Option<nat>) returns (items: seq<Item>)
    ensures items == Select(rows, parentId, range, childId)
  {
    items := [];
    for i := 0 to |rows|
      invariant items == Select(rows[..i], parentId, range, childId)
    {
      var s := rows[i];
      assert rows[..i + 1][..i] == rows[..i];
      if s.parentId == parentId && range.start <= s.startedAt < range.end && (childId.None? || s.childId == childId.value) {
        items := items + [Item(s.startedAt, s.durationMinutes, s.childId)];
      }
    }
    assert rows[..|rows|] == rows;
  }

  method ScreenMinutes(items: seq<Item>) returns (sum: int)
    ensures sum == Total(items, All())
  {
    sum := 0;
    for i := 0 to |items|
      invariant sum == Total(items[..i], All())
    {
      assert items[..i + 1][..i] == items[..i];
      sum := sum + items[i].minutes;
    }
    assert items[..|items|] == items;
  }

  /**
   * `children` are the parent's children, by id. The daily buckets, the session total and the
   * per-child minutes are the same number of minutes, counted three ways; the per-child counts add
   * up to the number of sessions.
   */
  method Build(days: int, offset: int, parentId: nat, childId: Option<nat>, now: int,
               children: map<nat, string>, rows: seq<Session>) returns (r: Result<Report>)
    ensures r.Err? <==> childId.Some? && childId.value !in children
    ensures r.Err? ==> r.error == Forbidden
    ensures r.Ok? ==>
      var items := Select(rows, parentId, RangeAt(now, days, offset), childId);
      && r.value.range == RangeAt(now, days, offset)
      && r.value.sessionsCount == |items| == |Chosen(rows, parentId, r.value.range, childId)|
      && |r.value.dailyMinutes| == r.value.range.days
      && (forall d | 0 <= d < |r.value.dailyMinutes| ::
            r.value.dailyMinutes[d] == Total(items, Within(Day(r.value.range, d))))
      && Tallies(r.value.byChild, items, children)
      && r.value.screenMinutes == Total(items, All())
      && r.value.screenMinutes == Sum(r.value.dailyMinutes) == MinutesOf(r.value.byChild)
      && SessionsOf(r.value.byChild) == r.value.sessionsCount
  {
    var range := ResolveRange(now, days, offset);
    if childId.Some? && childId.value !in children {
      return Err(Forbidden);
    }
    var items := FindSessions(rows, parentId, range, childId);
    var screenMinutes := ScreenMinutes(items);
    var daily := BucketDaily(items, range);
    var byChild := TallyByChild(items, children);
    r := Ok(Report(range, |items|, screenMinutes, daily, byChild));
    BucketsAddUp(items, range, daily);
    SelectIsChosen(rows, parentId, range, childId);
    SelectedAreWithin(rows, parentId, range, childId);
    TotalAgrees(items, All(), Within(FirstDays(range, range.days)));
  }
}
