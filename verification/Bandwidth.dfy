/** Layered bandwidth limits: one batched query for a gateway, resolved per device through an insertion-ordered map. */
module Bandwidth {
  import opened Common
  import opened DnsPolicy

  /** A row with both scopes set counts as device-scoped; `create` never makes one. */
  datatype Limit = Limit(
    deviceId: Option<nat>, childId: Option<nat>, category: Option<Category>,
    downloadKbps: Option<nat>, uploadKbps: Option<nat>, enabled: bool)

  /** The columns the resolution reads of a device. */
  datatype Owner = Owner(id: nat, childId: Option<nat>)

  datatype Resolved = Resolved(category: Option<Category>, downloadKbps: Option<nat>, uploadKbps: Option<nat>)

  /** A JavaScript `Map` keyed by category: setting an existing key keeps its place. */
  type Buckets = seq<Limit>

  /** Null categories share the default bucket. */
  function Set(m: Buckets, limit: Limit): Buckets {
    if m == [] then [limit]
    else if m[0].category == limit.category then [limit] + m[1..]
    else [m[0]] + Set(m[1..], limit)
  }

  function SetAll(m: Buckets, limits: seq<Limit>): Buckets {
    if limits == [] then m else Set(SetAll(m, limits[..|limits| - 1]), limits[|limits| - 1])
  }

  predicate ChildScoped(d: Owner, l: Limit) { l.childId.Some? && l.deviceId.None? && l.childId == d.childId }
  predicate DeviceScoped(d: Owner, l: Limit) { l.deviceId == Some(d.id) }

  function ChildTest(d: Owner): Limit -> bool { l => ChildScoped(d, l) }
  function DeviceTest(d: Owner): Limit -> bool { l => DeviceScoped(d, l) }

  function ChildRows(d: Owner, limits: seq<Limit>): seq<Limit> { Filter(limits, ChildTest(d)) }
  function DeviceRows(d: Owner, limits: seq<Limit>): seq<Limit> { Filter(limits, DeviceTest(d)) }

  /** What the two loops build: child-scoped rows first, device-scoped rows over them. */
  function BucketsFor(d: Owner, limits: seq<Limit>): Buckets {
    SetAll(SetAll([], ChildRows(d, limits)), DeviceRows(d, limits))
  }

  function ToResolved(m: Buckets): seq<Resolved> {
    seq(|m|, i requires 0 <= i < |m| => Resolved(m[i].category, m[i].downloadKbps, m[i].uploadKbps))
  }

  function Resolve(d: Owner, limits: seq<Limit>): seq<Resolved> { ToResolved(BucketsFor(d, limits)) }

  lemma SetAllSnoc(m: Buckets, limits: seq<Limit>, l: Limit)
    ensures SetAll(m, limits + [l]) == Set(SetAll(m, limits), l)
  {
    assert (limits + [l])[..|limits|] == limits;
  }

  lemma FilterSnoc(s: seq<Limit>, i: nat, p: Limit -> bool)
    requires i < |s|
    ensures Filter(s[..i + 1], p) == Filter(s[..i], p) + if p(s[i]) then [s[i]] else []
  {
    assert s[..i + 1] == s[..i] + [s[i]];
    FilterConcat(s[..i], [s[i]], p);
  }

  /** The two loops of the resolution over the given rows. */
  method ResolveBandwidthLimits(device: Owner, allLimits: seq<Limit>) returns (r: seq<Resolved>)
    ensures r == Resolve(device, allLimits)
  {
    var byCategory: Buckets := [];
    for i := 0 to |allLimits|
      invariant byCategory == SetAll([], ChildRows(device, allLimits[..i]))
    {
      var limit := allLimits[i];
      FilterSnoc(allLimits, i, ChildTest(device));
      if limit.childId.Some? && limit.deviceId.None? && limit.childId == device.childId {
        SetAllSnoc([], ChildRows(device, allLimits[..i]), limit);
        byCategory := Set(byCategory, limit);
      } else {
        assert ChildRows(device, allLimits[..i + 1]) == ChildRows(device, allLimits[..i]);
      }
    }
    assert allLimits[..|allLimits|] == allLimits;
    ghost var layer := byCategory;
    for i := 0 to |allLimits|
      invariant byCategory == SetAll(layer, DeviceRows(device, allLimits[..i]))
    {
      var limit := allLimits[i];
      FilterSnoc(allLimits, i, DeviceTest(device));
      if limit.deviceId == Some(device.id) {
        SetAllSnoc(layer, DeviceRows(device, allLimits[..i]), limit);
        byCategory := Set(byCategory, limit);
      } else {
        assert DeviceRows(device, allLimits[..i + 1]) == DeviceRows(device, allLimits[..i]);
      }
    }
    assert allLimits[..|allLimits|] == allLimits;
    r := ToResolved(byCategory);
  }

  /** A row by itself counts for its own device, or for the devices of its child when it names no device. */
  lemma OneRowCounts(d: Owner, l: Limit)
    ensures Resolve(d, [l]) ==
      if l.deviceId == Some(d.id) || (l.deviceId == None && l.childId.Some? && l.childId == d.childId)
      then [Resolved(l.category, l.downloadKbps, l.uploadKbps)] else []
  {
    FilterOne(l, ChildTest(d));
    FilterOne(l, DeviceTest(d));
    SetOne(l);
  }

  lemma FilterOne(l: Limit, p: Limit -> bool)
    ensures Filter([l], p) == if p(l) then [l] else []
  {
    assert [l][1..] == [];
  }

  lemma SetOne(l: Limit)
    ensures forall m: Buckets :: SetAll(m, []) == m
    ensures SetAll([], [l]) == [l]
  {
    assert [l][..0] == [];
    assert SetAll([], []) == [];
  }

  // ---- The batched query.

  /** The `where` clause: enabled, and scoped to one of the gateway's devices or to one of their children. */
  predicate InBatch(devices: seq<Owner>, l: Limit) {
    && l.enabled
    && ((l.deviceId.Some? && exists d :: d in devices && d.id == l.deviceId.value)
        || (l.childId.Some? && exists d :: d in devices && d.childId == l.childId))
  }

  /** One query; its rows resolve each of the devices as the whole table's enabled rows would. */
  method LoadBandwidthLimits(devices: seq<Owner>, table: seq<Limit>) returns (r: seq<Limit>)
    ensures forall d | d in devices :: Resolve(d, r) == Resolve(d, Filter(table, (l: Limit) => l.enabled))
    ensures devices == [] ==> r == []
  {
    if |devices| == 0 {
      return [];
    }
    r := Filter(table, (l: Limit) => InBatch(devices, l));
    forall d | d in devices ensures Resolve(d, r) == Resolve(d, Filter(table, (l: Limit) => l.enabled)) {
      BatchedQueryIsExact(devices, table, d);
    }
  }

  /** The bandwidth part of a gateway's policies: each device gets what all enabled rows resolve to for it. */
  method BandwidthOfDevices(devices: seq<Owner>, table: seq<Limit>) returns (r: seq<seq<Resolved>>)
    ensures |r| == |devices|
    ensures forall i | 0 <= i < |devices| :: r[i] == Resolve(devices[i], Filter(table, (l: Limit) => l.enabled))
  {
    var bandwidthLimits := LoadBandwidthLimits(devices, table);
    r := [];
    for i := 0 to |devices|
      invariant |r| == i
      invariant forall j | 0 <= j < i :: r[j] == Resolve(devices[j], Filter(table, (l: Limit) => l.enabled))
    {
      assert devices[i] in devices;
      var resolved := ResolveBandwidthLimits(devices[i], bandwidthLimits);
      r := r + [resolved];
    }
  }

  /** One batched query serves every device of the gateway as its own query over all enabled rows would. */
  lemma BatchedQueryIsExact(devices: seq<Owner>, table: seq<Limit>, d: Owner)
    requires d in devices
    ensures Resolve(d, Filter(table, (l: Limit) => InBatch(devices, l))) == Resolve(d, Filter(table, (l: Limit) => l.enabled))
  {
    var batch, enabled := (l: Limit) => InBatch(devices, l), (l: Limit) => l.enabled;
    SameRows(table, batch, enabled, ChildTest(d));
    SameRows(table, batch, enabled, DeviceTest(d));
  }

  /** Two filters that agree on the rows `keep` picks give the same picks. */
  lemma {:induction false} SameRows(table: seq<Limit>, p: Limit -> bool, q: Limit -> bool, keep: Limit -> bool)
    requires forall l | keep(l) :: p(l) == q(l)
    ensures Filter(Filter(table, p), keep) == Filter(Filter(table, q), keep)
  {
    if table != [] {
      var l := table[0];
      SameRows(table[1..], p, q, keep);
      FilterConcat(if p(l) then [l] else [], Filter(table[1..], p), keep);
      FilterConcat(if q(l) then [l] else [], Filter(table[1..], q), keep);
    }
  }

  // ---- The precedence rule.

  /** The last row for a category. */
  function LastFor(rows: seq<Limit>, c: Option<Category>): Option<Limit> {
    if rows == [] then None
    else if rows[|rows| - 1].category == c then Some(rows[|rows| - 1])
    else LastFor(rows[..|rows| - 1], c)
  }

  predicate DistinctCategories(m: Buckets) {
    forall i, j | 0 <= i < j < |m| :: m[i].category != m[j].category
  }

  function Lookup(m: Buckets, c: Option<Category>): Option<Limit> {
    if m == [] then None else if m[0].category == c then Some(m[0]) else Lookup(m[1..], c)
  }

  lemma {:induction false} SetIsPut(m: Buckets, l: Limit)
    requires DistinctCategories(m)
    ensures DistinctCategories(Set(m, l))
    ensures forall c :: Lookup(Set(m, l), c) == if c == l.category then Some(l) else Lookup(m, c)
    ensures forall x | x in Set(m, l) :: x == l || x in m
  {
    if m != [] && m[0].category != l.category {
      SetIsPut(m[1..], l);
      var rest := Set(m[1..], l);
      assert forall x | x in rest :: x == l || x in m[1..];
      assert forall i | 0 <= i < |rest| :: rest[i] in rest;
    }
  }

  /** A category already there keeps its place, a new one goes last. */
  lemma {:induction false} SetKeepsPlaces(m: Buckets, l: Limit)
    ensures (forall b | b in m :: b.category != l.category) ==> Set(m, l) == m + [l]
    ensures (exists b :: b in m && b.category == l.category) ==>
      |Set(m, l)| == |m| && forall i | 0 <= i < |m| :: Set(m, l)[i].category == m[i].category
  {
    if m != [] && m[0].category != l.category {
      SetKeepsPlaces(m[1..], l);
      assert m == [m[0]] + m[1..];
    }
  }

  lemma {:induction false} SetAllIsLast(m: Buckets, rows: seq<Limit>)
    requires DistinctCategories(m)
    ensures DistinctCategories(SetAll(m, rows))
    ensures forall c :: Lookup(SetAll(m, rows), c) == if LastFor(rows, c).Some? then LastFor(rows, c) else Lookup(m, c)
  {
    if rows != [] {
      SetAllIsLast(m, rows[..|rows| - 1]);
      SetIsPut(SetAll(m, rows[..|rows| - 1]), rows[|rows| - 1]);
    }
  }

  lemma {:induction false} LookupFinds(m: Buckets, c: Option<Category>)
    requires DistinctCategories(m)
    ensures forall i | 0 <= i < |m| :: Lookup(m, m[i].category) == Some(m[i])
    ensures Lookup(m, c).Some? ==> exists i :: 0 <= i < |m| && m[i].category == c
  {
    if m != [] {
      LookupFinds(m[1..], c);
      if m[0].category != c && Lookup(m[1..], c).Some? {
        var i :| 0 <= i < |m[1..]| && m[1..][i].category == c;
        assert m[i + 1].category == c;
      }
      forall i | 0 < i < |m| ensures Lookup(m, m[i].category) == Some(m[i]) {
        assert m[1..][i - 1] == m[i];
      }
    }
  }

  /** The row that decides a category: the device's last row for it, otherwise the child's last row for it. */
  function Winner(d: Owner, limits: seq<Limit>, c: Option<Category>): Option<Limit> {
    if LastFor(DeviceRows(d, limits), c).Some? then LastFor(DeviceRows(d, limits), c)
    else LastFor(ChildRows(d, limits), c)
  }

  /** The resolved list holds each category at most once, exactly those with a row, with the winning row's limits. */
  lemma DeviceRowsOverrideChildRows(d: Owner, limits: seq<Limit>, c: Option<Category>)
    ensures var r := Resolve(d, limits);
      && (forall i, j | 0 <= i < j < |r| :: r[i].category != r[j].category)
      && (Winner(d, limits, c).Some? <==> exists i :: 0 <= i < |r| && r[i].category == c)
      && (forall i | 0 <= i < |r| && r[i].category == c ::
            var w := Winner(d, limits, c);
            w.Some? && r[i].downloadKbps == w.value.downloadKbps && r[i].uploadKbps == w.value.uploadKbps)
  {
    var m, r := BucketsFor(d, limits), Resolve(d, limits);
    SetAllIsLast([], ChildRows(d, limits));
    SetAllIsLast(SetAll([], ChildRows(d, limits)), DeviceRows(d, limits));
    LookupFinds(m, c);
    if i :| 0 <= i < |m| && m[i].category == c {
      assert r[i].category == c;
    }
  }
}
