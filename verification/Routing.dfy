/** The route table of a sub-device (ipu-isys-subdev.c): a table handed in by user
    space is checked against the fixed topology, folded into per-pad slots and
    stream bitmaps, and later read back from them. */
module Routing {

  /** A route of a user's table; `flags` is 1 for an active route. */
  datatype Route = Route(sinkPad: nat, sinkStream: nat, sourcePad: nat, sourceStream: nat, flags: nat)

  /** A link of the topology with the flags last stored for it. */
  datatype Link = Link(sink: nat, source: nat, flags: nat, immutable: bool)

  const ACTIVE := 1
  const BITMAP_BITS := 32

  /** `counts` are the valid streams of every pad, `ids` its stored stream ids by
      slot, `stat` its enabled streams. */
  datatype Device = Device(nsinks: nat, nsources: nat, counts: seq<nat>, links: seq<Link>, ids: seq<seq<nat>>, stat: seq<set<nat>>)

  datatype Which = Try | Active | OtherWhich

  datatype Status = Ok | Invalid | Rejected | NoMemory | NotApplied

  /** What the parts outside the driver answer: the media core's one-to-one check,
      the allocator, and the core's own update of its state. */
  datatype Env = Env(oneToOne: bool, memory: bool, applied: bool)

  // ---------------------------------------------------------------- topology and slots

  predicate Joins(l: Link, r: Route) { l.sink == r.sinkPad && l.source == r.sourcePad }

  predicate SamePads(r: Route, s: Route) { r.sinkPad == s.sinkPad && r.sourcePad == s.sourcePad }

  predicate GoodLink(d: Device, l: Link) {
    && l.sink < d.nsinks <= l.source < |d.counts|
    && (d.counts[l.sink] > 1 ==> l.source - d.nsinks < d.nsources)
    && (d.counts[l.source] > 1 ==> l.sink < d.nsources)
  }

  /** A device as its driver sets it up: sinks before sources, the links distinct
      and within the slots. */
  ghost predicate Wired(d: Device) {
    && d.nsources > 0 && |d.ids| == |d.stat| == |d.counts|
    && (forall p | 0 <= p < |d.counts| :: 0 < d.counts[p] <= BITMAP_BITS && |d.ids[p]| == d.nsources)
    && (forall j | 0 <= j < |d.links| :: GoodLink(d, d.links[j]))
    && forall j, k | 0 <= j < k < |d.links| :: d.links[j].sink != d.links[k].sink || d.links[j].source != d.links[k].source
  }

  function SinkSlot(d: Device, sink: nat, source: nat): nat
    requires sink < |d.counts| && d.nsinks <= source
  {
    if d.counts[sink] > 1 then source - d.nsinks else 0
  }

  function SourceSlot(d: Device, sink: nat, source: nat): nat
    requires source < |d.counts|
  {
    if d.counts[source] > 1 then sink else 0
  }

  function FindLink(links: seq<Link>, r: Route): (j: nat)
    ensures j <= |links|
    ensures j < |links| ==> Joins(links[j], r)
    ensures forall k | 0 <= k < j :: !Joins(links[k], r)
  {
    if links == [] then 0 else if Joins(links[0], r) then 0 else 1 + FindLink(links[1..], r)
  }

  // ---------------------------------------------------------------- storing a table

  function Store(d: Device, pad: nat, slot: nat, id: nat): Device
    requires pad < |d.ids| && slot < |d.ids[pad]|
  {
    var slots: seq<nat> := d.ids[pad];
    var stored: seq<nat> := slots[slot := id];
    d.(ids := d.ids[pad := stored])
  }

  function Enable(d: Device, pad: nat, stream: nat): Device
    requires pad < |d.stat|
  {
    d.(stat := d.stat[pad := d.stat[pad] + {stream}])
  }

  /** One turn of ipu_isys_subdev_sync_routes, for link `j`. */
  function StoreRoute(d: Device, r: Route, j: nat): Device
    requires Wired(d) && j < |d.links| && Joins(d.links[j], r)
  {
    var d1 := if d.counts[r.sinkPad] > 1 then Store(d, r.sinkPad, SinkSlot(d, r.sinkPad, r.sourcePad), r.sinkStream) else d;
    var d2 := Store(d1, r.sourcePad, SourceSlot(d, r.sinkPad, r.sourcePad), r.sourceStream);
    var d3 := d2.(links := d2.links[j := d2.links[j].(flags := r.flags)]);
    if r.flags == ACTIVE then Enable(Enable(d3, r.sinkPad, r.sinkStream), r.sourcePad, r.sourceStream) else d3
  }

  function Cleared(d: Device): Device { d.(stat := seq(|d.stat|, p => {})) }

  lemma StoreRouteWired(d: Device, r: Route, j: nat)
    requires Wired(d) && j < |d.links| && Joins(d.links[j], r)
    ensures Wired(StoreRoute(d, r, j))
    ensures SameShape(d, StoreRoute(d, r, j))
  {
    var sinkSlot, sourceSlot := SlotsFit(d, r, j);
    hide Store, Enable, Wired, SameShape, GoodLink;
    if d.counts[r.sinkPad] > 1 { StoreWired(d, r.sinkPad, sinkSlot, r.sinkStream); }
    var d1 := if d.counts[r.sinkPad] > 1 then Store(d, r.sinkPad, sinkSlot, r.sinkStream) else d;
    SlotsStay(d, d1, r, j);
    StoreWired(d1, r.sourcePad, sourceSlot, r.sourceStream);
    var d2 := Store(d1, r.sourcePad, sourceSlot, r.sourceStream);
    SlotsStay(d1, d2, r, j);
    FlagsWired(d2, r, j);
    ShapeTrans(d, d1, d2);
  }

  lemma SlotsFit(d: Device, r: Route, j: nat) returns (sinkSlot: nat, sourceSlot: nat)
    requires Wired(d) && j < |d.links| && Joins(d.links[j], r)
    ensures d.nsinks <= r.sourcePad < |d.counts| && r.sinkPad < |d.counts| && |d.ids| == |d.stat| == |d.counts|
    ensures sinkSlot == SinkSlot(d, r.sinkPad, r.sourcePad) < |d.ids[r.sinkPad]|
    ensures sourceSlot == SourceSlot(d, r.sinkPad, r.sourcePad) < |d.ids[r.sourcePad]|
    ensures SameShape(d, d)
  {
    assert GoodLink(d, d.links[j]);
    sinkSlot, sourceSlot := SinkSlot(d, r.sinkPad, r.sourcePad), SourceSlot(d, r.sinkPad, r.sourcePad);
  }

  lemma StoreWired(d: Device, pad: nat, slot: nat, id: nat)
    requires Wired(d) && pad < |d.ids| && slot < |d.ids[pad]|
    ensures Wired(Store(d, pad, slot, id)) && SameShape(d, Store(d, pad, slot, id))
  {}

  lemma SlotsStay(d: Device, e: Device, r: Route, j: nat)
    requires Wired(d) && Wired(e) && SameShape(d, e) && j < |d.links| && Joins(d.links[j], r)
    ensures r.sourcePad < |e.ids| == |e.stat| == |e.counts| && r.sinkPad < |e.ids| && j < |e.links|
    ensures SourceSlot(d, r.sinkPad, r.sourcePad) < |e.ids[r.sourcePad]| && e.counts == d.counts && Joins(e.links[j], r)
  {
    assert GoodLink(d, d.links[j]);
  }

  lemma ShapeTrans(d: Device, e: Device, f: Device)
    requires SameShape(d, e) && SameShape(e, f)
    ensures forall g :: SameShape(f, g) ==> SameShape(d, g)
  {}

  lemma FlagsWired(d: Device, r: Route, j: nat)
    requires Wired(d) && j < |d.links| && r.sinkPad < |d.stat| && r.sourcePad < |d.stat|
    ensures var e := d.(links := d.links[j := d.links[j].(flags := r.flags)]);
            && Wired(e) && SameShape(d, e)
            && Wired(Enable(Enable(e, r.sinkPad, r.sinkStream), r.sourcePad, r.sourceStream))
  {
    var e := d.(links := d.links[j := d.links[j].(flags := r.flags)]);
    FlagsShape(d, e, j);
    EnableWired(e, r.sinkPad, r.sinkStream);
    EnableWired(Enable(e, r.sinkPad, r.sinkStream), r.sourcePad, r.sourceStream);
    hide Wired, SameShape;
  }

  lemma FlagsShape(d: Device, e: Device, j: nat)
    requires Wired(d) && j < |d.links|
    requires exists flags: nat :: e == d.(links := d.links[j := d.links[j].(flags := flags)])
    ensures Wired(e) && SameShape(d, e)
  {}

  lemma EnableWired(d: Device, pad: nat, stream: nat)
    requires Wired(d) && pad < |d.stat|
    ensures Wired(Enable(d, pad, stream))
  {}

  predicate SameShape(d: Device, e: Device) {
    && e.nsinks == d.nsinks && e.nsources == d.nsources && e.counts == d.counts && |e.links| == |d.links|
    && forall j | 0 <= j < |d.links| ::
         && e.links[j].sink == d.links[j].sink && e.links[j].source == d.links[j].source
         && e.links[j].immutable == d.links[j].immutable
  }

  // ---------------------------------------------------------------- reading it back

  function SinkStream(d: Device, l: Link): nat
    requires Wired(d) && GoodLink(d, l)
  {
    if d.counts[l.sink] > 1 then d.ids[l.sink][SinkSlot(d, l.sink, l.source)] else 0
  }

  function SourceStream(d: Device, l: Link): nat
    requires Wired(d) && GoodLink(d, l)
  {
    d.ids[l.source][SourceSlot(d, l.sink, l.source)]
  }

  /** The route ipu_isys_subdev_init_state reads for link `j`. */
  function Stored(d: Device, j: nat): Route
    requires Wired(d) && j < |d.links|
  {
    var l := d.links[j];
    Route(l.sink, SinkStream(d, l), l.source, SourceStream(d, l), l.flags % 2)
  }

  predicate Valid(d: Device, r: Route) {
    && r.flags <= ACTIVE
    && r.sinkPad < |d.counts| && r.sourcePad < |d.counts|
    && r.sinkStream < d.counts[r.sinkPad] && r.sourceStream < d.counts[r.sourcePad]
  }

  /** What is stored is a valid table, and the bitmaps show its active streams. */
  ghost predicate Sound(d: Device) {
    && Wired(d)
    && (forall j | 0 <= j < |d.links| :: d.links[j].flags <= ACTIVE && Valid(d, Stored(d, j)))
  }

  predicate Uses(r: Route, pad: nat, stream: nat) {
    r.flags == ACTIVE && ((r.sinkPad == pad && r.sinkStream == stream) || (r.sourcePad == pad && r.sourceStream == stream))
  }

  lemma StoredNow(d: Device, r: Route, j: nat)
    requires Sound(d) && Valid(d, r) && j < |d.links| && Joins(d.links[j], r)
    ensures Wired(StoreRoute(d, r, j)) && SameShape(d, StoreRoute(d, r, j)) && Stored(StoreRoute(d, r, j), j) == r
  {
    StoreRouteWired(d, r, j);
  }

  /** No two links share a slot that matters. */
  lemma StoredElsewhere(d: Device, r: Route, j: nat, k: nat)
    requires Sound(d) && Valid(d, r) && j < |d.links| && Joins(d.links[j], r)
    requires k < |d.links| && k != j
    ensures Wired(StoreRoute(d, r, j)) && Stored(StoreRoute(d, r, j), k) == Stored(d, k)
  {
    StoreRouteWired(d, r, j);
    var e := StoreRoute(d, r, j);
    assert Valid(d, Stored(d, k));
    assert GoodLink(d, d.links[j]) && GoodLink(d, d.links[k]);
    assert d.links[j].sink != d.links[k].sink || d.links[j].source != d.links[k].source;
    assert SinkStream(e, e.links[k]) == SinkStream(d, d.links[k]);
    assert SourceStream(e, e.links[k]) == SourceStream(d, d.links[k]);
  }

  lemma StoreRouteSound(d: Device, r: Route, j: nat)
    requires Sound(d) && Valid(d, r) && j < |d.links| && Joins(d.links[j], r)
    ensures Sound(StoreRoute(d, r, j)) && SameShape(d, StoreRoute(d, r, j))
  {
    StoredNow(d, r, j);
    hide StoreRoute;
    var e := StoreRoute(d, r, j);
    forall k | 0 <= k < |e.links| ensures e.links[k].flags <= ACTIVE && Valid(e, Stored(e, k)) {
      if k != j { StoredElsewhere(d, r, j, k); StoreFlags(d, r, j, k); } else { StoreFlags(d, r, j, k); }
    }
  }

  lemma StoreFlags(d: Device, r: Route, j: nat, k: nat)
    requires Wired(d) && j < |d.links| && Joins(d.links[j], r) && k < |d.links|
    ensures |StoreRoute(d, r, j).links| == |d.links|
    ensures StoreRoute(d, r, j).links[k].flags == if k == j then r.flags else d.links[k].flags
  {}

  lemma StoreStat(d: Device, r: Route, j: nat, pad: nat, stream: nat)
    requires Wired(d) && j < |d.links| && Joins(d.links[j], r) && pad < |d.stat|
    ensures |StoreRoute(d, r, j).stat| == |d.stat|
    ensures stream in StoreRoute(d, r, j).stat[pad] <==> stream in d.stat[pad] || Uses(r, pad, stream)
  {}

  // ---------------------------------------------------------------- a whole table

  predicate Known(d: Device, r: Route) { FindLink(d.links, r) < |d.links| }

  /** The device after the first `i` routes of a table were stored. */
  ghost function Folded(d: Device, table: seq<Route>, i: nat): (e: Device)
    requires Sound(d) && i <= |table|
    requires forall k | 0 <= k < i :: Valid(d, table[k]) && Known(d, table[k])
    ensures Sound(e) && SameShape(d, e)
  {
    if i == 0 then ClearedSound(d); Cleared(d)
    else
      var e := Folded(d, table, i - 1);
      var r := table[i - 1];
      KnownLater(d, e, r);
      StoreRouteSound(e, r, FindLink(d.links, r));
      StoreRoute(e, r, FindLink(d.links, r))
  }

  lemma KnownLater(d: Device, e: Device, r: Route)
    requires SameShape(d, e) && Valid(d, r) && Known(d, r)
    ensures Valid(e, r) && FindLink(e.links, r) == FindLink(d.links, r) < |e.links| && Joins(e.links[FindLink(d.links, r)], r)
  {
    SameLinks(d.links, e.links, r);
  }

  lemma ClearedSound(d: Device)
    requires Sound(d)
    ensures Sound(Cleared(d)) && SameShape(d, Cleared(d))
    ensures forall j | 0 <= j < |d.links| :: Stored(Cleared(d), j) == Stored(d, j)
  {
    var e := Cleared(d);
    assert forall j | 0 <= j < |d.links| :: GoodLink(d, d.links[j]);
    forall j | 0 <= j < |d.links| ensures Stored(e, j) == Stored(d, j) {
      assert Valid(d, Stored(d, j));
    }
  }

  lemma {:induction false} SameLinks(l0: seq<Link>, l1: seq<Link>, r: Route)
    requires |l1| == |l0| && forall j | 0 <= j < |l0| :: l1[j].sink == l0[j].sink && l1[j].source == l0[j].source
    ensures FindLink(l1, r) == FindLink(l0, r)
  {
    if l0 != [] { SameLinks(l0[1..], l1[1..], r); }
  }

  /** A route set_routing accepts at a place of the table: its link exists and, if
      immutable, keeps what is stored. */
  ghost predicate Matches(d: Device, r: Route)
    requires Wired(d)
  {
    var j := FindLink(d.links, r);
    && j < |d.links|
    && (d.links[j].immutable ==>
          r.flags == ACTIVE && r.sinkStream == Stored(d, j).sinkStream && r.sourceStream == Stored(d, j).sourceStream)
  }

  ghost predicate Fresh(table: seq<Route>, i: nat)
    requires i < |table|
  {
    forall j | 0 <= j < i :: !SamePads(table[j], table[i])
  }

  ghost predicate AllValid(d: Device, table: seq<Route>) {
    |table| == |d.links| && forall i | 0 <= i < |table| :: Valid(d, table[i])
  }

  ghost predicate Acceptable(d: Device, table: seq<Route>)
    requires Wired(d)
  {
    AllValid(d, table) && forall i | 0 <= i < |table| :: Matches(d, table[i]) && Fresh(table, i)
  }

  /** The links the first `i` routes of a table are for. */
  ghost function Hit(links: seq<Link>, table: seq<Route>, i: nat): set<nat>
    requires i <= |table|
  {
    if i == 0 then {} else Hit(links, table, i - 1) + {FindLink(links, table[i - 1])}
  }

  ghost function Upto(n: nat): (s: set<nat>)
    ensures |s| == n && forall k: nat :: k in s <==> k < n
  {
    if n == 0 then {} else Upto(n - 1) + {n - 1}
  }

  lemma {:induction false} InHit(links: seq<Link>, table: seq<Route>, i: nat, j: nat) returns (k: nat)
    requires i <= |table| && j in Hit(links, table, i)
    ensures k < i && FindLink(links, table[k]) == j
  {
    if j == FindLink(links, table[i - 1]) { k := i - 1; } else { k := InHit(links, table, i - 1, j); }
  }

  lemma {:induction false} HitGrows(d: Device, table: seq<Route>, i: nat)
    requires Wired(d) && Acceptable(d, table) && i <= |table|
    ensures |Hit(d.links, table, i)| == i
  {
    hide Wired, FindLink, Acceptable;
    if i > 0 {
      HitGrows(d, table, i - 1);
      forall k: nat | k < i - 1 ensures FindLink(d.links, table[k]) != FindLink(d.links, table[i - 1]) {
        Distinct(d, table, k, i - 1);
      }
      HitMembers(d.links, table, i - 1, FindLink(d.links, table[i - 1]));
    }
  }

  lemma HitMembers(links: seq<Link>, table: seq<Route>, i: nat, j: nat)
    requires i <= |table| && forall k: nat | k < i :: FindLink(links, table[k]) != j
    ensures j !in Hit(links, table, i)
  {}

  lemma Distinct(d: Device, table: seq<Route>, i: nat, k: nat)
    requires Wired(d) && Acceptable(d, table) && i < k < |table|
    ensures FindLink(d.links, table[i]) != FindLink(d.links, table[k])
  {
    assert Matches(d, table[i]) && Matches(d, table[k]) && Fresh(table, k);
    assert !SamePads(table[i], table[k]);
  }

  /** Pigeonhole: a set of n numbers below n is all of them. */
  lemma AllHit(s: set<nat>, n: nat)
    requires |s| == n && forall k | k in s :: k < n
    ensures s == Upto(n)
  {
    var rest := Upto(n) - s;
    assert Upto(n) == s + rest && s !! rest by {
      forall k ensures k in Upto(n) <==> k in s + rest {}
    }
    assert |rest| == 0;
  }

  /** An accepted table has a route for every link. */
  lemma EveryLinkRouted(d: Device, table: seq<Route>, j: nat) returns (i: nat)
    requires Wired(d) && Acceptable(d, table) && j < |d.links|
    ensures i < |table| && FindLink(d.links, table[i]) == j
  {
    var hit := Hit(d.links, table, |table|);
    HitGrows(d, table, |table|);
    forall k | k in hit ensures k < |d.links| {
      var i := InHit(d.links, table, |table|, k);
      assert Matches(d, table[i]);
    }
    AllHit(hit, |table|);
    assert j in Upto(|table|);
    i := InHit(d.links, table, |table|, j);
  }

  lemma AllKnown(d: Device, table: seq<Route>)
    requires Wired(d) && Acceptable(d, table)
    ensures forall i | 0 <= i < |table| :: Valid(d, table[i]) && Known(d, table[i])
  {
    forall i | 0 <= i < |table| ensures Known(d, table[i]) { assert Matches(d, table[i]); }
  }

  ghost predicate Routed(d: Device, table: seq<Route>, j: nat) { exists i: nat :: RouteFor(d, table, i, j) }

  ghost predicate RouteFor(d: Device, table: seq<Route>, i: nat, j: nat) { i < |table| && FindLink(d.links, table[i]) == j }

  /** An accepted table is a permutation of the topology: every link has exactly
      one route, and no route is left over. */
  lemma AcceptedIsPermutation(d: Device, table: seq<Route>)
    requires Wired(d) && Acceptable(d, table)
    ensures forall i | 0 <= i < |table| :: Known(d, table[i])
    ensures forall j: nat | j < |d.links| :: Routed(d, table, j)
    ensures forall i, k, j | RouteFor(d, table, i, j) && RouteFor(d, table, k, j) :: i == k
  {
    hide Acceptable, Wired, FindLink;
    AllKnown(d, table);
    forall j: nat | j < |d.links| ensures Routed(d, table, j) {
      var i := EveryLinkRouted(d, table, j);
      assert RouteFor(d, table, i, j);
    }
    forall i, k, j | RouteFor(d, table, i, j) && RouteFor(d, table, k, j) ensures i == k {
      if i < k { Distinct(d, table, i, k); }
      if k < i { Distinct(d, table, k, i); }
    }
  }

  lemma {:induction false} FoldedStores(d: Device, table: seq<Route>, i: nat, k: nat)
    requires Sound(d) && k < i <= |table|
    requires forall x | 0 <= x < i :: Valid(d, table[x]) && Known(d, table[x])
    requires forall x | k < x < i :: FindLink(d.links, table[x]) != FindLink(d.links, table[k])
    ensures Stored(Folded(d, table, i), FindLink(d.links, table[k])) == table[k]
  {
    hide StoreRoute, Sound, Stored, FindLink, Valid, SameShape;
    var e := Folded(d, table, i - 1);
    var r := table[i - 1];
    KnownLater(d, e, r);
    StoredNow(e, r, FindLink(d.links, r));
    if k < i - 1 {
      FoldedStores(d, table, i - 1, k);
      KnownLater(d, e, table[k]);
      StoredElsewhere(e, r, FindLink(d.links, r), FindLink(d.links, table[k]));
    }
  }

  lemma {:induction false} FoldedShows(d: Device, table: seq<Route>, i: nat, pad: nat, stream: nat)
    requires Sound(d) && i <= |table| && pad < |d.stat|
    requires forall x | 0 <= x < i :: Valid(d, table[x]) && Known(d, table[x])
    ensures pad < |Folded(d, table, i).stat|
    ensures stream in Folded(d, table, i).stat[pad] <==> exists k :: 0 <= k < i && Uses(table[k], pad, stream)
  {
    hide StoreRoute, Uses, Sound, FindLink, Valid, SameShape;
    if i > 0 {
      FoldedShows(d, table, i - 1, pad, stream);
      var e := Folded(d, table, i - 1);
      var r := table[i - 1];
      KnownLater(d, e, r);
      SoundWired(e);
      StoreStat(e, r, FindLink(d.links, r), pad, stream);
    }
  }

  lemma SoundWired(d: Device)
    requires Sound(d)
    ensures Wired(d) && |d.stat| == |d.counts|
  {}

  /** The device after an accepted table. */
  ghost function Synced(d: Device, table: seq<Route>): (e: Device)
    requires Sound(d) && Acceptable(d, table)
    ensures Sound(e) && SameShape(d, e)
  {
    AllKnown(d, table);
    Folded(d, table, |table|)
  }

  lemma ReadsBackAt(d: Device, table: seq<Route>, i: nat)
    requires Sound(d) && Acceptable(d, table) && i < |table|
    ensures Known(d, table[i]) && Stored(Synced(d, table), FindLink(d.links, table[i])) == table[i]
  {
    hide Sound, Stored, FindLink, Valid, SameShape, Folded;
    SoundWired(d);
    AllKnown(d, table);
    forall x | i < x < |table| ensures FindLink(d.links, table[x]) != FindLink(d.links, table[i]) { Distinct(d, table, i, x); }
    FoldedStores(d, table, |table|, i);
  }

  /** Reading back an accepted table gives every route of it, at its link, and
      nothing else. */
  lemma ReadsBack(d: Device, table: seq<Route>)
    requires Sound(d) && Acceptable(d, table)
    ensures forall i | 0 <= i < |table| :: Known(d, table[i]) && Stored(Synced(d, table), FindLink(d.links, table[i])) == table[i]
    ensures forall j | 0 <= j < |d.links| :: Stored(Synced(d, table), j) in table
  {
    hide Sound, Stored, FindLink, Folded, Acceptable;
    SoundWired(Synced(d, table));
    forall i | 0 <= i < |table|
      ensures Known(d, table[i]) && Stored(Synced(d, table), FindLink(d.links, table[i])) == table[i]
    {
      ReadsBackAt(d, table, i);
    }
    SoundWired(d);
    forall j | 0 <= j < |d.links| ensures Stored(Synced(d, table), j) in table {
      var i := EveryLinkRouted(d, table, j);
      ReadsBackAt(d, table, i);
    }
  }

  /** The bitmaps show exactly the streams of the stored active routes. */
  ghost predicate Shown(d: Device)
    requires Wired(d)
  {
    forall pad: nat, stream: nat {:trigger stream in d.stat[pad]} | pad < |d.stat| ::
      stream in d.stat[pad] <==> exists j :: 0 <= j < |d.links| && Uses(Stored(d, j), pad, stream)
  }

  lemma SyncedShown(d: Device, table: seq<Route>)
    requires Sound(d) && Acceptable(d, table)
    ensures Shown(Synced(d, table))
  {
    hide Sound, Stored, Uses, FindLink, SameShape, Folded, Acceptable;
    SoundWired(d);
    AllKnown(d, table);
    ReadsBack(d, table);
    var e := Synced(d, table);
    SoundWired(e);
    forall pad: nat, stream: nat | pad < |e.stat|
      ensures stream in e.stat[pad] <==> exists j :: 0 <= j < |e.links| && Uses(Stored(e, j), pad, stream)
    {
      SyncedShowsAt(d, table, pad, stream);
    }
  }

  lemma SyncedShowsAt(d: Device, table: seq<Route>, pad: nat, stream: nat)
    requires Sound(d) && Acceptable(d, table) && pad < |Synced(d, table).stat|
    ensures var e := Synced(d, table);
            stream in e.stat[pad] <==> exists j :: 0 <= j < |e.links| && Uses(Stored(e, j), pad, stream)
  {
    hide Sound, Stored, Uses, FindLink, Folded, Acceptable;
    SoundWired(d);
    AllKnown(d, table);
    var e := Synced(d, table);
    SoundWired(e);
    FoldedShows(d, table, |table|, pad, stream);
    if stream in e.stat[pad] {
      var k :| 0 <= k < |table| && Uses(table[k], pad, stream);
      ReadsBackAt(d, table, k);
      assert Uses(Stored(e, FindLink(d.links, table[k])), pad, stream);
    }
    if j :| 0 <= j < |e.links| && Uses(Stored(e, j), pad, stream) {
      var k := EveryLinkRouted(d, table, j);
      ReadsBackAt(d, table, k);
    }
  }

  // ---------------------------------------------------------------- calls of set_routing

  datatype Call = Call(which: Which, table: seq<Route>, env: Env)

  ghost predicate Consistent(d: Device, table: seq<Route>)
    requires Wired(d)
  {
    forall i | 0 <= i < |table| :: Matches(d, table[i]) && Fresh(table, i)
  }

  ghost function Verdict(d: Device, c: Call): Status
    requires Wired(d)
  {
    if !AllValid(d, c.table) then Invalid
    else if !c.env.oneToOne then Rejected
    else if !Consistent(d, c.table) || c.which == OtherWhich then Invalid
    else if !c.env.memory then NoMemory
    else if !c.env.applied then NotApplied
    else Ok
  }

  /** The device after one call: only an accepted table for the active state counts. */
  ghost function Handled(d: Device, c: Call): Device
    requires Sound(d)
  {
    if Verdict(d, c) == Ok && c.which == Active then Synced(d, c.table) else d
  }

  /** A table is accepted, in terms of its routes and the topology alone: as many routes
      as links, every one within the pads and their streams, no two for the same pads,
      each for a link of the topology, and each immutable link left as it is. */
  lemma AcceptableMeans(d: Device, table: seq<Route>)
    requires Wired(d)
    ensures Acceptable(d, table) <==>
              && |table| == |d.links|
              && (forall i | 0 <= i < |table| ::
                    && table[i].flags <= 1
                    && table[i].sinkPad < |d.counts| && table[i].sinkStream < d.counts[table[i].sinkPad]
                    && table[i].sourcePad < |d.counts| && table[i].sourceStream < d.counts[table[i].sourcePad])
              && (forall i, k | 0 <= i < k < |table| ::
                    table[i].sinkPad != table[k].sinkPad || table[i].sourcePad != table[k].sourcePad)
              && forall i | 0 <= i < |table| :: Kept(d, table[i])
  {
    hide Wired, Stored, FindLink, Fresh, Kept, Matches;
    FreshMeans(table);
    if forall i | 0 <= i < |table| :: Matches(d, table[i]) {
      forall i | 0 <= i < |table| ensures Kept(d, table[i]) {
        MatchMeans(d, table[i]);
      }
    } else {
      var i :| 0 <= i < |table| && !Matches(d, table[i]);
      MatchMeans(d, table[i]);
    }
    assert Acceptable(d, table) <==>
      && AllValid(d, table)
      && (forall i | 0 <= i < |table| :: Matches(d, table[i]))
      && forall i | 0 <= i < |table| :: Fresh(table, i);
  }

  lemma FreshMeans(table: seq<Route>)
    ensures (forall i | 0 <= i < |table| :: Fresh(table, i)) <==>
            forall i, k | 0 <= i < k < |table| ::
              table[i].sinkPad != table[k].sinkPad || table[i].sourcePad != table[k].sourcePad
  {
    if forall i | 0 <= i < |table| :: Fresh(table, i) {
      forall i, k | 0 <= i < k < |table|
        ensures table[i].sinkPad != table[k].sinkPad || table[i].sourcePad != table[k].sourcePad
      {
        assert Fresh(table, k);
      }
    } else {
      var k :| 0 <= k < |table| && !Fresh(table, k);
      var i :| 0 <= i < k && SamePads(table[i], table[k]);
    }
  }

  /** Link `j` joins the pads of a route, and if it is immutable the route is the one
      stored for it. */
  ghost predicate Keeps(d: Device, j: nat, r: Route)
    requires Wired(d) && j < |d.links|
  {
    && d.links[j].sink == r.sinkPad && d.links[j].source == r.sourcePad
    && (d.links[j].immutable ==> r.flags == 1 && r.sinkStream == Stored(d, j).sinkStream && r.sourceStream == Stored(d, j).sourceStream)
  }

  ghost predicate Kept(d: Device, r: Route)
    requires Wired(d)
  {
    exists j: nat :: j < |d.links| && Keeps(d, j, r)
  }

  lemma MatchMeans(d: Device, r: Route)
    requires Wired(d)
    ensures Matches(d, r) <==> Kept(d, r)
  {
    hide Stored;
    var k := FindLink(d.links, r);
    if j: nat :| j < |d.links| && Keeps(d, j, r) {
      assert Joins(d.links[j], r);
      assert k <= j && Joins(d.links[k], r);
      assert j == k;
    }
    if Matches(d, r) { assert Keeps(d, k, r); }
  }

  /** What an accepted table for the active state leaves in the device. */
  ghost predicate Holds(e: Device, table: seq<Route>)
    requires Wired(e)
  {
    && (forall i | 0 <= i < |table| ::
          FindLink(e.links, table[i]) < |e.links| && Stored(e, FindLink(e.links, table[i])) == table[i])
    && forall j | 0 <= j < |e.links| :: Stored(e, j) in table
  }

  lemma SyncedHolds(d: Device, table: seq<Route>)
    requires Sound(d) && Acceptable(d, table)
    ensures Wired(Synced(d, table)) && Holds(Synced(d, table), table) && Shown(Synced(d, table))
  {
    hide Sound, Stored, Folded, Acceptable, Shown, FindLink;
    var e := Synced(d, table);
    SoundWired(e);
    ReadsBack(d, table);
    SyncedShown(d, table);
    forall i | 0 <= i < |table| ensures FindLink(e.links, table[i]) == FindLink(d.links, table[i]) {
      SameLinks(d.links, e.links, table[i]);
    }
  }

  lemma HandledSound(d: Device, c: Call)
    requires Sound(d)
    ensures Sound(Handled(d, c)) && SameShape(d, Handled(d, c))
    ensures Shown(d) ==> Shown(Handled(d, c))
  {
    hide Sound, Shown;
    SoundWired(d);
    if Verdict(d, c) == Ok && c.which == Active { SyncedShown(d, c.table); }
  }

  lemma HandledImmutable(d: Device, c: Call, j: nat)
    requires Sound(d) && j < |d.links| && d.links[j].immutable && Stored(d, j).flags == ACTIVE
    ensures Sound(Handled(d, c)) && SameShape(d, Handled(d, c)) && Stored(Handled(d, c), j) == Stored(d, j)
  {
    hide Sound, Stored, Folded;
    HandledSound(d, c);
    SoundWired(d);
    if Verdict(d, c) == Ok && c.which == Active {
      var i := EveryLinkRouted(d, c.table, j);
      ReadsBackAt(d, c.table, i);
      assert Matches(d, c.table[i]);
      StoredPads(d, j);
      SoundWired(Synced(d, c.table));
      StoredPads(Synced(d, c.table), j);
    }
  }

  lemma StoredPads(d: Device, j: nat)
    requires Wired(d) && j < |d.links|
    ensures Stored(d, j).sinkPad == d.links[j].sink && Stored(d, j).sourcePad == d.links[j].source
  {}

  ghost function History(d: Device, calls: seq<Call>): (e: Device)
    requires Sound(d)
    ensures Sound(e) && SameShape(d, e)
    decreases |calls|
  {
    if calls == [] then d else HandledSound(d, calls[0]); History(Handled(d, calls[0]), calls[1..])
  }

  /** Over any calls, accepted or not, an immutable route stays active with its
      streams, and the bitmaps go on showing what is stored. */
  lemma {:induction false} ImmutableForever(d: Device, calls: seq<Call>, j: nat)
    requires Sound(d) && j < |d.links| && d.links[j].immutable && Stored(d, j).flags == ACTIVE
    ensures Stored(History(d, calls), j) == Stored(d, j)
    decreases |calls|
  {
    hide Stored, Sound, Handled;
    if calls != [] {
      HandledImmutable(d, calls[0], j);
      ImmutableForever(Handled(d, calls[0]), calls[1..], j);
    }
  }

  lemma {:induction false} ShownForever(d: Device, calls: seq<Call>)
    requires Sound(d) && Shown(d)
    ensures Shown(History(d, calls))
    decreases |calls|
  {
    hide Shown, Sound, Handled;
    if calls != [] {
      HandledSound(d, calls[0]);
      ShownForever(Handled(d, calls[0]), calls[1..]);
    }
  }

  /** What the device reads back as its table. */
  ghost function Snapshot(d: Device): (table: seq<Route>)
    requires Wired(d)
  {
    seq(|d.links|, j requires 0 <= j < |d.links| => Stored(d, j))
  }

  /** The table read back is accepted again exactly if the immutable links are
      active, and storing it changes no stored route. */
  lemma SnapshotRestores(d: Device)
    requires Sound(d)
    ensures Acceptable(d, Snapshot(d)) <==> forall j | 0 <= j < |d.links| :: d.links[j].immutable ==> Stored(d, j).flags == ACTIVE
    ensures Acceptable(d, Snapshot(d)) ==> forall j | 0 <= j < |d.links| :: Stored(Synced(d, Snapshot(d)), j) == Stored(d, j)
  {
    hide Sound, Wired, Stored, FindLink, Valid, Folded, Matches, Fresh;
    SoundWired(d);
    var table := Snapshot(d);
    forall j | 0 <= j < |d.links|
      ensures Valid(d, table[j]) && FindLink(d.links, table[j]) == j && Fresh(table, j)
      ensures Matches(d, table[j]) <==> (d.links[j].immutable ==> Stored(d, j).flags == ACTIVE)
    {
      SnapshotLink(d, j);
    }
    if Acceptable(d, table) {
      SoundWired(Synced(d, table));
      forall j | 0 <= j < |d.links| ensures Stored(Synced(d, table), j) == Stored(d, j) { ReadsBackAt(d, table, j); }
    }
  }

  /** The route read back at a link is valid, found there and nowhere else. */
  lemma SnapshotLink(d: Device, j: nat)
    requires Sound(d) && j < |d.links|
    ensures Wired(d) && Valid(d, Snapshot(d)[j]) && FindLink(d.links, Snapshot(d)[j]) == j && Fresh(Snapshot(d), j)
    ensures Matches(d, Snapshot(d)[j]) <==> (d.links[j].immutable ==> Stored(d, j).flags == ACTIVE)
  {
    var table := Snapshot(d);
    assert Joins(d.links[j], table[j]);
    assert forall k | 0 <= k < j :: table[k] == Stored(d, k);
  }

  // ---------------------------------------------------------------- the devices that have routes

  /** ipu_isys_csi2_init: one multiplexed sink, a source pad for each of the `n`
      streams, and a metadata pad; only the first route is active, and for good. */
  function Csi2(n: nat): Device
    requires 0 < n <= BITMAP_BITS
  {
    Device(1, n,
      seq(n + 2, p => if p <= n then n else 1),
      seq(n, i requires 0 <= i < n => Link(0, i + 1, if i == 0 then ACTIVE else 0, i == 0)),
      seq(n + 2, p =>
        if p == 0 then seq(n, i requires 0 <= i < n => i)
        else seq(n, i requires 0 <= i < n => if i == 0 && p <= n then p - 1 else 0)),
      seq(n + 2, p => if p <= 1 then {0} else {}))
  }

  /** ipu_isys_csi2_be_soc_init: as many sinks as sources, linked in pairs, all
      active, the first for good. */
  function BeSoc(n: nat): Device
    requires 0 < n
  {
    Device(n, n,
      seq(2 * n, p => 1),
      seq(n, i requires 0 <= i < n => Link(i, n + i, ACTIVE, i == 0)),
      seq(2 * n, p => seq(n, i => 0)),
      seq(2 * n, p => {0}))
  }

  lemma Csi2Wired(n: nat)
    requires 0 < n <= BITMAP_BITS
    ensures Wired(Csi2(n))
  {}

  lemma Csi2Stored(n: nat, j: nat)
    requires 0 < n <= BITMAP_BITS && j < n
    ensures Wired(Csi2(n)) && Stored(Csi2(n), j) == Route(0, j, j + 1, j, if j == 0 then ACTIVE else 0)
  {
    Csi2Wired(n);
    hide Wired;
  }

  lemma Csi2Sound(n: nat)
    requires 0 < n <= BITMAP_BITS
    ensures Sound(Csi2(n)) && Shown(Csi2(n)) && Stored(Csi2(n), 0) == Route(0, 0, 1, 0, ACTIVE)
  {
    hide Wired, Stored;
    var d := Csi2(n);
    Csi2Wired(n);
    forall j | 0 <= j < |d.links| ensures Stored(d, j) == Route(0, j, j + 1, j, if j == 0 then ACTIVE else 0) {
      Csi2Stored(n, j);
    }
    assert Uses(Stored(d, 0), 0, 0) && Uses(Stored(d, 0), 1, 0);
  }

  lemma BeSocSound(n: nat)
    requires 0 < n
    ensures Sound(BeSoc(n)) && Shown(BeSoc(n))
  {
    var d := BeSoc(n);
    assert Wired(d);
    forall j | 0 <= j < |d.links| ensures Stored(d, j) == Route(j, 0, n + j, 0, ACTIVE) {}
    hide Wired;
    forall pad: nat, stream: nat | pad < |d.stat|
      ensures stream in d.stat[pad] <==> exists j :: 0 <= j < |d.links| && Uses(Stored(d, j), pad, stream)
    {
      assert Uses(Stored(d, if pad < n then pad else pad - n), pad, 0);
    }
  }

  // ---------------------------------------------------------------- the object

  class Subdev {
    const nsinks: nat
    const nsources: nat
    const counts: seq<nat>
    var links: seq<Link>
    var ids: seq<seq<nat>>
    var stat: seq<set<nat>>

    function View(): Device
      reads this
    {
      Device(nsinks, nsources, counts, links, ids, stat)
    }

    constructor (d: Device)
      ensures View() == d
    {
      nsinks, nsources, counts, links, ids, stat := d.nsinks, d.nsources, d.counts, d.links, d.ids, d.stat;
    }

    /** The search for a route's link. */
    method Search(r: Route) returns (j: nat)
      ensures j == FindLink(links, r)
    {
      j := 0;
      while j < |links|
        invariant j <= |links| && FindLink(links, r) == j + FindLink(links[j..], r)
      {
        if links[j].sink == r.sinkPad && links[j].source == r.sourcePad { return; }
        j := j + 1;
      }
    }

    /** The clearing of every bitmap. */
    method ClearStat()
      modifies this`stat
      ensures View() == Cleared(old(View()))
    {
      var i := 0;
      while i < |stat|
        invariant i <= |stat| == |old(stat)|
        invariant forall p | 0 <= p < |stat| :: stat[p] == if p < i then {} else old(stat)[p]
      {
        stat := stat[i := {}];
        i := i + 1;
      }
      assert stat == Cleared(old(View())).stat;
    }

    method StoreOne(r: Route, j: nat)
      requires Wired(View()) && j < |links| && Joins(links[j], r)
      modifies this`links, this`ids, this`stat
      ensures View() == StoreRoute(old(View()), r, j)
    {
      var d := View();
      assert GoodLink(d, links[j]);
      var sinkSlot := if counts[r.sinkPad] > 1 then r.sourcePad - nsinks else 0;
      var sourceSlot := if counts[r.sourcePad] > 1 then r.sinkPad else 0;
      if counts[r.sinkPad] > 1 { ids := ids[r.sinkPad := Put(ids[r.sinkPad], sinkSlot, r.sinkStream)]; }
      if counts[r.sourcePad] > 1 {
        ids := ids[r.sourcePad := Put(ids[r.sourcePad], sourceSlot, r.sourceStream)];
      } else {
        ids := ids[r.sourcePad := Put(ids[r.sourcePad], 0, r.sourceStream)];
      }
      links := links[j := links[j].(flags := r.flags)];
      if r.flags == ACTIVE {
        stat := stat[r.sinkPad := stat[r.sinkPad] + {r.sinkStream}];
        stat := stat[r.sourcePad := stat[r.sourcePad] + {r.sourceStream}];
      }
    }

    /** ipu_isys_subdev_sync_routes: stores the routes in order, up to the first
        whose link does not exist. */
    method SyncRoutes(table: seq<Route>) returns (ok: bool, ghost n: nat)
      requires Sound(View()) && forall i | 0 <= i < |table| :: Valid(View(), table[i])
      modifies this`links, this`ids, this`stat
      ensures n <= |table| && (ok <==> n == |table|)
      ensures forall k | 0 <= k < n :: Known(old(View()), table[k])
      ensures n < |table| ==> !Known(old(View()), table[n])
      ensures View() == Folded(old(View()), table, n)
    {
      hide Sound, StoreRoute, FindLink, Valid, Cleared, Wired, Folded, SameShape, Joins;
      FoldedNone(View(), table);
      ClearStat();
      var i := 0;
      n := 0;
      ok := true;
      while i < |table|
        invariant n == i <= |table|
        invariant forall k | 0 <= k < i :: Known(old(View()), table[k])
        invariant View() == Folded(old(View()), table, i)
      {
        var r := table[i];
        FoldedLink(old(View()), View(), r);
        var j := Search(r);
        if j == |links| { return false, i; }
        FoldedNext(old(View()), table, i);
        StoreOne(r, j);
        i := i + 1;
        n := i;
      }
    }

    /** ipu_isys_subdev_init_state: the table the media core starts from. */
    method InitState() returns (table: seq<Route>)
      requires Sound(View())
      ensures table == Snapshot(View())
    {
      table := [];
      var i := 0;
      while i < |links|
        invariant i == |table| <= |links|
        invariant forall j | 0 <= j < i :: table[j] == Stored(View(), j)
      {
        var l := links[i];
        assert GoodLink(View(), l);
        var sinkSlot := if counts[l.sink] > 1 then l.source - nsinks else 0;
        var sourceSlot := if counts[l.source] > 1 then l.sink else 0;
        var sinkStream := 0;
        if counts[l.sink] > 1 { sinkStream := ids[l.sink][sinkSlot]; }
        var sourceStream := if counts[l.source] > 1 then ids[l.source][sourceSlot] else ids[l.source][0];
        table := table + [Route(l.sink, sinkStream, l.source, sourceStream, l.flags % 2)];
        i := i + 1;
      }
    }

    method CheckValid(table: seq<Route>) returns (ok: bool)
      ensures ok <==> AllValid(View(), table)
    {
      if |table| != |links| { return false; }
      var i := 0;
      while i < |table|
        invariant i <= |table| && forall k | 0 <= k < i :: Valid(View(), table[k])
      {
        var r := table[i];
        if r.flags > ACTIVE || r.sinkPad >= |counts| || r.sourcePad >= |counts|
           || r.sinkStream >= counts[r.sinkPad] || r.sourceStream >= counts[r.sourcePad] {
          return false;
        }
        i := i + 1;
      }
      ok := true;
    }

    method CheckOne(table: seq<Route>, i: nat) returns (ok: bool)
      requires Wired(View()) && i < |table|
      ensures ok <==> Matches(View(), table[i]) && Fresh(table, i)
    {
      var r := table[i];
      var j := Search(r);
      if j == |links| { return false; }
      assert GoodLink(View(), links[j]);
      if links[j].immutable {
        var sinkStream := 0;
        if counts[r.sinkPad] > 1 { sinkStream := ids[r.sinkPad][r.sourcePad - nsinks]; }
        var sourceStream := if counts[r.sourcePad] > 1 then ids[r.sourcePad][r.sinkPad] else ids[r.sourcePad][0];
        if r.flags != ACTIVE || r.sinkStream != sinkStream || r.sourceStream != sourceStream { return false; }
      }
      var k := 0;
      while k < i
        invariant k <= i && forall x | 0 <= x < k :: !SamePads(table[x], r)
      {
        if SamePads(table[k], r) { return false; }
        k := k + 1;
      }
      ok := true;
    }

    method CheckConsistent(table: seq<Route>) returns (ok: bool)
      requires Wired(View())
      ensures ok <==> Consistent(View(), table)
    {
      hide Matches, Fresh, Wired;
      var i := 0;
      while i < |table|
        invariant i <= |table| && forall k | 0 <= k < i :: Matches(View(), table[k]) && Fresh(table, k)
      {
        ok := CheckOne(table, i);
        if !ok { return; }
        i := i + 1;
      }
      ok := true;
    }

    /** ipu_isys_subdev_set_routing: a table is stored only when every check has
        passed and it is for the active state; then storing cannot fail. */
    method SetRouting(c: Call) returns (status: Status)
      requires Sound(View())
      modifies this`links, this`ids, this`stat
      ensures status == Verdict(old(View()), c)
      ensures View() == Handled(old(View()), c)
      ensures Sound(View()) && Wired(View()) && Wired(old(View()))
      ensures status == Ok <==>
                && Acceptable(old(View()), c.table) && c.which != OtherWhich
                && c.env.oneToOne && c.env.memory && c.env.applied
      ensures status == Ok && c.which == Active ==> Holds(View(), c.table) && Shown(View())
      ensures status != Ok || c.which == Try ==> View() == old(View())
    {
      hide Sound, Matches, Fresh, Valid, Folded, Holds, Shown, Wired, Stored;
      SoundWired(View());
      HandledSound(View(), c);
      SoundWired(Handled(View(), c));
      if Acceptable(View(), c.table) { SyncedHolds(View(), c.table); }
      var ok := CheckValid(c.table);
      if !ok { return Invalid; }
      if !c.env.oneToOne { return Rejected; }
      ok := CheckConsistent(c.table);
      if !ok || c.which == OtherWhich { return Invalid; }
      if !c.env.memory { return NoMemory; }
      if !c.env.applied { return NotApplied; }
      status := Ok;
      if c.which == Active {
        AcceptedKnown(View(), c.table);
        ghost var n;
        ok, n := SyncRoutes(c.table);
        if !ok { status := Invalid; }
      }
    }
  }

  function Put(s: seq<nat>, i: nat, id: nat): (t: seq<nat>)
    requires i < |s|
    ensures t == s[i := id]
  {
    s[i := id]
  }

  lemma FoldedNone(d: Device, table: seq<Route>)
    requires Sound(d)
    ensures Folded(d, table, 0) == Cleared(d)
  {}

  lemma FoldedNext(d: Device, table: seq<Route>, i: nat)
    requires Sound(d) && i < |table|
    requires forall k | 0 <= k < i + 1 :: Valid(d, table[k]) && Known(d, table[k])
    ensures var e := Folded(d, table, i); var j := FindLink(d.links, table[i]);
            j < |e.links| && Joins(e.links[j], table[i]) && Folded(d, table, i + 1) == StoreRoute(e, table[i], j)
  {
    hide Sound, StoreRoute, FindLink, Valid, Cleared, Wired;
    KnownLater(d, Folded(d, table, i), table[i]);
  }

  lemma FoldedLink(d: Device, e: Device, r: Route)
    requires Sound(e) && SameShape(d, e) && Valid(d, r)
    ensures Wired(e) && FindLink(e.links, r) == FindLink(d.links, r) && |e.links| == |d.links|
    ensures FindLink(e.links, r) < |e.links| ==> Known(d, r) && Joins(e.links[FindLink(e.links, r)], r)
    ensures FindLink(e.links, r) == |e.links| ==> !Known(d, r)
  {
    SameLinks(d.links, e.links, r);
  }

  lemma AcceptedKnown(d: Device, table: seq<Route>)
    requires Wired(d) && AllValid(d, table) && Consistent(d, table)
    ensures Acceptable(d, table) && forall i | 0 <= i < |table| :: Valid(d, table[i]) && Known(d, table[i])
  {
    AllKnown(d, table);
  }
}
