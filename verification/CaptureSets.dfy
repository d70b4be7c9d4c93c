/** Buffer sets of the capture pipeline on values: what taking a set, placing it
    and feeding it to the firmware do to the queues, whatever user space and the
    firmware do between the locked list operations.

    Nothing here assumes a quiet moment.  Interference is counted, by what arrived
    on incoming and what left active, and every law below is exact in those counts.
 */
module CaptureSets {
  import opened Common
  import opened CaptureLane

  datatype VbState = Queued | Error

  datatype Destination = ToIncoming | ToActive | Done(state: VbState)

  /** A completion given by a driver call. */
  datatype Given = Given(buffer: Buffer, state: VbState)

  // ---------------------------------------------------------------- scripts

  /** The events to come, in batches: one batch happens in each gap. */
  type Script = seq<seq<Event>>

  function EventsLeft(script: Script): nat {
    if script == [] then 0 else |script[0]| + EventsLeft(script[1..])
  }

  predicate Corrupt(e: Event) { e.PinReady? ==> e.error != OtherError }

  /** The only error the firmware reports is STR2MMIO. */
  predicate CorruptOnly(script: Script) {
    forall i, j | 0 <= i < |script| && 0 <= j < |script[i]| :: Corrupt(script[i][j])
  }

  // ---------------------------------------------------------------- suffixes and subsequences

  predicate Suffix(s: seq<Buffer>, t: seq<Buffer>) { |s| <= |t| && s == t[|t| - |s|..] }

  lemma SuffixTrans(s: seq<Buffer>, t: seq<Buffer>, u: seq<Buffer>)
    requires Suffix(s, t) && Suffix(t, u)
    ensures Suffix(s, u)
  {
    assert u[|u| - |s|..] == u[|u| - |t|..][|t| - |s|..];
  }

  lemma SuffixJoin(s: seq<Buffer>, t: seq<Buffer>, d: seq<Buffer>)
    requires Suffix(s, t)
    ensures Suffix(s + d, t + d)
  {
    var v := t + d;
    assert v[|v| - |s + d|..] == t[|t| - |s|..] + d;
  }

  lemma SuffixPush(s: seq<Buffer>, b: Buffer)
    ensures Suffix(s, [b] + s)
  {}

  /** `s` is part of `t`, in the same order. */
  predicate Sub(s: seq<Buffer>, t: seq<Buffer>)
    decreases |t|
  {
    s == [] || (t != [] && ((s[0] == t[0] && Sub(s[1..], t[1..])) || Sub(s, t[1..])))
  }

  lemma {:induction false} SubSelf(s: seq<Buffer>)
    ensures Sub(s, s)
    decreases |s|
  {
    if s != [] { SubSelf(s[1..]); }
  }

  lemma {:induction false} SubTrans(s: seq<Buffer>, t: seq<Buffer>, u: seq<Buffer>)
    requires Sub(s, t) && Sub(t, u)
    ensures Sub(s, u)
    decreases |u|
  {
    if s != [] && t != [] {
      if t[0] == u[0] && Sub(t[1..], u[1..]) {
        if s[0] == t[0] && Sub(s[1..], t[1..]) {
          SubTrans(s[1..], t[1..], u[1..]);
        } else {
          SubTrans(s, t[1..], u[1..]);
        }
      } else {
        SubTrans(s, t, u[1..]);
      }
    }
  }

  lemma {:induction false} SubAfter(a: seq<Buffer>, s: seq<Buffer>, t: seq<Buffer>)
    requires Sub(s, t)
    ensures Sub(a + s, a + t) && Sub(s, a + t)
    decreases |a|
  {
    if a == [] {
      assert a + s == s && a + t == t;
    } else {
      SubAfter(a[1..], s, t);
      assert (a + s)[1..] == a[1..] + s && (a + t)[1..] == a[1..] + t;
    }
  }

  lemma {:induction false} SubJoin(a: seq<Buffer>, b: seq<Buffer>, s: seq<Buffer>, t: seq<Buffer>)
    requires Sub(a, b) && Sub(s, t)
    ensures Sub(a + s, b + t)
    decreases |b|
  {
    if a == [] {
      assert a + s == s;
      SubAfter(b, s, t);
    } else {
      assert (b + t)[1..] == b[1..] + t && (a + s)[1..] == a[1..] + s;
      if a[0] == b[0] && Sub(a[1..], b[1..]) {
        SubJoin(a[1..], b[1..], s, t);
      } else {
        SubJoin(a, b[1..], s, t);
      }
    }
  }

  lemma {:induction false} SubSize(s: seq<Buffer>, t: seq<Buffer>)
    requires Sub(s, t)
    ensures |s| <= |t| && (|s| == |t| ==> s == t)
    ensures forall b | b in s :: b in t
    decreases |t|
  {
    if s != [] {
      if s[0] == t[0] && Sub(s[1..], t[1..]) {
        SubSize(s[1..], t[1..]);
        assert s == [s[0]] + s[1..] && t == [t[0]] + t[1..];
      } else {
        SubSize(s, t[1..]);
      }
    }
  }

  lemma SubSkip(a: seq<Buffer>, b: Buffer, s: seq<Buffer>)
    ensures Sub(a + s, a + ([b] + s))
  {
    SubSelf(s);
    SubAfter([b], s, s);
    SubAfter(a, s, [b] + s);
  }

  lemma SubWithout(s: seq<Buffer>, i: nat)
    requires i < |s|
    ensures Sub(Without(s, i), s)
  {
    hide Sub;
    SubSkip(s[..i], s[i], s[i + 1..]);
    SplitAt(s, i);
  }

  // ---------------------------------------------------------------- the flow through one queue

  /** Of what was waiting, `base`, the sets took `drawn`, latest first, from its
      oldest end; all that came since came at the newest end. */
  ghost predicate Inflow(base: seq<Buffer>, l0: Lane, l1: Lane, drawn: seq<Buffer>) {
    && Suffix(base, l1.incoming + drawn)
    && Arrived(l0) <= Arrived(l1)
    && |l1.incoming| + |drawn| == |base| + Arrived(l1) - Arrived(l0)
  }

  /** Of what was with the firmware, `source`, the rest is active in the same order;
      the firmware has answered the others. */
  ghost predicate Outflow(source: seq<Buffer>, l0: Lane, l1: Lane) {
    && Sub(l1.active, source)
    && Left(l0) <= Left(l1)
    && |l1.active| + Left(l1) - Left(l0) == |source|
  }

  /** A queue from which `drawn` was taken and to which `fed` was made active. */
  ghost predicate Flow(l0: Lane, l1: Lane, drawn: seq<Buffer>, fed: seq<Buffer>) {
    Inflow(l0.incoming, l0, l1, drawn) && Outflow(fed + l0.active, l0, l1)
  }

  lemma InflowDrift(base: seq<Buffer>, l0: Lane, l1: Lane, l2: Lane, d: seq<Buffer>)
    requires Inflow(base, l0, l1, d) && Inflow(l1.incoming, l1, l2, [])
    ensures Inflow(base, l0, l2, d)
  {
    hide Inflow;
    InflowTrans(base, l0, l1, l2, d, []);
    assert [] + d == d;
  }

  lemma InflowTrans(base: seq<Buffer>, l0: Lane, l1: Lane, l2: Lane, d: seq<Buffer>, e: seq<Buffer>)
    requires Inflow(base, l0, l1, d) && Inflow(l1.incoming, l1, l2, e)
    ensures Inflow(base, l0, l2, e + d)
  {
    hide Arrived;
    SuffixJoin(l1.incoming, l2.incoming + e, d);
    assert l2.incoming + e + d == l2.incoming + (e + d);
    SuffixTrans(base, l1.incoming + d, l2.incoming + (e + d));
  }

  lemma OutflowTrans(source: seq<Buffer>, l0: Lane, l1: Lane, l2: Lane, fed: seq<Buffer>)
    requires Outflow(source, l0, l1) && Outflow(fed + l1.active, l1, l2)
    ensures Outflow(fed + source, l0, l2)
  {
    hide Sub, Left;
    SubAfter(fed, l1.active, source);
    SubTrans(l2.active, fed + l1.active, fed + source);
  }

  lemma FlowTrans(l0: Lane, l1: Lane, l2: Lane, d: seq<Buffer>, f: seq<Buffer>, e: seq<Buffer>, g: seq<Buffer>)
    requires Flow(l0, l1, d, f) && Flow(l1, l2, e, g)
    ensures Flow(l0, l2, e + d, g + f)
  {
    InflowTrans(l0.incoming, l0, l1, l2, d, e);
    OutflowTrans(f + l0.active, l0, l1, l2, g);
    assert g + (f + l0.active) == (g + f) + l0.active;
    hide Inflow, Outflow;
  }

  /** Interference after a flow changes nothing about what was drawn and fed. */
  lemma FlowDrift(l0: Lane, l1: Lane, l2: Lane, d: seq<Buffer>, f: seq<Buffer>)
    requires Flow(l0, l1, d, f) && Flow(l1, l2, [], [])
    ensures Flow(l0, l2, d, f)
  {
    hide Flow;
    FlowTrans(l0, l1, l2, d, f, [], []);
    assert [] + d == d && [] + f == f;
  }

  lemma FlowNone(l: Lane)
    ensures Flow(l, l, [], []) && Drifted(l, l)
  {
    hide Arrived, Left, Sub;
    assert l.incoming + [] == l.incoming && [] + l.active == l.active;
    SubSelf(l.active);
  }

  /** Without arrivals and answers the lists are known outright. */
  lemma FlowExact(l0: Lane, l1: Lane, drawn: seq<Buffer>, fed: seq<Buffer>)
    requires Flow(l0, l1, drawn, fed)
    ensures Arrived(l1) == Arrived(l0) ==> l1.incoming + drawn == l0.incoming
    ensures Left(l1) == Left(l0) ==> l1.active == fed + l0.active
  {
    hide Sub, Left, Arrived;
    SubSize(l1.active, fed + l0.active);
  }

  /** What interference does to a queue. */
  ghost predicate Drifted(l0: Lane, l1: Lane) { l1.held == l0.held && Flow(l0, l1, [], []) }

  lemma DriftTrans(l0: Lane, l1: Lane, l2: Lane)
    requires Drifted(l0, l1) && Drifted(l1, l2)
    ensures Drifted(l0, l2)
  {
    hide Flow;
    FlowDrift(l0, l1, l2, [], []);
  }

  /** Buffers the driver has of a queue, plus those the firmware has completed, less what
      user space has queued. */
  function Stock(l: Lane): int { |l.incoming| + |l.active| + |l.held| + l.finished - |l.queued| }

  /** How many of those the firmware has completed were not clean. */
  function Spoilt(l: Lane): int { l.finished - l.clean }

  lemma InflowSame(l: Lane, r: Lane)
    requires r.incoming == l.incoming && Arrived(r) == Arrived(l)
    ensures Inflow(l.incoming, l, r, [])
  {
    assert r.incoming + [] == r.incoming;
  }

  lemma InflowPush(l: Lane, r: Lane, b: Buffer)
    requires r.incoming == [b] + l.incoming && Arrived(r) == Arrived(l) + 1
    ensures Inflow(l.incoming, l, r, [])
  {
    SuffixPush(l.incoming, b);
    assert r.incoming + [] == r.incoming;
  }

  lemma OutflowSame(l: Lane, r: Lane)
    requires r.active == l.active && Left(r) == Left(l)
    ensures Outflow([] + l.active, l, r)
  {
    SubSelf(l.active);
    assert [] + l.active == l.active;
  }

  lemma OutflowLess(l: Lane, r: Lane, i: nat)
    requires i < |l.active| && r.active == Without(l.active, i) && Left(r) == Left(l) + 1
    ensures Outflow([] + l.active, l, r)
  {
    SubWithout(l.active, i);
    assert [] + l.active == l.active;
  }

  lemma ReadyDrift(l: Lane, addr: nat, error: FwError, verifying: bool)
    ensures var r := Ready(l, addr, error, verifying);
            && Drifted(l, r) && Arrived(l) <= Arrived(r) <= Arrived(l) + 1
            && (!verifying ==> r.parked == l.parked)
            && Stock(r) == Stock(l) && Spoilt(l) <= Spoilt(r)
            && (verifying && error != OtherError ==> Spoilt(r) == Spoilt(l))
  {
    hide Inflow, Outflow, FindActive, Without;
    var r := Ready(l, addr, error, verifying);
    var i := FindActive(l.active, addr);
    if i == |l.active| {
      InflowSame(l, r);
      OutflowSame(l, r);
    } else {
      OutflowLess(l, r, i);
      if error == Str2mmio && verifying { InflowPush(l, r, l.active[i]); } else { InflowSame(l, r); }
    }
  }

  lemma EnqueueDrift(l: Lane, b: Buffer)
    ensures var r := Enqueue(l, b);
            && Drifted(l, r) && Arrived(l) <= Arrived(r) <= Arrived(l) + 1
            && r.parked == l.parked && Stock(r) == Stock(l) && Spoilt(r) == Spoilt(l)
  {
    hide Inflow, Outflow;
    var r := Enqueue(l, b);
    OutflowSame(l, r);
    if b in l.user { InflowPush(l, r, b); } else { InflowSame(l, r); }
  }

  lemma ReactDrift(l: Lane, q: nat, e: Event, verifying: bool)
    ensures var r := React(l, q, e, verifying);
            && Drifted(l, r) && Arrived(l) <= Arrived(r) <= Arrived(l) + 1
            && (!verifying ==> r.parked == l.parked)
            && Stock(r) == Stock(l) && Spoilt(l) <= Spoilt(r)
            && (verifying && Corrupt(e) ==> Spoilt(r) == Spoilt(l))
  {
    hide Drifted, Arrived, Stock, Spoilt, Ready, Enqueue;
    if e.UserQueue? {
      EnqueueDrift(l, e.buffer);
    } else {
      ReadyDrift(l, e.addr, e.error, verifying);
    }
    FlowNone(l);
  }

  // ---------------------------------------------------------------- buffer sets

  /** The detached buffers of every queue are the given list. */
  ghost predicate HeldIs(lanes: seq<Lane>, bl: seq<Buffer>) {
    && (forall b | b in bl :: b.queue < |lanes|)
    && forall q, b | 0 <= q < |lanes| :: lanes[q].held[b] == if b.queue == q then multiset(bl)[b] else 0
  }

  function Place(l: Lane, b: Buffer, to: Destination): Lane {
    match to
    case ToIncoming => PutBack(l, b)
    case ToActive => Submit(l, b)
    case Done(_) => Complete(l, b)
  }

  /** The buffers of a list that belong to a queue, first first and last first. */
  function OfQueue(bl: seq<Buffer>, q: nat): seq<Buffer> {
    if bl == [] then []
    else OfQueue(bl[..|bl| - 1], q) + if bl[|bl| - 1].queue == q then [bl[|bl| - 1]] else []
  }

  function RevOfQueue(bl: seq<Buffer>, q: nat): seq<Buffer> {
    if bl == [] then []
    else (if bl[|bl| - 1].queue == q then [bl[|bl| - 1]] else []) + RevOfQueue(bl[..|bl| - 1], q)
  }

  function Gives(bl: seq<Buffer>, state: VbState): seq<Given> { seq(|bl|, i requires 0 <= i < |bl| => Given(bl[i], state)) }

  lemma GivesNone(to: Destination)
    ensures to.Done? ==> Gives([], to.state) == []
  {}

  lemma GivesMore(bl: seq<Buffer>, i: nat, state: VbState)
    requires i < |bl|
    ensures Gives(bl[..i + 1], state) == Gives(bl[..i], state) + [Given(bl[i], state)]
  {}

  lemma PlaceBalanced(l: Lane, b: Buffer, to: Destination, all: set<Buffer>)
    requires Balanced(l, all) && b in l.held
    ensures Balanced(Place(l, b, to), all)
    ensures Spoilt(Place(l, b, to)) == Spoilt(l) && (!to.Done? ==> Stock(Place(l, b, to)) == Stock(l))
  {
    hide Balanced;
    match to
    case ToIncoming => NextBalanced(l, 0, Return(b), all);
    case ToActive => NextBalanced(l, 0, Start(b), all);
    case Done(_) => NextBalanced(l, 0, Answer(b), all);
  }

  lemma PlaceFacts(l: Lane, b: Buffer, to: Destination)
    ensures Place(l, b, to).held == l.held - multiset{b}
    ensures Arrived(Place(l, b, to)) == Arrived(l) && Left(Place(l, b, to)) == Left(l)
    ensures Place(l, b, to).parked == l.parked
  {}

  /** What placing a list leaves of a queue, whatever interferes: in order at the
      oldest end of incoming, in order at the newest end of active, or gone. */
  ghost predicate Settled(l0: Lane, l1: Lane, q: nat, bl: seq<Buffer>, to: Destination) {
    && Inflow(l0.incoming + (if to == ToIncoming then OfQueue(bl, q) else []), l0, l1, [])
    && Outflow((if to == ToActive then RevOfQueue(bl, q) else []) + l0.active, l0, l1)
  }

  lemma NothingSettled(l: Lane, q: nat, to: Destination)
    ensures Settled(l, l, q, [], to)
  {
    FlowNone(l);
    assert l.incoming + [] == l.incoming;
  }

  lemma OfQueueMore(bl: seq<Buffer>, b: Buffer, q: nat)
    ensures OfQueue(bl + [b], q) == OfQueue(bl, q) + if b.queue == q then [b] else []
    ensures RevOfQueue(bl + [b], q) == (if b.queue == q then [b] else []) + RevOfQueue(bl, q)
  {
    assert (bl + [b])[..|bl + [b]| - 1] == bl;
  }

  lemma InflowPutBack(base: seq<Buffer>, l0: Lane, l1: Lane, r: Lane, b: Buffer)
    requires Inflow(base, l0, l1, []) && r.incoming == l1.incoming + [b] && Arrived(r) == Arrived(l1)
    ensures Inflow(base + [b], l0, r, [])
  {
    SuffixJoin(base, l1.incoming + [], [b]);
    assert l1.incoming + [] + [b] == r.incoming + [];
  }

  lemma OutflowSubmit(source: seq<Buffer>, l0: Lane, l1: Lane, r: Lane, b: Buffer)
    requires Outflow(source, l0, l1) && r.active == [b] + l1.active && Left(r) == Left(l1)
    ensures Outflow([b] + source, l0, r)
  {
    SubAfter([b], l1.active, source);
  }

  lemma SettledDrift(l0: Lane, l1: Lane, l2: Lane, q: nat, bl: seq<Buffer>, to: Destination)
    requires Settled(l0, l1, q, bl, to) && Drifted(l1, l2)
    ensures Settled(l0, l2, q, bl, to)
  {
    hide Inflow, Outflow, OfQueue, RevOfQueue;
    var base := l0.incoming + (if to == ToIncoming then OfQueue(bl, q) else []);
    var source := (if to == ToActive then RevOfQueue(bl, q) else []) + l0.active;
    InflowDrift(base, l0, l1, l2, []);
    OutflowTrans(source, l0, l1, l2, []);
    assert [] + source == source;
  }

  lemma SettledPlace(l0: Lane, l1: Lane, q: nat, bl: seq<Buffer>, b: Buffer, to: Destination)
    requires Settled(l0, l1, q, bl, to)
    ensures Settled(l0, if b.queue == q then Place(l1, b, to) else l1, q, bl + [b], to)
  {
    hide OfQueue, RevOfQueue, Sub, Suffix;
    var base := l0.incoming + (if to == ToIncoming then OfQueue(bl, q) else []);
    var source := (if to == ToActive then RevOfQueue(bl, q) else []) + l0.active;
    OfQueueMore(bl, b, q);
    PlaceFacts(l1, b, to);
    assert OfQueue(bl, q) + [] == OfQueue(bl, q) && [] + RevOfQueue(bl, q) == RevOfQueue(bl, q);
    if b.queue == q && to == ToIncoming {
      InflowPutBack(base, l0, l1, Place(l1, b, to), b);
      assert l0.incoming + OfQueue(bl, q) + [b] == l0.incoming + (OfQueue(bl, q) + [b]);
    }
    if b.queue == q && to == ToActive {
      OutflowSubmit(source, l0, l1, Place(l1, b, to), b);
      assert [b] + (RevOfQueue(bl, q) + l0.active) == ([b] + RevOfQueue(bl, q)) + l0.active;
    }
  }

  predicate Targets(e: Event, q: nat) { if e.PinReady? then e.pin == q else e.buffer.queue == q }

  lemma ElsewhereReact(l: Lane, q: nat, e: Event, verifying: bool)
    requires !Targets(e, q)
    ensures React(l, q, e, verifying) == l
  {}

  /** A set has one buffer of each of the first |bl| queues, the last queue's first. */
  ghost predicate OnePerQueue(bl: seq<Buffer>) { forall i | 0 <= i < |bl| :: bl[i].queue == |bl| - 1 - i }

  function Pick(bl: seq<Buffer>, q: nat): Buffer { if q < |bl| then bl[|bl| - 1 - q] else Buffer(0, 0, 0) }

  /** What a set has of a queue: one buffer or none. */
  function Taken(bl: seq<Buffer>, q: nat): seq<Buffer> { if q < |bl| then [Pick(bl, q)] else [] }

  lemma {:induction false} NoneOfQueue(q: nat, bl: seq<Buffer>)
    requires forall j | 0 <= j < |bl| :: bl[j].queue != q
    ensures OfQueue(bl, q) == [] && RevOfQueue(bl, q) == []
  {
    if bl != [] { NoneOfQueue(q, bl[..|bl| - 1]); }
  }

  lemma {:induction false} SingleOfQueue(q: nat, bl: seq<Buffer>, i: nat)
    requires i < |bl| && bl[i].queue == q
    requires forall j | 0 <= j < |bl| && j != i :: bl[j].queue != q
    ensures OfQueue(bl, q) == [bl[i]] && RevOfQueue(bl, q) == [bl[i]]
  {
    if i == |bl| - 1 {
      NoneOfQueue(q, bl[..|bl| - 1]);
    } else {
      SingleOfQueue(q, bl[..|bl| - 1], i);
    }
  }

  lemma SetOfQueue(q: nat, bl: seq<Buffer>)
    requires OnePerQueue(bl)
    ensures OfQueue(bl, q) == Taken(bl, q) && RevOfQueue(bl, q) == Taken(bl, q)
  {
    if q < |bl| { SingleOfQueue(q, bl, |bl| - 1 - q); } else { NoneOfQueue(q, bl); }
  }

  lemma TakeFacts(l: Lane, all: set<Buffer>)
    requires Balanced(l, all) && l.incoming != []
    ensures Balanced(TakeOldest(l), all) && Last(l.incoming) in all
    ensures Stock(TakeOldest(l)) == Stock(l) && Spoilt(TakeOldest(l)) == Spoilt(l)
    ensures TakeOldest(l).held == l.held + multiset{Last(l.incoming)}
  {
    NextBalanced(l, 0, Take, all);
    LastCounts(l.incoming);
    var b := Last(l.incoming);
    assert b in all by { assert Carried(l, b) + l.user[b] == One(b in all); }
  }

  lemma PutBackUndoesTake(l: Lane)
    requires l.incoming != []
    ensures PutBack(TakeOldest(l), Last(l.incoming)) == l
  {
    var b := Last(l.incoming);
    assert l.incoming[..|l.incoming| - 1] + [b] == l.incoming;
    assert l.held + multiset{b} - multiset{b} == l.held;
  }

  lemma HeldMore(l0: seq<Lane>, l1: seq<Lane>, b: Buffer, bl: seq<Buffer>)
    requires HeldIs(l0, bl) && |l1| == |l0| && b.queue < |l0|
    requires l1[b.queue].held == l0[b.queue].held + multiset{b}
    requires forall q | 0 <= q < |l0| && q != b.queue :: l1[q].held == l0[q].held
    ensures HeldIs(l1, [b] + bl)
  {
    forall q, x | 0 <= q < |l1| ensures l1[q].held[x] == if x.queue == q then multiset([b] + bl)[x] else 0 {
      assert multiset([b] + bl)[x] == multiset{b}[x] + multiset(bl)[x];
    }
  }

  lemma HeldFirst(lanes: seq<Lane>, b: Buffer, rest: seq<Buffer>)
    requires HeldIs(lanes, [b] + rest)
    ensures b.queue < |lanes| && b in lanes[b.queue].held
  {
    assert ([b] + rest)[0] == b;
    assert lanes[b.queue].held[b] == multiset([b] + rest)[b];
  }

  lemma HeldSame(l0: seq<Lane>, l1: seq<Lane>, bl: seq<Buffer>)
    requires HeldIs(l0, bl) && |l1| == |l0|
    requires forall q | 0 <= q < |l0| :: Drifted(l0[q], l1[q])
    ensures HeldIs(l1, bl)
  {
    hide Flow;
    forall q, b | 0 <= q < |l1| ensures l1[q].held[b] == if b.queue == q then multiset(bl)[b] else 0 {
      assert Drifted(l0[q], l1[q]);
    }
  }

  lemma HeldRest(l0: seq<Lane>, l1: seq<Lane>, b: Buffer, rest: seq<Buffer>)
    requires HeldIs(l0, [b] + rest)
    requires |l1| == |l0| && l1[b.queue].held == l0[b.queue].held - multiset{b}
    requires forall q | 0 <= q < |l0| && q != b.queue :: l1[q].held == l0[q].held
    ensures HeldIs(l1, rest)
  {
    forall q, x | 0 <= q < |l1| ensures l1[q].held[x] == if x.queue == q then multiset(rest)[x] else 0 {
      assert multiset([b] + rest)[x] == multiset{b}[x] + multiset(rest)[x];
      assert l0[q].held[x] == if x.queue == q then multiset([b] + rest)[x] else 0;
    }
  }

  // ---------------------------------------------------------------- what time and driver steps do to all queues

  /** What was played of a script that is down to `s1`. */
  function Played(s0: Script, s1: Script): Script
    requires |s1| <= |s0|
  {
    s0[..|s0| - |s1|]
  }

  /** What any stretch of time does to the script and the counts: each arrival uses up
      an event, buffers are parked only while a start is verified, and as long as the
      driver completes nothing its buffers and the firmware's completions always add
      up.  While a start is verified with no error but STR2MMIO, every completion is
      clean. */
  ghost predicate Passed(l0: seq<Lane>, s0: Script, l1: seq<Lane>, s1: Script, verifying: bool, kept: bool) {
    && |l1| == |l0| && |s1| <= |s0| && s1 == s0[|s0| - |s1|..]
    && (forall q | 0 <= q < |l0| :: EventsLeft(s1) + Arrived(l1[q]) <= EventsLeft(s0) + Arrived(l0[q]))
    && (forall q | 0 <= q < |l0| :: Spoilt(l0[q]) <= Spoilt(l1[q]))
    && (kept ==> forall q | 0 <= q < |l0| :: Stock(l1[q]) == Stock(l0[q]))
    && (verifying && CorruptOnly(Played(s0, s1)) ==> forall q | 0 <= q < |l0| :: Spoilt(l1[q]) == Spoilt(l0[q]))
    && (!verifying ==> forall q | 0 <= q < |l0| :: l1[q].parked == l0[q].parked)
  }

  lemma PlayedParts(s0: Script, s1: Script, s2: Script)
    requires |s2| <= |s1| <= |s0| && s1 == s0[|s0| - |s1|..] && s2 == s1[|s1| - |s2|..]
    ensures s2 == s0[|s0| - |s2|..]
    ensures CorruptOnly(Played(s0, s2)) ==> CorruptOnly(Played(s0, s1)) && CorruptOnly(Played(s1, s2))
  {
    hide Corrupt;
    var all, one, two := Played(s0, s2), Played(s0, s1), Played(s1, s2);
    assert all == one + two;
    if CorruptOnly(all) {
      forall i, j | 0 <= i < |one| && 0 <= j < |one[i]| ensures Corrupt(one[i][j]) { assert one[i] == all[i]; }
      forall i, j | 0 <= i < |two| && 0 <= j < |two[i]| ensures Corrupt(two[i][j]) { assert two[i] == all[|one| + i]; }
    }
  }

  /** Over any stretch in which the driver completes nothing, waiting, active and
      detached buffers plus clean deliveries, less what user space queued, stay the same
      exactly if every completion of the firmware was clean; so it is while a start is
      verified and the only error reported is STR2MMIO. */
  lemma ParkingConserves(l0: seq<Lane>, s0: Script, l1: seq<Lane>, s1: Script, verifying: bool, q: nat)
    requires Passed(l0, s0, l1, s1, verifying, true) && q < |l0|
    ensures var a, b := l0[q], l1[q];
            |a.incoming| + |a.active| + |a.held| + a.clean - |a.queued|
            == |b.incoming| + |b.active| + |b.held| + b.clean - |b.queued|
            <==> b.finished - a.finished == b.clean - a.clean
    ensures verifying && CorruptOnly(Played(s0, s1)) ==> l1[q].finished - l0[q].finished == l1[q].clean - l0[q].clean
  {
    hide CorruptOnly, Arrived;
    assert Stock(l1[q]) == Stock(l0[q]);
    assert verifying && CorruptOnly(Played(s0, s1)) ==> Spoilt(l1[q]) == Spoilt(l0[q]);
  }

  lemma PassedTrans(l0: seq<Lane>, s0: Script, l1: seq<Lane>, s1: Script, l2: seq<Lane>, s2: Script, verifying: bool, kept: bool)
    requires Passed(l0, s0, l1, s1, verifying, kept) && Passed(l1, s1, l2, s2, verifying, kept)
    ensures Passed(l0, s0, l2, s2, verifying, kept)
  {
    hide CorruptOnly, Stock, Spoilt, Arrived, EventsLeft;
    PlayedParts(s0, s1, s2);
  }

  lemma NothingPassed(l: seq<Lane>, s: Script, verifying: bool, kept: bool)
    ensures Passed(l, s, l, s, verifying, kept)
  {}

  lemma PassedLess(l0: seq<Lane>, s0: Script, l1: seq<Lane>, s1: Script, verifying: bool)
    requires Passed(l0, s0, l1, s1, verifying, true)
    ensures Passed(l0, s0, l1, s1, verifying, false)
  {}

  lemma PassedSize(l0: seq<Lane>, s0: Script, l1: seq<Lane>, s1: Script, verifying: bool, kept: bool)
    requires Passed(l0, s0, l1, s1, verifying, kept)
    ensures |l1| == |l0|
  {}

  /** A driver step on one queue takes no time. */
  lemma StepPassed(l0: seq<Lane>, s: Script, q: nat, r: Lane, verifying: bool, kept: bool)
    requires q < |l0| && Arrived(r) == Arrived(l0[q]) && r.parked == l0[q].parked && Spoilt(r) == Spoilt(l0[q])
    requires kept ==> Stock(r) == Stock(l0[q])
    ensures Passed(l0, s, l0[q := r], s, verifying, kept)
  {}

  ghost predicate AllDrifted(l0: seq<Lane>, l1: seq<Lane>) { |l1| == |l0| && forall q | 0 <= q < |l0| :: Drifted(l0[q], l1[q]) }

  lemma AllDriftNone(l: seq<Lane>)
    ensures AllDrifted(l, l)
  {
    hide Flow;
    forall q | 0 <= q < |l| ensures Drifted(l[q], l[q]) { FlowNone(l[q]); }
  }

  lemma AllDriftTrans(l0: seq<Lane>, l1: seq<Lane>, l2: seq<Lane>)
    requires AllDrifted(l0, l1) && AllDrifted(l1, l2)
    ensures AllDrifted(l0, l2)
  {
    hide Drifted;
    forall q | 0 <= q < |l0| ensures Drifted(l0[q], l2[q]) { DriftTrans(l0[q], l1[q], l2[q]); }
  }

  lemma DriftHeld(l0: seq<Lane>, l1: seq<Lane>, bl: seq<Buffer>)
    requires AllDrifted(l0, l1) && HeldIs(l0, bl)
    ensures |l1| == |l0| && HeldIs(l1, bl)
  {
    hide Drifted;
    HeldSame(l0, l1, bl);
  }

  lemma DriftKeepsHeld(l0: Lane, l1: Lane)
    requires Drifted(l0, l1)
    ensures l1.held == l0.held
  {}

  /** Placing the first of a local list leaves the others detached. */
  lemma PlaceHeld(l0: seq<Lane>, mid: seq<Lane>, b: Buffer, rest: seq<Buffer>, to: Destination)
    requires HeldIs(l0, [b] + rest) && AllDrifted(l0, mid) && b.queue < |mid|
    ensures HeldIs(mid[b.queue := Place(mid[b.queue], b, to)], rest)
  {
    hide AllDrifted, HeldIs, Place;
    DriftHeld(l0, mid, [b] + rest);
    PlaceFacts(mid[b.queue], b, to);
    HeldRest(mid, mid[b.queue := Place(mid[b.queue], b, to)], b, rest);
  }

  /** The first `i` events of a batch have happened. */
  ghost predicate Playing(l0: seq<Lane>, l1: seq<Lane>, batch: seq<Event>, i: nat, verifying: bool) {
    && i <= |batch| && AllDrifted(l0, l1)
    && (forall q | 0 <= q < |l0| ::
          && Arrived(l1[q]) <= Arrived(l0[q]) + i && Stock(l1[q]) == Stock(l0[q]) && Spoilt(l0[q]) <= Spoilt(l1[q])
          && (!verifying ==> l1[q].parked == l0[q].parked))
    && (verifying && (forall j | 0 <= j < i :: Corrupt(batch[j])) ==>
          forall q | 0 <= q < |l0| :: Spoilt(l1[q]) == Spoilt(l0[q]))
  }

  lemma NothingPlayed(l: seq<Lane>, batch: seq<Event>, verifying: bool)
    ensures Playing(l, l, batch, 0, verifying)
  {
    hide AllDrifted, Arrived, Stock, Spoilt, Corrupt;
    AllDriftNone(l);
  }

  lemma EventPlayed(l0: seq<Lane>, l1: seq<Lane>, l2: seq<Lane>, batch: seq<Event>, i: nat, verifying: bool)
    requires i < |batch| && |l2| == |l1| && Playing(l0, l1, batch, i, verifying)
    requires forall q | 0 <= q < |l1| :: l2[q] == React(l1[q], q, batch[i], verifying)
    ensures Playing(l0, l2, batch, i + 1, verifying)
  {
    hide Arrived, Stock, Spoilt, Drifted, React, Corrupt;
    forall q | 0 <= q < |l1|
      ensures Drifted(l1[q], l2[q]) && Arrived(l2[q]) <= Arrived(l1[q]) + 1
      ensures !verifying ==> l2[q].parked == l1[q].parked
      ensures Stock(l2[q]) == Stock(l1[q]) && Spoilt(l1[q]) <= Spoilt(l2[q])
      ensures verifying && Corrupt(batch[i]) ==> Spoilt(l2[q]) == Spoilt(l1[q])
    {
      ReactDrift(l1[q], q, batch[i], verifying);
    }
    AllDriftTrans(l0, l1, l2);
  }

  lemma BatchPlayed(l0: seq<Lane>, s: Script, l1: seq<Lane>, verifying: bool)
    requires s != [] && Playing(l0, l1, s[0], |s[0]|, verifying)
    ensures AllDrifted(l0, l1) && Passed(l0, s, l1, s[1..], verifying, true)
  {
    hide Drifted, Arrived, Stock, Spoilt, Corrupt;
    assert Played(s, s[1..]) == [s[0]];
    if CorruptOnly([s[0]]) {
      forall j | 0 <= j < |s[0]| ensures Corrupt(s[0][j]) { assert Corrupt([s[0]][0][j]); }
    }
  }

  /** Every queue after one event, and after the first `i` events of a batch. */
  function Reacted(lanes: seq<Lane>, e: Event, verifying: bool): seq<Lane> {
    seq(|lanes|, q requires 0 <= q < |lanes| => React(lanes[q], q, e, verifying))
  }

  function Reactions(lanes: seq<Lane>, batch: seq<Event>, i: nat, verifying: bool): seq<Lane>
    requires i <= |batch|
  {
    if i == 0 then lanes else Reacted(Reactions(lanes, batch, i - 1, verifying), batch[i - 1], verifying)
  }

  /** How many of the first `i` events deliver a clean frame. */
  function Frames(batch: seq<Event>, i: nat): nat
    requires i <= |batch|
  {
    if i == 0 then 0 else Frames(batch, i - 1) + One(batch[i - 1].PinReady? && batch[i - 1].error == Clean)
  }

  /** The next batch of the script, if there is one, and nothing else has happened. */
  ghost predicate PlayedNext(l0: seq<Lane>, s0: Script, l1: seq<Lane>, s1: Script, frames: int, verifying: bool) {
    if s0 == [] then l1 == l0 && s1 == s0 && frames == 0
    else l1 == Reactions(l0, s0[0], |s0[0]|, verifying) && s1 == s0[1..] && frames == Frames(s0[0], |s0[0]|)
  }

  /** What emptying a local list into `to` does, on top of interference. */
  ghost predicate Emptied(l0: seq<Lane>, l1: seq<Lane>, bl: seq<Buffer>, to: Destination) {
    |l1| == |l0| && forall q | 0 <= q < |l0| :: Settled(l0[q], l1[q], q, bl, to)
  }

  /** The first `|bl|` queues each gave their oldest buffer to `bl`. */
  ghost predicate Took(l0: seq<Lane>, l1: seq<Lane>, bl: seq<Buffer>) {
    && |bl| <= |l1| == |l0|
    && OnePerQueue(bl)
    && forall q | 0 <= q < |l0| :: Flow(l0[q], l1[q], Taken(bl, q), [])
  }

  lemma NothingEmptied(l: seq<Lane>, to: Destination)
    ensures Emptied(l, l, [], to)
  {
    hide Settled;
    forall q | 0 <= q < |l| ensures Settled(l[q], l[q], q, [], to) { NothingSettled(l[q], q, to); }
  }

  lemma NothingTaken(l: seq<Lane>)
    ensures Took(l, l, [])
  {
    hide Flow;
    forall q | 0 <= q < |l| ensures Flow(l[q], l[q], Taken([], q), []) { FlowNone(l[q]); }
  }

  lemma PlaceStep(l0: seq<Lane>, l1: seq<Lane>, mid: seq<Lane>, bl: seq<Buffer>, i: nat, to: Destination)
    requires i < |bl| && bl[i].queue < |l0|
    requires Emptied(l0, l1, bl[..i], to) && AllDrifted(l1, mid)
    ensures var q := bl[i].queue;
            Emptied(l0, mid[q := Place(mid[q], bl[i], to)], bl[..i + 1], to)
  {
    hide Settled, Drifted, Place;
    var b := bl[i];
    var l2 := mid[b.queue := Place(mid[b.queue], b, to)];
    assert bl[..i + 1] == bl[..i] + [b];
    forall q | 0 <= q < |l0| ensures Settled(l0[q], l2[q], q, bl[..i + 1], to) {
      SettledDrift(l0[q], l1[q], mid[q], q, bl[..i], to);
      SettledPlace(l0[q], mid[q], q, bl[..i], b, to);
    }
  }

  lemma TakeCounts(l: Lane)
    requires l.incoming != []
    ensures Arrived(TakeOldest(l)) == Arrived(l) && TakeOldest(l).parked == l.parked
  {}

  lemma TookLater(l0: seq<Lane>, l1: seq<Lane>, l2: seq<Lane>, bl: seq<Buffer>)
    requires Took(l0, l1, bl) && AllDrifted(l1, l2)
    ensures Took(l0, l2, bl)
  {
    hide Flow, OnePerQueue, Taken;
    forall q | 0 <= q < |l0| ensures Flow(l0[q], l2[q], Taken(bl, q), []) {
      assert Drifted(l1[q], l2[q]);
      FlowDrift(l0[q], l1[q], l2[q], Taken(bl, q), []);
    }
  }

  lemma TakeFlow(l0: Lane, l1: Lane)
    requires Flow(l0, l1, [], []) && l1.incoming != []
    ensures Flow(l0, TakeOldest(l1), [Last(l1.incoming)], [])
  {
    hide Suffix, Sub;
    assert TakeOldest(l1).incoming + [Last(l1.incoming)] == l1.incoming + [];
  }

  lemma TakeStep(l0: seq<Lane>, l1: seq<Lane>, bl: seq<Buffer>)
    requires |bl| < |l0| == |l1| && Took(l0, l1, bl)
    requires l1[|bl|].incoming != [] && Last(l1[|bl|].incoming).queue == |bl|
    ensures var q := |bl|; Took(l0, l1[q := TakeOldest(l1[q])], [Last(l1[q].incoming)] + bl)
  {
    hide Flow, TakeOldest;
    var n := |bl|;
    var l2 := l1[n := TakeOldest(l1[n])];
    var more := [Last(l1[n].incoming)] + bl;
    assert Taken(bl, n) == [];
    TakeFlow(l0[n], l1[n]);
    forall q | 0 <= q < |l0| ensures Flow(l0[q], l2[q], Taken(more, q), []) {
      if q != n { assert Taken(more, q) == Taken(bl, q); }
    }
  }

  lemma PutBackLane(l0: Lane, l1: Lane, l2: Lane, q: nat, bl: seq<Buffer>)
    requires OnePerQueue(bl) && Flow(l0, l1, Taken(bl, q), []) && Settled(l1, l2, q, bl, ToIncoming)
    ensures Flow(l0, l2, [], [])
  {
    hide Taken, OnePerQueue, Sub, Suffix, Arrived, Left;
    var t := Taken(bl, q);
    SetOfQueue(q, bl);
    SuffixTrans(l0.incoming, l1.incoming + t, l2.incoming + []);
    assert [] + l1.active == l1.active && [] + l0.active == l0.active;
    SubTrans(l2.active, l1.active, l0.active);
  }

  /** A failed attempt leaves every queue with its old buffers in their old order. */
  lemma PutBackStep(l0: seq<Lane>, l1: seq<Lane>, l2: seq<Lane>, bl: seq<Buffer>)
    requires Took(l0, l1, bl) && Emptied(l1, l2, bl, ToIncoming)
    ensures Took(l0, l2, [])
  {
    hide Flow, Settled;
    forall q | 0 <= q < |l0| ensures Flow(l0[q], l2[q], Taken([], q), []) {
      PutBackLane(l0[q], l1[q], l2[q], q, bl);
    }
  }

  lemma TookSize(l0: seq<Lane>, l1: seq<Lane>, bl: seq<Buffer>)
    requires Took(l0, l1, bl)
    ensures |l1| == |l0| && OnePerQueue(bl) && forall q | 0 <= q < |l0| :: Flow(l0[q], l1[q], Taken(bl, q), [])
  {}

  // ---------------------------------------------------------------- feeding the firmware

  /** What one attempt to hand over a buffer set came to. */
  datatype Fed = Nothing | NoMessage | Refused | Accepted

  /** What the sets took from queue `q`, the latest first: a stretch of its
      incoming list. */
  function Drawn(sets: seq<seq<Buffer>>, q: nat): seq<Buffer> {
    if sets == [] then [] else [Pick(sets[|sets| - 1], q)] + Drawn(sets[..|sets| - 1], q)
  }

  /** The buffer sets handed over between two states, each with one buffer of every
      queue.  Whatever interferes, the sets take the buffers of every queue in the
      order they were queued. */
  ghost predicate Feeding(l0: seq<Lane>, l1: seq<Lane>, sets: seq<seq<Buffer>>) {
    && |l1| == |l0|
    && (forall i | 0 <= i < |sets| :: |sets[i]| == |l0| && OnePerQueue(sets[i]))
    && forall q | 0 <= q < |l0| :: Flow(l0[q], l1[q], Drawn(sets, q), Drawn(sets, q))
  }

  lemma NothingFed(l: seq<Lane>)
    ensures Feeding(l, l, [])
  {
    hide Flow;
    forall q | 0 <= q < |l| ensures Flow(l[q], l[q], Drawn([], q), Drawn([], q)) { FlowNone(l[q]); }
  }

  lemma FeedingRest(l0: seq<Lane>, l1: seq<Lane>, l2: seq<Lane>, sets: seq<seq<Buffer>>)
    requires Feeding(l0, l1, sets) && Took(l1, l2, [])
    ensures Feeding(l0, l2, sets)
  {
    hide Flow, OnePerQueue, Drawn;
    forall q | 0 <= q < |l0| ensures Flow(l0[q], l2[q], Drawn(sets, q), Drawn(sets, q)) {
      assert Taken([], q) == [];
      FlowDrift(l0[q], l1[q], l2[q], Drawn(sets, q), Drawn(sets, q));
    }
  }

  lemma DrawnMore(sets: seq<seq<Buffer>>, bl: seq<Buffer>, q: nat)
    ensures Drawn(sets + [bl], q) == [Pick(bl, q)] + Drawn(sets, q)
  {
    assert (sets + [bl])[..|sets + [bl]| - 1] == sets;
  }

  lemma SubmittedFlow(l0: Lane, l1: Lane, q: nat, bl: seq<Buffer>)
    requires OnePerQueue(bl) && Settled(l0, l1, q, bl, ToActive)
    ensures Flow(l0, l1, [], Taken(bl, q))
  {
    hide Inflow, Outflow, OnePerQueue, Taken;
    SetOfQueue(q, bl);
    assert l0.incoming + [] == l0.incoming;
  }

  lemma FeedingMore(l0: seq<Lane>, l1: seq<Lane>, l2: seq<Lane>, l3: seq<Lane>, sets: seq<seq<Buffer>>, bl: seq<Buffer>)
    requires Feeding(l0, l1, sets) && Took(l1, l2, bl) && |bl| == |l2| && Emptied(l2, l3, bl, ToActive)
    ensures Feeding(l0, l3, sets + [bl])
  {
    hide Flow, OnePerQueue, Drawn, Settled, Pick;
    forall q | 0 <= q < |l0| ensures Flow(l0[q], l3[q], Drawn(sets + [bl], q), Drawn(sets + [bl], q)) {
      var d, b := Drawn(sets, q), [Pick(bl, q)];
      DrawnMore(sets, bl, q);
      SubmittedFlow(l2[q], l3[q], q, bl);
      FlowTrans(l0[q], l1[q], l2[q], d, d, b, []);
      FlowTrans(l0[q], l2[q], l3[q], b + d, [] + d, [], b);
      assert [] + (b + d) == b + d && b + ([] + d) == b + d;
    }
  }

  lemma {:induction false} DrawnJoin(a: seq<seq<Buffer>>, b: seq<seq<Buffer>>, q: nat)
    ensures Drawn(a + b, q) == Drawn(b, q) + Drawn(a, q)
  {
    hide Pick;
    if b == [] {
      assert a + b == a;
    } else {
      hide Drawn;
      var most, last := b[..|b| - 1], b[|b| - 1];
      DrawnJoin(a, most, q);
      DrawnMore(a + most, last, q);
      DrawnMore(most, last, q);
      SplitLast(b);
      Assoc(a, most, [last]);
      Assoc([Pick(last, q)], Drawn(most, q), Drawn(a, q));
    }
  }

  lemma FeedingJoin(l0: seq<Lane>, l1: seq<Lane>, l2: seq<Lane>, a: seq<seq<Buffer>>, b: seq<seq<Buffer>>)
    requires Feeding(l0, l1, a) && Feeding(l1, l2, b)
    ensures Feeding(l0, l2, a + b)
  {
    hide Flow, OnePerQueue, Drawn;
    forall q | 0 <= q < |l0| ensures Flow(l0[q], l2[q], Drawn(a + b, q), Drawn(a + b, q)) {
      DrawnJoin(a, b, q);
      FlowTrans(l0[q], l1[q], l2[q], Drawn(a, q), Drawn(a, q), Drawn(b, q), Drawn(b, q));
    }
  }

  /** The i-th set takes the i-th oldest buffer of every queue. */
  lemma DrawnInOrder(l0: Lane, l1: Lane, sets: seq<seq<Buffer>>, q: nat, i: nat)
    requires Flow(l0, l1, Drawn(sets, q), Drawn(sets, q)) && i < |sets| && i < |l0.incoming|
    ensures Pick(sets[i], q) == l0.incoming[|l0.incoming| - 1 - i]
  {
    DrawnAt(sets, q, i);
    hide Drawn, Outflow, Arrived;
    var d := Drawn(sets, q);
    var t := l1.incoming + d;
    assert t[|t| - 1 - i] == d[|d| - 1 - i];
    assert l0.incoming[|l0.incoming| - 1 - i] == t[|t| - |l0.incoming|..][|l0.incoming| - 1 - i];
  }

  lemma {:induction false} DrawnAt(sets: seq<seq<Buffer>>, q: nat, i: nat)
    requires i < |sets|
    ensures |Drawn(sets, q)| == |sets| && Drawn(sets, q)[|sets| - 1 - i] == Pick(sets[i], q)
  {
    if i == |sets| - 1 {
      if i > 0 { DrawnAt(sets[..i], q, 0); }
    } else {
      DrawnAt(sets[..|sets| - 1], q, i);
    }
  }

  lemma {:induction false} DrawnSize(sets: seq<seq<Buffer>>, q: nat)
    ensures |Drawn(sets, q)| == |sets|
  {
    if sets != [] { DrawnSize(sets[..|sets| - 1], q); }
  }

  // ---------------------------------------------------------------- how many sets there are

  function Least(ns: seq<int>): (n: int)
    requires ns != []
    ensures forall q | 0 <= q < |ns| :: n <= ns[q]
    ensures n in ns
  {
    if |ns| == 1 then ns[0]
    else
      var rest := Least(ns[1..]);
      if rest <= ns[0] then rest else ns[0]
  }

  /** How long the incoming lists are. */
  function Lengths(lanes: seq<Lane>): seq<int> { seq(|lanes|, q requires 0 <= q < |lanes| => |lanes[q].incoming|) }

  /** How many buffers each queue has had on offer: those waiting and those that arrived. */
  function Offers(l0: seq<Lane>, l1: seq<Lane>): seq<int>
    requires |l1| == |l0|
  {
    seq(|l0|, q requires 0 <= q < |l0| => |l0[q].incoming| + Arrived(l1[q]) - Arrived(l0[q]))
  }

  ghost predicate NothingArrived(l0: seq<Lane>, l1: seq<Lane>) {
    |l1| == |l0| && forall q | 0 <= q < |l0| :: Arrived(l1[q]) == Arrived(l0[q])
  }

  ghost predicate SomeEmpty(lanes: seq<Lane>) { exists q :: 0 <= q < |lanes| && lanes[q].incoming == [] }

  lemma FlowCount(l0: Lane, l1: Lane, drawn: seq<Buffer>, fed: seq<Buffer>)
    requires Flow(l0, l1, drawn, fed)
    ensures |l1.incoming| + |drawn| == |l0.incoming| + Arrived(l1) - Arrived(l0)
    ensures Arrived(l0) <= Arrived(l1) && Left(l0) <= Left(l1)
  {}

  /** Whatever interferes, once some queue has run dry the sets are exactly as many as
      the least any queue has had on offer. */
  lemma FedDry(l0: seq<Lane>, l1: seq<Lane>, sets: seq<seq<Buffer>>)
    requires Feeding(l0, l1, sets) && SomeEmpty(l1)
    ensures |sets| == Least(Offers(l0, l1))
  {
    hide Flow, OnePerQueue, Drawn, Arrived;
    forall q | 0 <= q < |l0| ensures |l1[q].incoming| + |sets| == Offers(l0, l1)[q] {
      FlowCount(l0[q], l1[q], Drawn(sets, q), Drawn(sets, q));
      DrawnSize(sets, q);
    }
    var q :| 0 <= q < |l1| && l1[q].incoming == [];
    var p :| 0 <= p < |l0| && Offers(l0, l1)[p] == Least(Offers(l0, l1));
  }

  lemma LeastMonotone(a: seq<int>, b: seq<int>)
    requires |a| == |b| > 0 && forall q | 0 <= q < |a| :: a[q] <= b[q]
    ensures Least(a) <= Least(b)
  {
    var q :| 0 <= q < |b| && b[q] == Least(b);
    assert Least(a) <= a[q];
  }

  /** So they are at least as many as the shortest incoming list was long, and exactly
      as many if nothing arrived. */
  lemma OffersLeast(l0: seq<Lane>, l1: seq<Lane>)
    requires l0 != [] && |l1| == |l0| && forall q | 0 <= q < |l0| :: Arrived(l0[q]) <= Arrived(l1[q])
    ensures Least(Offers(l0, l1)) >= Least(Lengths(l0))
    ensures NothingArrived(l0, l1) ==> Least(Offers(l0, l1)) == Least(Lengths(l0))
  {
    hide Arrived, Least;
    var a, b := Lengths(l0), Offers(l0, l1);
    forall q | 0 <= q < |a| ensures a[q] <= b[q] {}
    LeastMonotone(a, b);
    if NothingArrived(l0, l1) {
      forall q | 0 <= q < |a| ensures b[q] <= a[q] {}
      LeastMonotone(b, a);
    }
  }

  lemma FeedingArrived(l0: seq<Lane>, l1: seq<Lane>, sets: seq<seq<Buffer>>)
    requires Feeding(l0, l1, sets)
    ensures |l1| == |l0| && forall q | 0 <= q < |l0| :: Arrived(l0[q]) <= Arrived(l1[q])
  {
    hide Flow, OnePerQueue, Drawn, Arrived;
    forall q | 0 <= q < |l0| ensures Arrived(l0[q]) <= Arrived(l1[q]) {
      FlowCount(l0[q], l1[q], Drawn(sets, q), Drawn(sets, q));
    }
  }

  /** The bound that makes a submission loop end: the script is finite. */
  lemma FeedingBound(l0: seq<Lane>, s0: Script, l1: seq<Lane>, s1: Script, sets: seq<seq<Buffer>>, verifying: bool)
    requires Feeding(l0, l1, sets) && Passed(l0, s0, l1, s1, verifying, true) && l0 != []
    ensures |sets| <= EventsLeft(s0) + |l0[0].incoming|
  {
    hide Flow, OnePerQueue, Drawn, Arrived, Stock, Spoilt, CorruptOnly;
    FlowCount(l0[0], l1[0], Drawn(sets, 0), Drawn(sets, 0));
    DrawnSize(sets, 0);
  }

  /** The queues ran dry: one was found empty at `look`, and after that nothing was
      taken.  So no complete set waited then, and what waits now came later. */
  ghost predicate RanDry(look: seq<Lane>, l1: seq<Lane>) { SomeEmpty(look) && Took(look, l1, []) }

  /** How many sets that is: as many as the least any queue has had on offer, so never
      fewer than the shortest incoming list, and no more if nothing arrives. */
  ghost predicate AllFed(l0: seq<Lane>, look: seq<Lane>, l1: seq<Lane>, n: nat) {
    && |l1| == |look| == |l0| > 0
    && n == Least(Offers(l0, look))
    && n >= Least(Lengths(l0))
    && (NothingArrived(l0, l1) ==> n == Least(Lengths(l0)))
  }

  lemma RanDryNow(look: seq<Lane>, l1: seq<Lane>)
    requires SomeEmpty(look) && Took(look, l1, [])
    ensures RanDry(look, l1)
  {}

  lemma AllFedCount(l0: seq<Lane>, look: seq<Lane>, l1: seq<Lane>, sets: seq<seq<Buffer>>)
    requires Feeding(l0, look, sets) && RanDry(look, l1) && l0 != []
    ensures AllFed(l0, look, l1, |sets|)
  {
    hide Feeding, Flow, Least, Offers, Lengths, Arrived, SomeEmpty, OnePerQueue;
    FedDry(l0, look, sets);
    FeedingArrived(l0, look, sets);
    OffersLeast(l0, look);
    if NothingArrived(l0, l1) {
      forall q | 0 <= q < |l0| ensures Arrived(look[q]) == Arrived(l0[q]) {
        FlowCount(look[q], l1[q], Taken([], q), []);
      }
    }
  }

  lemma RanDryRest(l0: seq<Lane>, look: seq<Lane>, l1: seq<Lane>, sets: seq<seq<Buffer>>)
    requires Feeding(l0, look, sets) && RanDry(look, l1)
    ensures Feeding(l0, l1, sets)
  {
    FeedingRest(l0, look, l1, sets);
  }

  lemma DriftTook(l0: seq<Lane>, l1: seq<Lane>)
    requires AllDrifted(l0, l1)
    ensures Took(l0, l1, [])
  {
    hide Took, AllDrifted;
    NothingTaken(l0);
    TookLater(l0, l0, l1, []);
  }

  /** Interference before the feeding changes nothing about the sets. */
  lemma FeedingEarlier(l0: seq<Lane>, l1: seq<Lane>, l2: seq<Lane>, sets: seq<seq<Buffer>>)
    requires AllDrifted(l0, l1) && Feeding(l1, l2, sets)
    ensures Feeding(l0, l2, sets)
  {
    hide Feeding, AllDrifted;
    DriftFed(l0, l1);
    FeedingJoin(l0, l1, l2, [], sets);
    assert [] + sets == sets;
  }

  lemma FeedingDrift(l0: seq<Lane>, l1: seq<Lane>, l2: seq<Lane>, sets: seq<seq<Buffer>>)
    requires Feeding(l0, l1, sets) && AllDrifted(l1, l2)
    ensures Feeding(l0, l2, sets)
  {
    hide Feeding, AllDrifted, Took;
    DriftTook(l1, l2);
    FeedingRest(l0, l1, l2, sets);
  }

  lemma DriftFed(l0: seq<Lane>, l1: seq<Lane>)
    requires AllDrifted(l0, l1)
    ensures Feeding(l0, l1, [])
  {
    hide Feeding, Took, AllDrifted;
    NothingFed(l0);
    DriftTook(l0, l1);
    FeedingRest(l0, l0, l1, []);
  }

  /** Nothing was parked between two states. */
  ghost predicate NoneParked(l0: seq<Lane>, l1: seq<Lane>) { |l1| == |l0| && forall q | 0 <= q < |l0| :: l1[q].parked == l0[q].parked }

  lemma PassedParked(l0: seq<Lane>, s0: Script, l1: seq<Lane>, s1: Script, verifying: bool, kept: bool)
    requires Passed(l0, s0, l1, s1, verifying, kept)
    ensures !verifying ==> NoneParked(l0, l1)
  {}

  /** A queue found empty was empty before: interference only adds to it. */
  lemma FoundEmpty(l0: seq<Lane>, l1: seq<Lane>, bl: seq<Buffer>, q: nat)
    requires Took(l0, l1, bl) && |bl| <= q < |l0| && l1[q].incoming == []
    ensures SomeEmpty(l0)
  {
    hide Flow, OnePerQueue;
    FlowCount(l0[q], l1[q], Taken(bl, q), []);
  }

  // ---------------------------------------------------------------- a stream and its first set

  /** A stream started with the set `bl` and fed `sets` since. */
  ghost predicate Streamed(l0: seq<Lane>, l1: seq<Lane>, bl: seq<Buffer>, sets: seq<seq<Buffer>>) {
    && |l1| == |l0|
    && (forall i | 0 <= i < |sets| :: |sets[i]| == |l0| && OnePerQueue(sets[i]))
    && forall q | 0 <= q < |l0| :: Flow(l0[q], l1[q], Drawn(sets, q), Drawn(sets, q) + Taken(bl, q))
  }

  /** With the first set taken from the queues as they were at `l`, that is one feeding
      of all the sets, the first one first. */
  lemma StreamedAll(l: seq<Lane>, l0: seq<Lane>, l1: seq<Lane>, bl: seq<Buffer>, sets: seq<seq<Buffer>>)
    requires Took(l, l0, bl) && |bl| == |l0| && Streamed(l0, l1, bl, sets)
    ensures Feeding(l, l1, [bl] + sets)
  {
    hide Flow, OnePerQueue, Drawn, Pick;
    forall q | 0 <= q < |l| ensures Flow(l[q], l1[q], Drawn([bl] + sets, q), Drawn([bl] + sets, q)) {
      var d, b := Drawn(sets, q), Taken(bl, q);
      FlowTrans(l[q], l0[q], l1[q], b, [], d, d + b);
      DrawnOne(bl, q);
      DrawnJoin([bl], sets, q);
      assert d + b + [] == d + b;
    }
  }

  lemma DrawnOne(bl: seq<Buffer>, q: nat)
    ensures Drawn([bl], q) == [Pick(bl, q)]
  {
    var none: seq<seq<Buffer>> := [];
    DrawnMore(none, bl, q);
    assert none + [bl] == [bl] && [Pick(bl, q)] + Drawn(none, q) == [Pick(bl, q)];
  }

  lemma StreamedFirst(l0: seq<Lane>, l1: seq<Lane>, l2: seq<Lane>, bl: seq<Buffer>)
    requires AllDrifted(l0, l1) && OnePerQueue(bl) && Emptied(l1, l2, bl, ToActive)
    ensures Streamed(l0, l2, bl, [])
  {
    hide Flow, OnePerQueue, Settled, Taken;
    forall q | 0 <= q < |l0| ensures Flow(l0[q], l2[q], Drawn([], q), Drawn([], q) + Taken(bl, q)) {
      SubmittedFlow(l1[q], l2[q], q, bl);
      assert Drifted(l0[q], l1[q]);
      FlowTrans(l0[q], l1[q], l2[q], [], [], [], Taken(bl, q));
      assert Taken(bl, q) + [] == [] + Taken(bl, q);
      var none: seq<Buffer> := [];
      assert none + none == none;
    }
  }

  lemma StreamedMore(l0: seq<Lane>, l1: seq<Lane>, l2: seq<Lane>, bl: seq<Buffer>, sets: seq<seq<Buffer>>)
    requires Streamed(l0, l1, bl, []) && Feeding(l1, l2, sets)
    ensures Streamed(l0, l2, bl, sets)
  {
    hide Flow, OnePerQueue, Taken;
    forall q | 0 <= q < |l0| ensures Flow(l0[q], l2[q], Drawn(sets, q), Drawn(sets, q) + Taken(bl, q)) {
      var d := Drawn(sets, q);
      FlowTrans(l0[q], l1[q], l2[q], Drawn([], q), Drawn([], q) + Taken(bl, q), d, d);
      assert d + Drawn([], q) == d && d + (Drawn([], q) + Taken(bl, q)) == d + Taken(bl, q);
    }
  }

  /** What waited at the start is not more than what waits once the first set is out. */
  lemma StreamedLengths(l0: seq<Lane>, l1: seq<Lane>, bl: seq<Buffer>)
    requires Streamed(l0, l1, bl, []) && l0 != []
    ensures |l1| == |l0| && Least(Lengths(l0)) <= Least(Lengths(l1))
  {
    hide Flow, Taken, Arrived;
    forall q | 0 <= q < |l0| ensures |l0[q].incoming| <= |l1[q].incoming| {
      FlowCount(l0[q], l1[q], Drawn([], q), Drawn([], q) + Taken(bl, q));
    }
    LeastMonotone(Lengths(l0), Lengths(l1));
  }

  /** A queue gives no more sets than it has had on offer. */
  lemma StreamedAtMost(l0: seq<Lane>, l1: seq<Lane>, bl: seq<Buffer>, sets: seq<seq<Buffer>>)
    requires Streamed(l0, l1, bl, sets) && l0 != []
    ensures |l1| == |l0| && |sets| <= Least(Offers(l0, l1))
    ensures NothingArrived(l0, l1) ==> |sets| <= Least(Lengths(l0))
  {
    hide Flow, Taken, Drawn, Arrived;
    forall q | 0 <= q < |l0| ensures |sets| <= Offers(l0, l1)[q] && Arrived(l0[q]) <= Arrived(l1[q]) {
      FlowCount(l0[q], l1[q], Drawn(sets, q), Drawn(sets, q) + Taken(bl, q));
      DrawnSize(sets, q);
    }
    OffersLeast(l0, l1);
  }

  /** What a successful start has handed over: `bl`, if any, and then one set after
      another, at least as many as were complete before and no more than were on offer. */
  ghost predicate StartedWith(given0: seq<seq<Buffer>>, given1: seq<seq<Buffer>>, l0: seq<Lane>, l1: seq<Lane>, bl: seq<Buffer>) {
    var first := if bl == [] then [] else [bl];
    && given0 + first <= given1 && |l1| == |l0| > 0
    && var sets := given1[|given0 + first|..];
       && Streamed(l0, l1, bl, sets)
       && Least(Lengths(l0)) <= |sets| <= Least(Offers(l0, l1))
       && (NothingArrived(l0, l1) ==> |sets| == Least(Lengths(l0)))
  }

  lemma StartedNow(given0: seq<seq<Buffer>>, first: seq<seq<Buffer>>, given1: seq<seq<Buffer>>, l0: seq<Lane>,
                   started: seq<Lane>, l1: seq<Lane>, bl: seq<Buffer>)
    requires first == given0 + (if bl == [] then [] else [bl]) && first <= given1 && l0 != []
    requires Streamed(l0, started, bl, []) && Feeding(started, l1, given1[|first|..]) && started != []
    requires Least(Lengths(started)) <= |given1| - |first|
    ensures StartedWith(given0, given1, l0, l1, bl)
  {
    hide Streamed, Feeding, Least, Lengths, Offers, NothingArrived, Arrived;
    StreamedMore(l0, started, l1, bl, given1[|first|..]);
    StreamedLengths(l0, started, bl);
    StreamedAtMost(l0, l1, bl, given1[|first|..]);
  }
}
