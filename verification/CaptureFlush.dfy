/** Taking buffers back from the firmware, on values: the whole of every active list
    (flush_firmware_streamon_fail), the buffers of one failed set
    (buffer_list_active_error), or a queue's buffers one by one (return_buffers),
    while user space and the firmware go on. */
module CaptureFlush {
  import opened Common
  import opened CaptureLane
  import opened CaptureSets

  // ---------------------------------------------------------------- completions

  /** All completions since `a0` carry the one state. */
  predicate AnsweredWith(a0: seq<Given>, a1: seq<Given>, state: VbState) {
    a0 <= a1 && forall i | |a0| <= i < |a1| :: a1[i].state == state
  }

  lemma GivesAnswer(a: seq<Given>, bl: seq<Buffer>, state: VbState)
    ensures AnsweredWith(a, a + Gives(bl, state), state)
  {}

  lemma AnsweredSelf(a: seq<Given>, state: VbState)
    ensures AnsweredWith(a, a, state)
  {}

  lemma GivesSnoc(bl: seq<Buffer>, b: Buffer, state: VbState)
    ensures Gives(bl + [b], state) == Gives(bl, state) + [Given(b, state)]
  {}

  lemma ActiveOf(l: Lane, all: set<Buffer>, b: Buffer)
    requires Balanced(l, all) && b in l.active
    ensures b in all && multiset(l.active)[b] == 1
  {
    assert b in multiset(l.active);
    assert Carried(l, b) + l.user[b] == One(b in all);
  }

  lemma IncomingOf(l: Lane, all: set<Buffer>, b: Buffer)
    requires Balanced(l, all) && b in l.incoming
    ensures b in all
  {
    assert b in multiset(l.incoming);
    assert Carried(l, b) + l.user[b] == One(b in all);
  }

  lemma HeldJoin(l0: seq<Lane>, l1: seq<Lane>, q: nat, bl: seq<Buffer>, more: seq<Buffer>)
    requires HeldIs(l0, bl) && |l1| == |l0| && q < |l0|
    requires forall b | b in more :: b.queue == q
    requires l1[q].held == l0[q].held + multiset(more)
    requires forall p | 0 <= p < |l0| && p != q :: l1[p].held == l0[p].held
    ensures HeldIs(l1, bl + more)
  {
    forall b | b in bl + more ensures b.queue < |l1| {
      if b !in bl { assert b in more; }
    }
    forall p, x | 0 <= p < |l1| ensures l1[p].held[x] == if x.queue == p then multiset(bl + more)[x] else 0 {
      assert multiset(bl + more)[x] == multiset(bl)[x] + multiset(more)[x];
      assert x in multiset(more) <==> x in more;
    }
  }

  // ---------------------------------------------------------------- a whole active list

  function DetachAll(l: Lane): Lane { l.(active := [], held := l.held + multiset(l.active)) }

  /** The first active buffers of `l0`, `taken`, are detached in `l`. */
  predicate DetachedSome(l0: Lane, l: Lane, taken: seq<Buffer>) {
    && taken + l.active == l0.active
    && l == l0.(active := l.active, held := l0.held + multiset(taken))
  }

  lemma DetachNone(l: Lane)
    ensures DetachedSome(l, l, [])
  {
    assert l.held + multiset([]) == l.held;
  }

  lemma DetachFirst(l0: Lane, l: Lane, taken: seq<Buffer>)
    requires DetachedSome(l0, l, taken) && l.active != []
    ensures DetachedSome(l0, DetachActive(l, 0), taken + [l.active[0]])
    ensures |DetachActive(l, 0).active| < |l.active|
  {
    var b := l.active[0];
    assert Without(l.active, 0) == l.active[1..] && l.active == [b] + l.active[1..];
    assert taken + [b] + l.active[1..] == l0.active;
    assert l0.held + multiset(taken) + multiset{b} == l0.held + multiset(taken + [b]);
  }

  lemma DetachedRest(l0: Lane, l: Lane, taken: seq<Buffer>)
    requires DetachedSome(l0, l, taken) && l.active == []
    ensures taken == l0.active && l == DetachAll(l0)
  {}

  // ---------------------------------------------------------------- flushing every active list

  /** The active buffers of the first `n` queues, queue by queue. */
  function Actives(lanes: seq<Lane>, n: nat): seq<Buffer>
    requires n <= |lanes|
  {
    if n == 0 then [] else Actives(lanes, n - 1) + lanes[n - 1].active
  }

  /** How many the firmware has answered on the first `n` queues. */
  function LeftSum(l0: seq<Lane>, l1: seq<Lane>, n: nat): int
    requires n <= |l0| == |l1|
  {
    if n == 0 then 0 else LeftSum(l0, l1, n - 1) + Left(l1[n - 1]) - Left(l0[n - 1])
  }

  lemma {:induction false} LeftSumSame(l0: seq<Lane>, l1: seq<Lane>, l2: seq<Lane>, n: nat)
    requires n <= |l0| == |l1| == |l2| && forall q | 0 <= q < n :: Left(l2[q]) == Left(l1[q])
    ensures LeftSum(l0, l2, n) == LeftSum(l0, l1, n)
  {
    if n > 0 { LeftSumSame(l0, l1, l2, n - 1); }
  }

  /** The first `n` active lists are detached into `bl`: each in its order, without
      those the firmware answered first. */
  ghost predicate Detached(l0: seq<Lane>, l1: seq<Lane>, n: nat, bl: seq<Buffer>) {
    && n <= |l1| == |l0|
    && (forall q | 0 <= q < |l0| :: Inflow(l0[q].incoming, l0[q], l1[q], []))
    && (forall q | 0 <= q < n :: l1[q].active == [])
    && (forall q | n <= q < |l0| :: Outflow(l0[q].active, l0[q], l1[q]))
    && Sub(bl, Actives(l0, n))
    && |bl| + LeftSum(l0, l1, n) == |Actives(l0, n)|
  }

  lemma NothingDetached(l: seq<Lane>)
    ensures Detached(l, l, 0, [])
  {
    hide Inflow, Outflow;
    forall q | 0 <= q < |l| ensures Inflow(l[q].incoming, l[q], l[q], []) && Outflow(l[q].active, l[q], l[q]) {
      InflowSame(l[q], l[q]);
      OutflowSame(l[q], l[q]);
      assert [] + l[q].active == l[q].active;
    }
  }

  lemma NoneActive(l0: Lane, l1: Lane)
    requires Outflow([] + l0.active, l0, l1) && l0.active == []
    ensures l1.active == [] && Left(l1) == Left(l0)
  {}

  lemma DriftParts(base: seq<Buffer>, l0: Lane, l1: Lane, l2: Lane)
    requires Inflow(base, l0, l1, []) && Flow(l1, l2, [], [])
    ensures Inflow(base, l0, l2, [])
    ensures Outflow([] + l1.active, l1, l2)
    ensures Outflow(l0.active, l0, l1) ==> Outflow(l0.active, l0, l2)
  {
    hide Inflow, Outflow;
    InflowDrift(base, l0, l1, l2, []);
    if Outflow(l0.active, l0, l1) {
      OutflowTrans(l0.active, l0, l1, l2, []);
      assert [] + l0.active == l0.active;
    }
  }

  lemma DetachLane(l0: Lane, l: Lane)
    requires Inflow(l0.incoming, l0, l, []) && Outflow(l0.active, l0, l)
    ensures Inflow(l0.incoming, l0, DetachAll(l), []) && Left(DetachAll(l)) == Left(l)
    ensures Sub(l.active, l0.active) && |l.active| + Left(l) - Left(l0) == |l0.active|
  {}

  lemma DetachStep(l0: seq<Lane>, l1: seq<Lane>, mid: seq<Lane>, n: nat, bl: seq<Buffer>)
    requires Detached(l0, l1, n, bl) && AllDrifted(l1, mid) && n < |l0|
    ensures Detached(l0, mid[n := DetachAll(mid[n])], n + 1, bl + mid[n].active)
  {
    hide Inflow, Outflow, Flow, DetachAll, Sub, Left;
    var l2 := mid[n := DetachAll(mid[n])];
    forall q | 0 <= q < |l0|
      ensures Inflow(l0[q].incoming, l0[q], mid[q], []) && Outflow([] + l1[q].active, l1[q], mid[q])
      ensures n <= q ==> Outflow(l0[q].active, l0[q], mid[q])
      ensures q < n ==> mid[q].active == [] && Left(mid[q]) == Left(l1[q])
    {
      assert Drifted(l1[q], mid[q]);
      DriftParts(l0[q].incoming, l0[q], l1[q], mid[q]);
      if q < n { NoneActive(l1[q], mid[q]); }
    }
    DetachLane(l0[n], mid[n]);
    LeftSumSame(l0, l1, l2, n);
    SubJoin(bl, Actives(l0, n), mid[n].active, l0[n].active);
    DetachedEmpty(mid[n]);
  }

  lemma DetachedEmpty(l: Lane)
    ensures DetachAll(l).active == []
  {}

  lemma DetachHeld(l: seq<Lane>, q: nat, bl: seq<Buffer>, all: seq<set<Buffer>>)
    requires HeldIs(l, bl) && q < |l| && AllBalanced(l, all)
    requires forall b | b in all[q] :: b.queue == q
    ensures HeldIs(l[q := DetachAll(l[q])], bl + l[q].active)
  {
    hide Balanced;
    forall b | b in l[q].active ensures b.queue == q { ActiveOf(l[q], all[q], b); }
    HeldJoin(l, l[q := DetachAll(l[q])], q, bl, l[q].active);
  }

  /** All active lists are empty and the waiting buffers untouched.  `bl` are those
      completed: active ones, in queue and list order, all but those the firmware
      answered itself. */
  ghost predicate Flushed(l0: seq<Lane>, l1: seq<Lane>, bl: seq<Buffer>) {
    && |l1| == |l0|
    && (forall q | 0 <= q < |l0| :: Inflow(l0[q].incoming, l0[q], l1[q], []) && l1[q].active == [])
    && Sub(bl, Actives(l0, |l0|))
    && |bl| + LeftSum(l0, l1, |l0|) == |Actives(l0, |l0|)|
  }

  lemma DoneFlow(l0: Lane, l1: Lane, q: nat, bl: seq<Buffer>, to: Destination)
    requires Settled(l0, l1, q, bl, to) && to.Done?
    ensures Flow(l0, l1, [], [])
  {
    hide Inflow, Outflow;
    assert l0.incoming + [] == l0.incoming;
  }

  lemma FlushDone(l0: seq<Lane>, l1: seq<Lane>, l2: seq<Lane>, bl: seq<Buffer>, to: Destination)
    requires Detached(l0, l1, |l0|, bl) && to.Done? && Emptied(l1, l2, bl, to)
    ensures Flushed(l0, l2, bl)
  {
    hide Inflow, Outflow, Flow, Settled, Sub, Left;
    forall q | 0 <= q < |l0|
      ensures Inflow(l0[q].incoming, l0[q], l2[q], []) && l2[q].active == [] && Left(l2[q]) == Left(l1[q])
    {
      DoneFlow(l1[q], l2[q], q, bl, to);
      DriftParts(l0[q].incoming, l0[q], l1[q], l2[q]);
      NoneActive(l1[q], l2[q]);
    }
    LeftSumSame(l0, l1, l2, |l0|);
  }

  /** If the firmware answered nothing meanwhile, every active buffer is completed. */
  lemma FlushExact(l0: seq<Lane>, l1: seq<Lane>, bl: seq<Buffer>)
    requires Flushed(l0, l1, bl) && LeftSum(l0, l1, |l0|) == 0
    ensures bl == Actives(l0, |l0|)
  {
    SubSize(bl, Actives(l0, |l0|));
  }

  // ---------------------------------------------------------------- recalling one failed set

  function IndexOf(s: seq<Buffer>, b: Buffer): (i: nat)
    ensures i <= |s|
    ensures i < |s| ==> s[i] == b
    ensures i == |s| ==> b !in s
  {
    if s == [] then 0 else if s[0] == b then 0 else 1 + IndexOf(s[1..], b)
  }

  /** A list without a buffer. */
  function Drop(s: seq<Buffer>, b: Buffer): (r: seq<Buffer>)
    ensures b !in r
  {
    if s == [] then [] else (if s[0] == b then [] else [s[0]]) + Drop(s[1..], b)
  }

  lemma {:induction false} DropSub(s: seq<Buffer>, t: seq<Buffer>, b: Buffer)
    requires Sub(s, t)
    ensures Sub(Drop(s, b), Drop(t, b))
    decreases |t|
  {
    if s != [] {
      var head := if t[0] == b then [] else [t[0]];
      if s[0] == t[0] && Sub(s[1..], t[1..]) {
        DropSub(s[1..], t[1..], b);
        SubAfter(head, Drop(s[1..], b), Drop(t[1..], b));
      } else {
        DropSub(s, t[1..], b);
        SubAfter(head, Drop(s, b), Drop(t[1..], b));
      }
    }
  }

  lemma {:induction false} DropLess(s: seq<Buffer>, b: Buffer)
    ensures Sub(Drop(s, b), s)
    decreases |s|
  {
    if s != [] {
      DropLess(s[1..], b);
      SubAfter([s[0]], Drop(s[1..], b), s[1..]);
      assert s == [s[0]] + s[1..] && [] + Drop(s[1..], b) == Drop(s[1..], b);
    }
  }

  lemma {:induction false} DropNone(s: seq<Buffer>, b: Buffer)
    requires b !in s
    ensures Drop(s, b) == s
    decreases |s|
  {
    if s != [] {
      DropNone(s[1..], b);
      assert s == [s[0]] + s[1..];
    }
  }

  lemma {:induction false} DropJoin(s: seq<Buffer>, t: seq<Buffer>, b: Buffer)
    ensures Drop(s + t, b) == Drop(s, b) + Drop(t, b)
    decreases |s|
  {
    if s == [] {
      assert s + t == t && [] + Drop(t, b) == Drop(t, b);
    } else {
      DropJoin(s[1..], t, b);
      assert (s + t)[1..] == s[1..] + t;
      var head := if s[0] == b then [] else [s[0]];
      assert head + (Drop(s[1..], b) + Drop(t, b)) == (head + Drop(s[1..], b)) + Drop(t, b);
    }
  }

  lemma DropWithout(s: seq<Buffer>, i: nat)
    requires i < |s| && multiset(s)[s[i]] == 1
    ensures Without(s, i) == Drop(s, s[i])
  {
    var b := s[i];
    assert s == s[..i] + ([b] + s[i + 1..]);
    assert multiset(s) == multiset(s[..i]) + multiset{b} + multiset(s[i + 1..]);
    assert b !in multiset(s[..i]) && b !in multiset(s[i + 1..]);
    DropNone(s[..i], b);
    DropNone(s[i + 1..], b);
    DropJoin(s[..i], [b] + s[i + 1..], b);
    DropJoin([b], s[i + 1..], b);
    assert Drop([b], b) == [] && [] + s[i + 1..] == s[i + 1..];
  }

  /** The queue of a buffer after the search for it. */
  function Retract(l: Lane, b: Buffer): Lane {
    var i := IndexOf(l.active, b);
    if i == |l.active| then l else DetachActive(l, i)
  }

  lemma RetractFacts(l: Lane, b: Buffer, all: set<Buffer>)
    requires Balanced(l, all)
    ensures var r := Retract(l, b);
            && Balanced(r, all) && r.incoming == l.incoming && Arrived(r) == Arrived(l) && Left(r) == Left(l)
            && r.parked == l.parked
            && r.held == l.held + (if b in l.active then multiset{b} else multiset{})
            && r.active == Drop(l.active, b) && |r.active| == |l.active| - One(b in l.active)
  {
    var i := IndexOf(l.active, b);
    if i < |l.active| {
      NextBalanced(l, 0, Step.Recall(i), all);
      ActiveOf(l, all, b);
      DropWithout(l.active, i);
    } else {
      DropNone(l.active, b);
    }
  }

  /** A queue searched for `b`: what is active is what was, in order, without `b` and
      without what the firmware answered. */
  ghost predicate Searched(l0: Lane, l1: Lane, b: Buffer, found: bool) {
    && Inflow(l0.incoming, l0, l1, [])
    && Sub(l1.active, Drop(l0.active, b))
    && Left(l0) <= Left(l1)
    && |l1.active| + Left(l1) - Left(l0) == |l0.active| - One(found)
    && (found ==> b in l0.active)
  }

  /** If the firmware answered nothing meanwhile, `b` is found exactly if it was active. */
  lemma SearchedExact(l0: Lane, l1: Lane, b: Buffer, found: bool)
    requires Searched(l0, l1, b, found) && Left(l1) == Left(l0)
    ensures found <==> b in l0.active
    ensures !found ==> l1.active == l0.active
  {
    DropLess(l0.active, b);
    SubTrans(l1.active, Drop(l0.active, b), l0.active);
    SubSize(l1.active, Drop(l0.active, b));
    SubSize(l1.active, l0.active);
  }

  lemma SearchedLater(l0: Lane, l1: Lane, l2: Lane, b: Buffer, found: bool)
    requires Searched(l0, l1, b, found) && Flow(l1, l2, [], [])
    ensures Searched(l0, l2, b, found)
  {
    hide Sub, Drop, Inflow, Left;
    DriftParts(l0.incoming, l0, l1, l2);
    assert [] + l1.active == l1.active;
    SubTrans(l2.active, l1.active, Drop(l0.active, b));
  }

  lemma SearchLane(l0: Lane, m: Lane, b: Buffer, all: set<Buffer>)
    requires Flow(l0, m, [], []) && Balanced(m, all)
    ensures Searched(l0, Retract(m, b), b, b in m.active)
  {
    hide Balanced, Retract, Suffix, Sub, Drop, Arrived, Left;
    RetractFacts(m, b, all);
    assert [] + l0.active == l0.active;
    DropSub(m.active, l0.active, b);
    SubSize(m.active, l0.active);
  }

  /** The set `queued` was looked for up to its n-th buffer: `bl` are those found. */
  ghost predicate Recalled(l0: seq<Lane>, l1: seq<Lane>, queued: seq<Buffer>, n: nat, bl: seq<Buffer>) {
    && n <= |queued| == |l1| == |l0|
    && Sub(bl, queued[..n])
    && (forall q | 0 <= q < |queued| - n :: Flow(l0[q], l1[q], [], []))
    && forall q | |queued| - n <= q < |queued| :: Searched(l0[q], l1[q], Pick(queued, q), Pick(queued, q) in bl)
  }

  lemma NothingRecalled(l: seq<Lane>, queued: seq<Buffer>)
    requires |queued| == |l|
    ensures Recalled(l, l, queued, 0, [])
  {
    hide Flow;
    forall q | 0 <= q < |l| ensures Flow(l[q], l[q], [], []) { FlowNone(l[q]); }
  }

  lemma RecallStep(l0: seq<Lane>, l1: seq<Lane>, mid: seq<Lane>, queued: seq<Buffer>, n: nat, bl: seq<Buffer>, all: seq<set<Buffer>>)
    requires Recalled(l0, l1, queued, n, bl) && AllDrifted(l1, mid) && AllBalanced(mid, all)
    requires n < |queued| && OnePerQueue(queued)
    ensures var b := queued[n]; var q := b.queue;
            && q == |queued| - 1 - n
            && Recalled(l0, mid[q := Retract(mid[q], b)], queued, n + 1, bl + (if b in mid[q].active then [b] else []))
  {
    hide Flow, Searched, Retract, Balanced, Sub;
    var b := queued[n];
    var more := bl + (if b in mid[b.queue].active then [b] else []);
    var l2 := mid[b.queue := Retract(mid[b.queue], b)];
    SubOne(bl, queued, n, b in mid[b.queue].active);
    SubSize(bl, queued[..n]);
    forall q | 0 <= q < |queued| - n ensures Flow(l0[q], mid[q], [], []) {
      assert Drifted(l1[q], mid[q]);
      FlowDrift(l0[q], l1[q], mid[q], [], []);
    }
    SearchLane(l0[b.queue], mid[b.queue], b, all[b.queue]);
    assert Pick(queued, b.queue) == b && b !in queued[..n];
    forall q | |queued| - n <= q < |queued| ensures Searched(l0[q], l2[q], Pick(queued, q), Pick(queued, q) in more) {
      assert Drifted(l1[q], mid[q]);
      SearchedLater(l0[q], l1[q], mid[q], Pick(queued, q), Pick(queued, q) in bl);
      assert Pick(queued, q) != b;
    }
  }

  lemma SubOne(bl: seq<Buffer>, queued: seq<Buffer>, n: nat, take: bool)
    requires n < |queued| && Sub(bl, queued[..n])
    ensures Sub(bl + (if take then [queued[n]] else []), queued[..n + 1])
  {
    SubJoin(bl, queued[..n], if take then [queued[n]] else [], [queued[n]]);
    assert queued[..n + 1] == queued[..n] + [queued[n]];
  }

  /** Of the failed set, `failed` are back with user space, none is active, and
      nothing else was moved by the driver. */
  ghost predicate SetFailed(l0: seq<Lane>, l1: seq<Lane>, queued: seq<Buffer>, failed: seq<Buffer>) {
    && |queued| == |l1| == |l0|
    && Sub(failed, queued)
    && forall q | 0 <= q < |l0| :: Searched(l0[q], l1[q], Pick(queued, q), Pick(queued, q) in failed)
  }

  lemma RecallDone(l0: seq<Lane>, l1: seq<Lane>, l2: seq<Lane>, queued: seq<Buffer>, bl: seq<Buffer>, to: Destination)
    requires Recalled(l0, l1, queued, |queued|, bl) && to.Done? && Emptied(l1, l2, bl, to)
    ensures SetFailed(l0, l2, queued, bl)
  {
    hide Flow, Searched, Settled, Sub, Pick;
    assert queued[..|queued|] == queued;
    forall q | 0 <= q < |l0| ensures Searched(l0[q], l2[q], Pick(queued, q), Pick(queued, q) in bl) {
      DoneFlow(l1[q], l2[q], q, bl, to);
      SearchedLater(l0[q], l1[q], l2[q], Pick(queued, q), Pick(queued, q) in bl);
    }
  }

  lemma RetractAt(l: Lane, b: Buffer)
    ensures var i := IndexOf(l.active, b);
            && i <= |l.active| && (i < |l.active| <==> b in l.active)
            && (i < |l.active| ==> Retract(l, b) == DetachActive(l, i))
            && (i == |l.active| ==> Retract(l, b) == l)
  {}

  lemma RecallTurn(l0: seq<Lane>, l1: seq<Lane>, mid: seq<Lane>, queued: seq<Buffer>, n: nat, bl: seq<Buffer>, all: seq<set<Buffer>>)
    requires Recalled(l0, l1, queued, n, bl) && AllDrifted(l1, mid) && AllBalanced(mid, all) && HeldIs(mid, bl)
    requires n < |queued| && OnePerQueue(queued)
    ensures var b := queued[n]; var q := b.queue;
            && q < |mid|
            && var i := IndexOf(mid[q].active, b);
               if i < |mid[q].active| then
                 && AllBalanced(mid[q := DetachActive(mid[q], i)], all)
                 && HeldIs(mid[q := DetachActive(mid[q], i)], bl + [b])
                 && Recalled(l0, mid[q := DetachActive(mid[q], i)], queued, n + 1, bl + [b])
               else Recalled(l0, mid, queued, n + 1, bl)
  {
    hide Recalled, Drifted, Balanced, Retract;
    var b := queued[n];
    RecallSize(l0, l1, queued, n, bl);
    RecallStep(l0, l1, mid, queued, n, bl, all);
    var q := b.queue;
    RetractFacts(mid[q], b, all[q]);
    RetractAt(mid[q], b);
    var i := IndexOf(mid[q].active, b);
    if i < |mid[q].active| {
      HeldJoin(mid, mid[q := DetachActive(mid[q], i)], q, bl, [b]);
    } else {
      assert mid[q := mid[q]] == mid && bl + [] == bl;
    }
  }

  lemma RecallSize(l0: seq<Lane>, l1: seq<Lane>, queued: seq<Buffer>, n: nat, bl: seq<Buffer>)
    requires Recalled(l0, l1, queued, n, bl)
    ensures |l1| == |l0| == |queued|
  {}

  // ---------------------------------------------------------------- one set at a time

  /** The oldest buffer of every queue was handed to the firmware. */
  ghost predicate SetSent(l0: seq<Lane>, l1: seq<Lane>, chosen: seq<Buffer>) {
    && |l1| == |l0| == |chosen| && OnePerQueue(chosen)
    && forall q | 0 <= q < |l0| :: Flow(l0[q], l1[q], Taken(chosen, q), Taken(chosen, q))
  }

  /** The oldest buffer of every queue is gone from the driver: `failed` completed by
      it, the others answered by the firmware first. */
  ghost predicate SetGone(l0: seq<Lane>, l1: seq<Lane>, chosen: seq<Buffer>, failed: seq<Buffer>) {
    && |l1| == |l0| == |chosen| && OnePerQueue(chosen) && Sub(failed, chosen)
    && forall q | 0 <= q < |l0| :: GoneLane(l0[q], l1[q], Pick(chosen, q), Pick(chosen, q) in failed)
  }

  ghost predicate GoneLane(l0: Lane, l1: Lane, b: Buffer, failed: bool) {
    && Inflow(l0.incoming, l0, l1, [b])
    && Sub(l1.active, l0.active)
    && Left(l0) <= Left(l1)
    && |l1.active| + Left(l1) - Left(l0) == |l0.active| + 1 - One(failed)
  }

  /** With no answer from the firmware meanwhile the whole set fails, and active is
      as before. */
  lemma GoneExact(l0: Lane, l1: Lane, b: Buffer, failed: bool)
    requires GoneLane(l0, l1, b, failed) && Left(l1) == Left(l0)
    ensures failed && l1.active == l0.active
  {
    SubSize(l1.active, l0.active);
  }

  lemma SetTaken(l0: seq<Lane>, l1: seq<Lane>, l2: seq<Lane>, bl: seq<Buffer>)
    requires Took(l0, l1, bl) && |bl| == |l0| && Emptied(l1, l2, bl, ToActive)
    ensures SetSent(l0, l2, bl)
  {
    hide Flow, Settled, OnePerQueue, Taken;
    forall q | 0 <= q < |l0| ensures Flow(l0[q], l2[q], Taken(bl, q), Taken(bl, q)) {
      SubmittedFlow(l1[q], l2[q], q, bl);
      FlowTrans(l0[q], l1[q], l2[q], Taken(bl, q), [], [], Taken(bl, q));
      assert [] + Taken(bl, q) == Taken(bl, q) && Taken(bl, q) + [] == Taken(bl, q);
    }
  }

  lemma GoneSearched(l0: Lane, l1: Lane, l2: Lane, b: Buffer, found: bool)
    requires Flow(l0, l1, [b], [b]) && Searched(l1, l2, b, found)
    ensures GoneLane(l0, l2, b, found)
  {
    hide Sub, Suffix, Left, Arrived;
    InflowDrift(l0.incoming, l0, l1, l2, [b]);
    DropSub(l1.active, [b] + l0.active, b);
    DropJoin([b], l0.active, b);
    assert Drop([b], b) == [] && [] + Drop(l0.active, b) == Drop(l0.active, b);
    DropLess(l0.active, b);
    hide Drop;
    SubTrans(l2.active, Drop(l1.active, b), Drop(l0.active, b));
    SubTrans(l2.active, Drop(l0.active, b), l0.active);
  }

  lemma RefusedSet(l0: seq<Lane>, l1: seq<Lane>, l2: seq<Lane>, bl: seq<Buffer>, failed: seq<Buffer>)
    requires SetSent(l0, l1, bl) && SetFailed(l1, l2, bl, failed)
    ensures SetGone(l0, l2, bl, failed)
  {
    hide Flow, Searched, GoneLane, OnePerQueue, Sub, Pick;
    forall q | 0 <= q < |l0| ensures GoneLane(l0[q], l2[q], Pick(bl, q), Pick(bl, q) in failed) {
      assert Taken(bl, q) == [Pick(bl, q)];
      GoneSearched(l0[q], l1[q], l2[q], Pick(bl, q), Pick(bl, q) in failed);
    }
  }

  /** The queues after user space queued `b`. */
  function Queueing(lanes: seq<Lane>, b: Buffer): seq<Lane>
    requires b.queue < |lanes|
  {
    lanes[b.queue := Enqueue(lanes[b.queue], b)]
  }

  lemma EnqueueFacts(lanes: seq<Lane>, b: Buffer, all: seq<set<Buffer>>)
    requires b.queue < |lanes| && AllBalanced(lanes, all) && HeldIs(lanes, [])
    ensures AllBalanced(Queueing(lanes, b), all) && HeldIs(Queueing(lanes, b), [])
    ensures b in lanes[b.queue].user ==>
              && Queueing(lanes, b)[b.queue].incoming == [b] + lanes[b.queue].incoming
              && Queueing(lanes, b)[b.queue].active == lanes[b.queue].active
  {
    hide Balanced;
    NextBalanced(lanes[b.queue], b.queue, Interfere(UserQueue(b), false), all[b.queue]);
    var l1 := Queueing(lanes, b);
    assert l1[b.queue].held == lanes[b.queue].held;
    forall q, x | 0 <= q < |l1| ensures l1[q].held[x] == if x.queue == q then multiset([])[x] else 0 {
      assert lanes[q].held[x] == if x.queue == q then multiset([])[x] else 0;
    }
  }

  // ---------------------------------------------------------------- rolling a start back

  /** The waiting buffers of a queue once a start was rolled back: without an error,
      the set that was not handed over is oldest again. */
  function Restored(incoming: seq<Buffer>, bl: seq<Buffer>, q: nat, error: bool): seq<Buffer> {
    if error then incoming else incoming + OfQueue(bl, q)
  }

  lemma RolledBack(l0: seq<Lane>, l1: seq<Lane>, l2: seq<Lane>, bl: seq<Buffer>, to: Destination, flushed: seq<Buffer>)
    requires Emptied(l0, l1, bl, to) && Flushed(l1, l2, flushed) && to != ToActive
    ensures |l2| == |l0|
    ensures forall q | 0 <= q < |l0| ::
              && l2[q].active == []
              && Inflow(Restored(l0[q].incoming, bl, q, to != ToIncoming), l0[q], l2[q], [])
  {
    hide Inflow, Outflow, OfQueue, Sub;
    forall q | 0 <= q < |l0| ensures Inflow(Restored(l0[q].incoming, bl, q, to != ToIncoming), l0[q], l2[q], []) {
      var base := Restored(l0[q].incoming, bl, q, to != ToIncoming);
      assert l0[q].incoming + [] == l0[q].incoming;
      assert Settled(l0[q], l1[q], q, bl, to);
      InflowDrift(base, l0[q], l1[q], l2[q], []);
    }
  }

  lemma RestoredEarlier(l0: seq<Lane>, l1: seq<Lane>, l2: seq<Lane>, bl: seq<Buffer>, error: bool)
    requires AllDrifted(l0, l1) && |l2| == |l1|
    requires forall q | 0 <= q < |l1| :: Inflow(Restored(l1[q].incoming, bl, q, error), l1[q], l2[q], [])
    ensures forall q | 0 <= q < |l0| :: Inflow(Restored(l0[q].incoming, bl, q, error), l0[q], l2[q], [])
  {
    hide OfQueue, Outflow;
    forall q | 0 <= q < |l0| ensures Inflow(Restored(l0[q].incoming, bl, q, error), l0[q], l2[q], []) {
      assert Drifted(l0[q], l1[q]);
      RestoredInflow(l0[q], l1[q], l2[q], if error then [] else OfQueue(bl, q));
      assert l0[q].incoming + [] == l0[q].incoming && l1[q].incoming + [] == l1[q].incoming;
    }
  }

  lemma RestoredInflow(l0: Lane, l1: Lane, l2: Lane, more: seq<Buffer>)
    requires Inflow(l0.incoming, l0, l1, []) && Inflow(l1.incoming + more, l1, l2, [])
    ensures Inflow(l0.incoming + more, l0, l2, [])
  {
    hide Arrived;
    SuffixJoin(l0.incoming, l1.incoming + [], more);
    assert l1.incoming + [] + more == l1.incoming + more;
    SuffixTrans(l0.incoming + more, l1.incoming + more, l2.incoming + []);
  }

  /** A start that failed: every active list is empty; of what waited, `lost` were taken
      as sets, oldest first, and `early`, the set the stream never got, is oldest again
      unless it was completed with the error. */
  ghost predicate Undone(l0: seq<Lane>, l1: seq<Lane>, early: seq<Buffer>, lost: seq<seq<Buffer>>, error: bool) {
    && |l1| == |l0|
    && (forall i | 0 <= i < |lost| :: |lost[i]| == |l0| && OnePerQueue(lost[i]))
    && forall q | 0 <= q < |l0| ::
         && l1[q].active == []
         && Inflow(Restored(l0[q].incoming, early, q, error), l0[q], l1[q], Drawn(lost, q))
  }

  /** The sets a failing start has taken: those handed over, and a set that got no
      message if it is not put back. */
  function LostSets(sets: seq<seq<Buffer>>, rest: seq<Buffer>, error: bool): seq<seq<Buffer>> {
    if error && rest != [] then sets + [rest] else sets
  }

  lemma UndoneEarly(l0: seq<Lane>, l1: seq<Lane>, bl: seq<Buffer>, error: bool)
    requires |l1| == |l0|
    requires forall q | 0 <= q < |l0| :: l1[q].active == [] && Inflow(Restored(l0[q].incoming, bl, q, error), l0[q], l1[q], [])
    ensures Undone(l0, l1, bl, [], error)
  {
    hide Inflow, Restored;
  }

  lemma StreamedFlow(l0: seq<Lane>, l1: seq<Lane>, bl: seq<Buffer>, q: nat)
    requires Streamed(l0, l1, bl, []) && q < |l0|
    ensures |l1| == |l0| && Inflow(l0[q].incoming, l0[q], l1[q], [])
  {
    assert Drawn([], q) == [];
  }

  /** A start refused after it got its set. */
  lemma UndoneLate(l0: seq<Lane>, l1: seq<Lane>, l2: seq<Lane>, bl: seq<Buffer>, error: bool)
    requires Streamed(l0, l1, bl, []) && |l2| == |l1|
    requires forall q | 0 <= q < |l1| :: l2[q].active == [] && Inflow(Restored(l1[q].incoming, [], q, error), l1[q], l2[q], [])
    ensures Undone(l0, l2, [], [], error)
  {
    hide Inflow, Streamed;
    StreamedSize(l0, l1, bl);
    forall q | 0 <= q < |l0| ensures Inflow(Restored(l0[q].incoming, [], q, error), l0[q], l2[q], Drawn([], q)) {
      StreamedFlow(l0, l1, bl, q);
      RestoredNone(l0[q].incoming, q, error);
      RestoredNone(l1[q].incoming, q, error);
      InflowDrift(l0[q].incoming, l0[q], l1[q], l2[q], []);
    }
  }

  lemma RestoredNone(incoming: seq<Buffer>, q: nat, error: bool)
    ensures Restored(incoming, [], q, error) == incoming
  {
    assert incoming + [] == incoming;
  }

  /** A start that failed while the sets were fed: `rest` is the set without a message,
      if any. */
  lemma UndoneFed(l0: seq<Lane>, l1: seq<Lane>, look: seq<Lane>, stuck: seq<Lane>, l2: seq<Lane>, l3: seq<Lane>,
                  bl: seq<Buffer>, sets: seq<seq<Buffer>>, rest: seq<Buffer>, error: bool)
    requires Streamed(l0, l1, bl, []) && Feeding(l1, look, sets) && Took(look, stuck, rest) && AllDrifted(stuck, l2)
    requires (rest == [] || |rest| == |l0|) && |l3| == |l2|
    requires forall q | 0 <= q < |l2| :: l3[q].active == [] && Inflow(Restored(l2[q].incoming, rest, q, error), l2[q], l3[q], [])
    ensures Undone(l0, l3, [], LostSets(sets, rest, error), error)
  {
    hide Inflow, Outflow, Streamed, OnePerQueue, Drawn, Drifted, Restored, Pick;
    TookLater(look, stuck, l2, rest);
    StreamedSize(l0, l1, bl);
    forall q | 0 <= q < |l0|
      ensures Inflow(Restored(l0[q].incoming, [], q, error), l0[q], l3[q], Drawn(LostSets(sets, rest, error), q))
    {
      StreamedFlow(l0, l1, bl, q);
      RestoredNone(l0[q].incoming, q, error);
      InflowTrans(l0[q].incoming, l0[q], l1[q], look[q], [], Drawn(sets, q));
      assert Drawn(sets, q) + [] == Drawn(sets, q);
      RestInflow(look[q], l2[q], l3[q], q, rest, error);
      var more := if error then Taken(rest, q) else [];
      InflowTrans(l0[q].incoming, l0[q], look[q], l3[q], Drawn(sets, q), more);
      DrawnMore(sets, rest, q);
      if more == [] { assert more + Drawn(sets, q) == Drawn(sets, q); }
    }
  }

  lemma StreamedSize(l0: seq<Lane>, l1: seq<Lane>, bl: seq<Buffer>)
    requires Streamed(l0, l1, bl, [])
    ensures |l1| == |l0|
  {}

  lemma RestInflow(l0: Lane, l1: Lane, l2: Lane, q: nat, rest: seq<Buffer>, error: bool)
    requires OnePerQueue(rest) && Flow(l0, l1, Taken(rest, q), [])
    requires Inflow(Restored(l1.incoming, rest, q, error), l1, l2, [])
    ensures Inflow(l0.incoming, l0, l2, if error then Taken(rest, q) else [])
  {
    hide Taken, OnePerQueue, Outflow, Arrived;
    var t := Taken(rest, q);
    SetOfQueue(q, rest);
    if error {
      hide Suffix;
      InflowDrift(l0.incoming, l0, l1, l2, t);
    } else {
      SuffixTrans(l0.incoming, l1.incoming + t, l2.incoming + []);
    }
  }

  lemma RolledAnswer(a0: seq<Given>, a1: seq<Given>, bl: seq<Buffer>, flushed: seq<Buffer>, error: bool)
    requires a1 == if error then a0 + Gives(bl, VbState.Error) + Gives(flushed, VbState.Error) else a0 + Gives(flushed, Queued)
    ensures AnsweredWith(a0, a1, if error then VbState.Error else Queued)
  {}

  /** What queueing one buffer on a running pipeline came to. */
  ghost predicate OneCaptured(l0: seq<Lane>, l1: seq<Lane>, given0: seq<seq<Buffer>>, given1: seq<seq<Buffer>>,
                              answers0: seq<Given>, answers1: seq<Given>, r: Fed, failed: seq<Buffer>) {
    match r
    case Nothing => SomeEmpty(l0) && Took(l0, l1, []) && given1 == given0 && answers1 == answers0
    case NoMessage => Took(l0, l1, []) && given1 == given0 && answers1 == answers0
    case Accepted => |given1| == |given0| + 1 && SetSent(l0, l1, given1[|given0|]) && answers1 == answers0
    case Refused => && |given1| == |given0| + 1 && SetGone(l0, l1, given1[|given0|], failed)
                    && answers1 == answers0 + Gives(failed, VbState.Error)
  }

  /** What queueing one buffer on a stopped pipeline came to when every queue had a
      buffer: the stream was started with the oldest of each and fed every complete set,
      until `look`, when some queue was found empty; or the start failed, `lost` are the
      sets it took, and nothing is active. */
  ghost predicate OneStarted(l0: seq<Lane>, look: seq<Lane>, l1: seq<Lane>, given0: seq<seq<Buffer>>, given1: seq<seq<Buffer>>,
                             lost: seq<seq<Buffer>>, started: bool) {
    && given0 <= given1
    && var sets := given1[|given0|..];
       if started then sets != [] && Feeding(l0, l1, sets) && RanDry(look, l1)
       else sets <= lost && |lost| <= |sets| + 1 && lost != [] && Undone(l0, l1, [], lost, true)
  }

  /** The sets a failed start took, from before it took its first. */
  lemma UndoneAll(l: seq<Lane>, l0: seq<Lane>, l1: seq<Lane>, bl: seq<Buffer>, lost: seq<seq<Buffer>>, early: seq<Buffer>)
    requires Took(l, l0, bl) && |bl| == |l0| && Undone(l0, l1, early, lost, true)
    ensures Undone(l, l1, [], [bl] + lost, true)
  {
    hide Inflow, Outflow, OnePerQueue, Drawn, Pick;
    forall q | 0 <= q < |l| ensures Inflow(l[q].incoming, l[q], l1[q], Drawn([bl] + lost, q)) {
      InflowTrans(l[q].incoming, l[q], l0[q], l1[q], Taken(bl, q), Drawn(lost, q));
      DrawnOne(bl, q);
      DrawnJoin([bl], lost, q);
    }
  }

  lemma BufStarted(l: seq<Lane>, l0: seq<Lane>, look: seq<Lane>, l1: seq<Lane>, given0: seq<seq<Buffer>>, given1: seq<seq<Buffer>>,
                   bl: seq<Buffer>, lost: seq<seq<Buffer>>, early: seq<Buffer>, started: bool)
    requires Took(l, l0, bl) && |bl| == |l0| > 0
    requires started ==> StartedWith(given0, given1, l0, l1, bl) && RanDry(look, l1)
    requires !started ==>
               var first := given0 + (if early == [] then [bl] else []);
               && first <= given1 && given1[|first|..] <= lost && |lost| <= |given1[|first|..]| + 1
               && Undone(l0, l1, early, lost, true) && (early != [] ==> lost == [])
    ensures OneStarted(l, look, l1, given0, given1, [bl] + lost, started)
  {
    hide Took, Undone, RanDry, Streamed, Least, Lengths, Offers, NothingArrived, Feeding;
    var sets := given1[|given0|..];
    if started {
      var rest := given1[|given0 + [bl]|..];
      assert sets == [bl] + rest;
      StreamedAll(l, l0, l1, bl, rest);
    } else {
      UndoneAll(l, l0, l1, bl, lost, early);
      if early == [] { assert sets == [bl] + given1[|given0 + [bl]|..]; } else { assert sets == given1[|given0 + []|..]; }
    }
  }

  // ---------------------------------------------------------------- returning a queue's buffers

  function Unlink(l: Lane, fromActive: bool): Lane
    requires if fromActive then l.active != [] else l.incoming != []
  {
    if fromActive then DetachActive(l, 0) else DetachIncoming(l)
  }

  lemma UnlinkFacts(lanes: seq<Lane>, q: nat, fromActive: bool, all: seq<set<Buffer>>)
    requires q < |lanes| && AllBalanced(lanes, all)
    requires forall p, b | 0 <= p < |all| && b in all[p] :: b.queue == p
    requires if fromActive then lanes[q].active != [] else lanes[q].incoming != []
    ensures var b := if fromActive then lanes[q].active[0] else lanes[q].incoming[0];
            var r := lanes[q := Unlink(lanes[q], fromActive)];
            AllBalanced(r, all) && b in r[q].held && b.queue == q
  {
    hide Balanced;
    var l := lanes[q];
    var b := if fromActive then l.active[0] else l.incoming[0];
    NextBalanced(l, 0, if fromActive then Step.Recall(0) else Drain, all[q]);
    if fromActive { ActiveOf(l, all[q], b); } else { IncomingOf(l, all[q], b); }
  }

  /** Of queue `q`, the buffers of `waiting` were given back from incoming and those of
      `working` from active, each in list order; arrivals may be among the former. */
  ghost predicate Returned(l0: Lane, l1: Lane, waiting: seq<Buffer>, working: seq<Buffer>) {
    && Sub(l0.incoming, waiting + l1.incoming)
    && Arrived(l0) <= Arrived(l1)
    && |waiting| + |l1.incoming| == |l0.incoming| + Arrived(l1) - Arrived(l0)
    && Sub(working + l1.active, l0.active)
    && Left(l0) <= Left(l1)
    && |working| + |l1.active| + Left(l1) - Left(l0) == |l0.active|
  }

  lemma NothingReturned(l: Lane)
    ensures Returned(l, l, [], [])
  {
    assert [] + l.incoming == l.incoming && [] + l.active == l.active;
    SubSelf(l.incoming);
    SubSelf(l.active);
  }

  lemma SuffixSub(s: seq<Buffer>, t: seq<Buffer>)
    requires Suffix(s, t)
    ensures Sub(s, t)
  {
    SubSelf(s);
    SubAfter(t[..|t| - |s|], s, s);
    assert t == t[..|t| - |s|] + s;
  }

  lemma ReturnedLater(l0: Lane, l1: Lane, l2: Lane, waiting: seq<Buffer>, working: seq<Buffer>)
    requires Returned(l0, l1, waiting, working) && Flow(l1, l2, [], [])
    ensures Returned(l0, l2, waiting, working)
  {
    hide Sub, Suffix, Arrived, Left;
    assert l2.incoming + [] == l2.incoming && [] + l1.active == l1.active;
    SuffixSub(l1.incoming, l2.incoming);
    SubAfter(waiting, l1.incoming, l2.incoming);
    SubTrans(l0.incoming, waiting + l1.incoming, waiting + l2.incoming);
    SubAfter(working, l2.active, l1.active);
    SubTrans(working + l2.active, working + l1.active, l0.active);
  }

  lemma ReturnedOne(l0: Lane, l1: Lane, waiting: seq<Buffer>, working: seq<Buffer>, fromActive: bool)
    requires Returned(l0, l1, waiting, working) && (if fromActive then l1.active != [] else l1.incoming != [])
    ensures var r := Unlink(l1, fromActive);
            Returned(l0, r, if fromActive then waiting else waiting + [l1.incoming[0]],
                     if fromActive then working + [l1.active[0]] else working)
  {
    hide Sub, Arrived, Left, Unlink, Without;
    UnlinkLists(l1, fromActive);
    if fromActive {
      assert working + l1.active == working + [l1.active[0]] + l1.active[1..];
    } else {
      assert waiting + l1.incoming == waiting + [l1.incoming[0]] + l1.incoming[1..];
    }
  }

  lemma UnlinkLists(l: Lane, fromActive: bool)
    requires if fromActive then l.active != [] else l.incoming != []
    ensures var r := Unlink(l, fromActive);
            && Arrived(r) == Arrived(l) && Left(r) == Left(l) && r.parked == l.parked
            && r.incoming == (if fromActive then l.incoming else l.incoming[1..])
            && r.active == (if fromActive then l.active[1..] else l.active)
  {
    if fromActive { assert Without(l.active, 0) == l.active[1..]; }
  }

  lemma CompleteFlow(l: Lane, r: Lane, b: Buffer)
    requires Flow(l, r, [], [])
    ensures Flow(l, Complete(r, b), [], [])
  {
    hide Sub, Suffix;
  }

  /** Queue `q` after one of its buffers was unlinked and completed; the others saw
      only interference. */
  ghost predicate OneReturned(l0: seq<Lane>, l1: seq<Lane>, q: nat, fromActive: bool) {
    && q < |l1| == |l0|
    && (if fromActive then l0[q].active != [] else l0[q].incoming != [])
    && Flow(Unlink(l0[q], fromActive), l1[q], [], []) && l1[q].held == l0[q].held
    && forall p | 0 <= p < |l0| && p != q :: Drifted(l0[p], l1[p])
  }

  lemma UnlinkHeld(l: Lane, fromActive: bool)
    requires if fromActive then l.active != [] else l.incoming != []
    ensures var b := if fromActive then l.active[0] else l.incoming[0];
            Unlink(l, fromActive).held == l.held + multiset{b}
  {}

  lemma UnlinkDone(l0: seq<Lane>, mid: seq<Lane>, q: nat, fromActive: bool)
    requires q < |l0| && (if fromActive then l0[q].active != [] else l0[q].incoming != [])
    requires AllDrifted(l0[q := Unlink(l0[q], fromActive)], mid)
    ensures var b := if fromActive then l0[q].active[0] else l0[q].incoming[0];
            OneReturned(l0, mid[q := Complete(mid[q], b)], q, fromActive)
  {
    hide Flow, Unlink;
    var b := if fromActive then l0[q].active[0] else l0[q].incoming[0];
    var l1 := l0[q := Unlink(l0[q], fromActive)];
    forall p | 0 <= p < |l1| ensures Drifted(l1[p], mid[p]) {}
    UnlinkHeld(l0[q], fromActive);
    CompleteFlow(l1[q], mid[q], b);
    assert Complete(mid[q], b).held == l0[q].held + multiset{b} - multiset{b} == l0[q].held;
  }

  lemma OneReturnedSize(l0: seq<Lane>, l1: seq<Lane>, q: nat, fromActive: bool)
    requires OneReturned(l0, l1, q, fromActive)
    ensures fromActive ==> |l1[q].active| < |l0[q].active|
    ensures !fromActive ==> |l1[q].incoming| - Arrived(l1[q]) < |l0[q].incoming| - Arrived(l0[q])
  {
    hide Arrived, Left, Suffix;
    UnlinkLists(l0[q], fromActive);
    SubSize(l1[q].active, [] + Unlink(l0[q], fromActive).active);
  }

  /** The others of a pipeline see only interference. */
  ghost predicate OthersDrift(l0: seq<Lane>, l1: seq<Lane>, q: nat) {
    |l1| == |l0| && forall p | 0 <= p < |l0| && p != q :: Drifted(l0[p], l1[p])
  }

  lemma NothingReturnedYet(l: seq<Lane>, q: nat)
    requires q < |l|
    ensures OthersDrift(l, l, q) && Returned(l[q], l[q], [], [])
  {
    hide Flow;
    forall p | 0 <= p < |l| ensures Drifted(l[p], l[p]) { FlowNone(l[p]); }
    NothingReturned(l[q]);
  }

  lemma ReturnedMore(l0: seq<Lane>, l1: seq<Lane>, l2: seq<Lane>, q: nat, waiting: seq<Buffer>, working: seq<Buffer>, fromActive: bool)
    requires OthersDrift(l0, l1, q) && q < |l0| && Returned(l0[q], l1[q], waiting, working)
    requires OneReturned(l1, l2, q, fromActive)
    ensures OthersDrift(l0, l2, q) && l2[q].held == l1[q].held
    ensures Returned(l0[q], l2[q], if fromActive then waiting else waiting + [l1[q].incoming[0]],
                     if fromActive then working + [l1[q].active[0]] else working)
  {
    hide Flow, Drifted, Returned, Unlink;
    forall p | 0 <= p < |l0| && p != q ensures Drifted(l0[p], l2[p]) { DriftTrans(l0[p], l1[p], l2[p]); }
    ReturnedOne(l0[q], l1[q], waiting, working, fromActive);
    ReturnedLater(l0[q], Unlink(l1[q], fromActive), l2[q], if fromActive then waiting else waiting + [l1[q].incoming[0]],
                  if fromActive then working + [l1[q].active[0]] else working);
  }

  /** Without arrivals and answers exactly the queue's buffers are given back. */
  lemma ReturnedExact(l0: Lane, l1: Lane, waiting: seq<Buffer>, working: seq<Buffer>)
    requires Returned(l0, l1, waiting, working)
    ensures Arrived(l1) == Arrived(l0) ==> waiting + l1.incoming == l0.incoming
    ensures Left(l1) == Left(l0) ==> working + l1.active == l0.active
  {
    SubSize(l0.incoming, waiting + l1.incoming);
    SubSize(working + l1.active, l0.active);
  }
}
