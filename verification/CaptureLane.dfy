/** One video buffer queue of the capture pipeline (ipu-isys-queue.c): its two
    driver lists, what is detached from them, and what user space owns.  A list
    is a sequence, head first: the newest buffer at index 0, the oldest last. */
module CaptureLane {
  import opened Common

  datatype Buffer = Buffer(queue: nat, index: nat, addr: nat)

  datatype FwError = Clean | Str2mmio | OtherError

  /** What happens to a queue while no driver call holds its lock: user space
      queues a buffer, or the firmware reports one. */
  datatype Event =
    | UserQueue(buffer: Buffer)
    | PinReady(pin: nat, addr: nat, error: FwError)

  /** `held` are the buffers on local lists of driver calls; `queued` and
      `answered` count, for each buffer, how often user space has queued it and
      how often vb2_buffer_done has given it back; `clean` counts error-free
      deliveries. */
  datatype Lane = Lane(
    incoming: seq<Buffer>,
    active: seq<Buffer>,
    held: multiset<Buffer>,
    user: multiset<Buffer>,
    queued: multiset<Buffer>,
    answered: multiset<Buffer>,
    clean: nat,
    parked: nat,
    finished: nat)

  /** How many buffers have come onto incoming from outside the driver's calls, and
      how many the firmware has taken off active. */
  function Arrived(l: Lane): nat { |l.queued| + l.parked }

  function Left(l: Lane): nat { l.parked + l.finished }

  /** How often the driver has `b`: on its lists or detached from them. */
  function Carried(l: Lane, b: Buffer): nat { multiset(l.incoming)[b] + multiset(l.active)[b] + l.held[b] }

  /** The books of a queue: its buffers are shared out, one place each, between
      user space and the driver, and the driver owes exactly one completion for
      each buffer it has. */
  ghost predicate Balanced(l: Lane, all: set<Buffer>) {
    forall b: Buffer {:trigger l.user[b]} {:trigger b in all} ::
      && Carried(l, b) + l.user[b] == One(b in all)
      && l.queued[b] == l.answered[b] + Carried(l, b)
  }

  /** A queue nothing was queued on yet: user space has all its buffers. */
  function Idle(buffers: set<Buffer>): Lane {
    Lane([], [], multiset{}, multiset(buffers), multiset{}, multiset{}, 0, 0, 0)
  }

  lemma IdleBalanced(buffers: set<Buffer>)
    ensures Balanced(Idle(buffers), buffers)
  {}

  // ---------------------------------------------------------------- locked list operations

  function Last(s: seq<Buffer>): Buffer
    requires s != []
  {
    s[|s| - 1]
  }

  function Enqueue(l: Lane, b: Buffer): Lane {
    if b in l.user
    then l.(user := l.user - multiset{b}, queued := l.queued + multiset{b}, incoming := [b] + l.incoming)
    else l
  }

  function TakeOldest(l: Lane): Lane
    requires l.incoming != []
  {
    l.(incoming := l.incoming[..|l.incoming| - 1], held := l.held + multiset{Last(l.incoming)})
  }

  function PutBack(l: Lane, b: Buffer): Lane {
    l.(held := l.held - multiset{b}, incoming := l.incoming + [b])
  }

  function Submit(l: Lane, b: Buffer): Lane {
    l.(held := l.held - multiset{b}, active := [b] + l.active)
  }

  function Complete(l: Lane, b: Buffer): Lane {
    l.(held := l.held - multiset{b}, user := l.user + multiset{b}, answered := l.answered + multiset{b})
  }

  function DetachActive(l: Lane, i: nat): Lane
    requires i < |l.active|
  {
    l.(active := Without(l.active, i), held := l.held + multiset{l.active[i]})
  }

  function DetachIncoming(l: Lane): Lane
    requires l.incoming != []
  {
    l.(incoming := l.incoming[1..], held := l.held + multiset{l.incoming[0]})
  }

  /** The oldest active buffer at an address: the position, or the length. */
  function FindActive(s: seq<Buffer>, addr: nat): (i: nat)
    ensures i <= |s|
    ensures i < |s| ==> s[i].addr == addr && forall j | i < j < |s| :: s[j].addr != addr
    ensures i == |s| ==> forall j | 0 <= j < |s| :: s[j].addr != addr
  {
    if s == [] then 0
    else if s[|s| - 1].addr == addr then |s| - 1
    else
      var i := FindActive(s[..|s| - 1], addr);
      if i == |s| - 1 then |s| else i
  }

  /** A firmware response: a corrupt frame is parked while a stream start is being
      verified; any other response completes the buffer. */
  function Ready(l: Lane, addr: nat, error: FwError, verifying: bool): Lane {
    var i := FindActive(l.active, addr);
    if i == |l.active| then l
    else
      var b := l.active[i];
      if error == Str2mmio && verifying
      then l.(active := Without(l.active, i), incoming := [b] + l.incoming, parked := l.parked + 1)
      else l.(active := Without(l.active, i), user := l.user + multiset{b}, answered := l.answered + multiset{b},
              clean := if error == Clean then l.clean + 1 else l.clean, finished := l.finished + 1)
  }

  function React(l: Lane, q: nat, e: Event, verifying: bool): Lane {
    match e
    case UserQueue(b) => if b.queue == q then Enqueue(l, b) else l
    case PinReady(pin, addr, error) => if pin == q then Ready(l, addr, error, verifying) else l
  }

  /** A response for a buffer the firmware has, the oldest active one at the address:
      it leaves active, for the newest end of incoming if it is corrupt while a start
      is verified, else for user space, and it is clean only without an error. */
  lemma ReadyExactly(l: Lane, q: nat, i: nat, error: FwError, verifying: bool)
    requires i < |l.active| && forall j | i < j < |l.active| :: l.active[j].addr != l.active[i].addr
    ensures var b := l.active[i];
            var r := React(l, q, PinReady(q, b.addr, error), verifying);
            && r.active == l.active[..i] + l.active[i + 1..] && r.held == l.held && r.queued == l.queued
            && if error == Str2mmio && verifying then
                 && r.incoming == [b] + l.incoming && r.user == l.user && r.answered == l.answered
                 && r.parked == l.parked + 1 && r.finished == l.finished && r.clean == l.clean
               else
                 && r.incoming == l.incoming && r.user[b] == l.user[b] + 1 && r.answered[b] == l.answered[b] + 1
                 && r.parked == l.parked && r.finished == l.finished + 1
                 && r.clean == l.clean + One(error == Clean)
  {
    var k := FindActive(l.active, l.active[i].addr);
    assert k == i;
  }

  /** A buffer user space has goes to the newest end of incoming; what is for another
      queue, for an address no active buffer has, or not user space's to queue, changes
      nothing. */
  lemma QueuedExactly(l: Lane, q: nat, e: Event, verifying: bool)
    ensures e.UserQueue? && e.buffer.queue == q && e.buffer in l.user ==>
              var r := React(l, q, e, verifying);
              && r.incoming == [e.buffer] + l.incoming && r.active == l.active && r.held == l.held
              && r.user[e.buffer] == l.user[e.buffer] - 1 && r.queued[e.buffer] == l.queued[e.buffer] + 1
    ensures e.UserQueue? && (e.buffer.queue != q || e.buffer !in l.user) ==> React(l, q, e, verifying) == l
    ensures e.PinReady? && (e.pin != q || forall b | b in l.active :: b.addr != e.addr) ==> React(l, q, e, verifying) == l
  {
    if e.PinReady? {
      var k := FindActive(l.active, e.addr);
      if k < |l.active| { assert l.active[k] in l.active; }
    }
  }

  lemma LastCounts(s: seq<Buffer>)
    requires s != []
    ensures multiset(s) == multiset(s[..|s| - 1]) + multiset{Last(s)}
  {
    assert s == s[..|s| - 1] + [Last(s)];
  }

  lemma HeadCounts(s: seq<Buffer>)
    requires s != []
    ensures multiset(s) == multiset(s[1..]) + multiset{s[0]}
  {
    assert s == [s[0]] + s[1..];
  }

  // ---------------------------------------------------------------- one step of any interleaving

  datatype Step =
    | Interfere(event: Event, verifying: bool)
    | Take
    | Return(b: Buffer)
    | Start(b: Buffer)
    | Answer(b: Buffer)
    | Recall(i: nat)
    | Drain

  predicate Enabled(l: Lane, s: Step) {
    match s
    case Interfere(_, _) => true
    case Take => l.incoming != []
    case Return(b) => b in l.held
    case Start(b) => b in l.held
    case Answer(b) => b in l.held
    case Recall(i) => i < |l.active|
    case Drain => l.incoming != []
  }

  function Next(l: Lane, q: nat, s: Step): Lane
    requires Enabled(l, s)
  {
    match s
    case Interfere(e, verifying) => React(l, q, e, verifying)
    case Take => TakeOldest(l)
    case Return(b) => PutBack(l, b)
    case Start(b) => Submit(l, b)
    case Answer(b) => Complete(l, b)
    case Recall(i) => DetachActive(l, i)
    case Drain => DetachIncoming(l)
  }

  lemma ReactBalanced(l: Lane, q: nat, e: Event, verifying: bool, all: set<Buffer>)
    requires Balanced(l, all)
    ensures Balanced(React(l, q, e, verifying), all)
  {
    if e.UserQueue? {
      var b := e.buffer;
      if b.queue == q && b in l.user {
        assert multiset([b] + l.incoming) == multiset{b} + multiset(l.incoming);
      }
    } else if e.pin == q {
      var i := FindActive(l.active, e.addr);
      if i < |l.active| {
        WithoutCounts(l.active, i);
        assert multiset([l.active[i]] + l.incoming) == multiset{l.active[i]} + multiset(l.incoming);
      }
    }
  }

  lemma NextBalanced(l: Lane, q: nat, s: Step, all: set<Buffer>)
    requires Balanced(l, all) && Enabled(l, s)
    ensures Balanced(Next(l, q, s), all)
  {
    match s
    case Interfere(e, verifying) => ReactBalanced(l, q, e, verifying, all);
    case Take => LastCounts(l.incoming);
    case Return(b) =>
    case Start(b) =>
    case Answer(b) =>
    case Recall(i) => WithoutCounts(l.active, i);
    case Drain => HeadCounts(l.incoming);
  }

  // ---------------------------------------------------------------- every interleaving

  datatype Move = Move(queue: nat, step: Step)

  ghost predicate Legal(lanes: seq<Lane>, moves: seq<Move>)
    decreases |moves|
  {
    moves == [] ||
    (moves[0].queue < |lanes| && Enabled(lanes[moves[0].queue], moves[0].step)
     && Legal(lanes[moves[0].queue := Next(lanes[moves[0].queue], moves[0].queue, moves[0].step)], moves[1..]))
  }

  ghost function After(lanes: seq<Lane>, moves: seq<Move>): (r: seq<Lane>)
    requires Legal(lanes, moves)
    ensures |r| == |lanes|
    decreases |moves|
  {
    if moves == [] then lanes
    else After(lanes[moves[0].queue := Next(lanes[moves[0].queue], moves[0].queue, moves[0].step)], moves[1..])
  }

  ghost predicate AllBalanced(lanes: seq<Lane>, all: seq<set<Buffer>>) {
    |lanes| == |all| && forall q | 0 <= q < |lanes| :: Balanced(lanes[q], all[q])
  }

  lemma {:induction false} InterleavingBalanced(lanes: seq<Lane>, moves: seq<Move>, all: seq<set<Buffer>>)
    requires AllBalanced(lanes, all) && Legal(lanes, moves)
    ensures AllBalanced(After(lanes, moves), all)
    decreases |moves|
  {
    if moves != [] {
      var m := moves[0];
      NextBalanced(lanes[m.queue], m.queue, m.step, all[m.queue]);
      InterleavingBalanced(lanes[m.queue := Next(lanes[m.queue], m.queue, m.step)], moves[1..], all);
    }
  }

  /** Ownership, in every interleaving of user space, firmware and driver steps:
      a buffer is in exactly one place, in it once, and the completions given for
      it lag the queueings by one exactly while the driver has it. */
  lemma OwnedOnce(lanes: seq<Lane>, moves: seq<Move>, all: seq<set<Buffer>>, q: nat, b: Buffer)
    requires AllBalanced(lanes, all) && Legal(lanes, moves)
    requires q < |all| && b in all[q]
    ensures var l := After(lanes, moves)[q];
            && One(b in l.incoming) + One(b in l.active) + One(b in l.held) + One(b in l.user) == 1
            && multiset(l.incoming)[b] <= 1 && multiset(l.active)[b] <= 1
            && l.queued[b] == l.answered[b] + One(b !in l.user)
  {
    InterleavingBalanced(lanes, moves, all);
    var l := After(lanes, moves)[q];
    assert Carried(l, b) + l.user[b] == 1;
  }
}
