/** The firmware message queues of ipu-fw-com.c: rings of tokens in memory shared
    by the host and the firmware, with their read and write indices in registers.
    All arithmetic on indices and sizes is modulo 2^32. */
module FwCom {
  import opened Common

  type Token = nat

  function W(n: int): (w: nat)
    ensures w < U32
  {
    n % U32
  }

  lemma Narrow(n: nat)
    requires n < U32
    ensures W(n) == n
  {}

  /** An unsigned sum that wraps is mended by a difference that wraps back. */
  lemma WrapSub(a: nat, b: nat)
    ensures W(W(a) - b) == W(a - b)
  {}

  // ---------------------------------------------------------------- one ring

  /** A ring in shared memory: `size` slots and the two index registers. */
  datatype Ring = Ring(size: nat, wr: nat, rd: nat, slots: seq<Token>)

  ghost predicate Formed(r: Ring) { 0 < r.size < U32 && |r.slots| == r.size && r.wr < r.size && r.rd < r.size }

  function NumMessages(wr: nat, rd: nat, size: nat): nat { W((if wr < rd then W(wr + size) else wr) - rd) }

  function NumFree(wr: nat, rd: nat, size: nat): nat { W(size - NumMessages(wr, rd, size)) }

  predicate IndexValid(r: Ring, index: nat) { index < r.size }

  /** ipu_send_get_token: whether a slot is given out, the one at `wr`. */
  predicate SendGrants(r: Ring) { IndexValid(r, r.wr) && IndexValid(r, r.rd) && NumFree(W(r.wr + 1), r.rd, r.size) > 0 }

  /** ipu_recv_get_token: whether a token is there, the one at `rd`. */
  predicate ReceiveGrants(r: Ring) { IndexValid(r, r.wr) && IndexValid(r, r.rd) && NumMessages(r.wr, r.rd, r.size) > 0 }

  function IncIndex(size: nat, index: nat): nat { if W(index + 1) >= size then 0 else W(index + 1) }

  function SendPut(r: Ring): Ring { r.(wr := IncIndex(r.size, r.wr)) }

  function ReceivePut(r: Ring): Ring { r.(rd := IncIndex(r.size, r.rd)) }

  function Write(r: Ring, token: Token): Ring
    requires r.wr < |r.slots|
  {
    r.(slots := r.slots[r.wr := token])
  }

  function Outstanding(r: Ring): int { if r.wr < r.rd then r.wr + r.size - r.rd else r.wr - r.rd }

  /** The queue the ring stands for, oldest first. */
  ghost function Contents(r: Ring): (s: seq<Token>)
    requires Formed(r)
    ensures |s| == Outstanding(r)
  {
    if r.wr < r.rd then r.slots[r.rd..] + r.slots[..r.wr] else r.slots[r.rd..r.wr]
  }

  /** Receiving is refused exactly on an empty ring. */
  lemma ReceiveRefusesEmpty(r: Ring)
    requires Formed(r)
    ensures ReceiveGrants(r) <==> Contents(r) != []
    ensures ReceiveGrants(r) ==> r.slots[r.rd] == Contents(r)[0]
  {
    WrapSub(r.wr + r.size, r.rd);
    Narrow(Outstanding(r));
  }

  /** The send-side test refuses in one single state, whatever the ring holds. */
  lemma SendRefusesOnce(r: Ring)
    requires Formed(r)
    ensures !SendGrants(r) <==> r.wr == r.size - 1 && r.rd == 0
  {
    hide W;
    Narrow(r.wr + 1);
    WrapSub(r.wr + 1 + r.size, r.rd);
    if r.wr + 1 < r.rd { Narrow(r.wr + 1 + r.size - r.rd); Narrow(r.rd - r.wr - 1); }
    else { Narrow(r.wr + 1 - r.rd); Narrow(r.size - (r.wr + 1 - r.rd)); }
  }

  /** Putting a token appends it exactly if the ring had a second free slot;
      otherwise everything in the ring is lost. */
  lemma PutAppends(r: Ring, token: Token)
    requires Formed(r)
    ensures var n := SendPut(Write(r, token));
            && Formed(n)
            && Contents(n) == if Outstanding(r) < r.size - 1 then Contents(r) + [token] else []
  {
    hide W, IncIndex;
    IncIndexTurns(r.size, r.wr);
  }

  lemma IncIndexTurns(size: nat, index: nat)
    requires index < size < U32
    ensures IncIndex(size, index) == if index + 1 == size then 0 else index + 1
  {
    Narrow(index + 1);
  }

  lemma ReceivePops(r: Ring)
    requires Formed(r) && Contents(r) != []
    ensures Formed(ReceivePut(r)) && Contents(ReceivePut(r)) == Contents(r)[1..]
  {
    hide W, IncIndex;
    IncIndexTurns(r.size, r.rd);
  }

  lemma FirstToken(r: Ring)
    requires Formed(r) && Contents(r) != []
    ensures r.slots[r.rd] == Contents(r)[0]
  {}

  /** Writing the slot at `wr` touches nothing that is queued. */
  lemma WriteHidden(r: Ring, token: Token)
    requires Formed(r)
    ensures Formed(Write(r, token)) && Contents(Write(r, token)) == Contents(r)
  {}

  // ---------------------------------------------------------------- host and firmware interleaved

  /** Steps of the two ends of a ring, at the grain of their accesses to it. */
  datatype Step = SendGet | Fill(token: Token) | Send | ReceiveGet | Receive

  /** A ring, whether each end holds a slot or a token it was given, and what went
      in and came out so far. */
  datatype Link = Link(ring: Ring, sending: bool, receiving: bool, sent: seq<Token>, received: seq<Token>)

  /** The rules of use: a producer asks for a slot only while fewer than size - 1
      tokens are outstanding, and each end puts back only what it was given. */
  predicate Allowed(l: Link, s: Step) {
    match s
    case SendGet => Outstanding(l.ring) < l.ring.size - 1
    case Fill(_) => l.sending && l.ring.wr < |l.ring.slots|
    case Send => l.sending && l.ring.wr < |l.ring.slots|
    case ReceiveGet => true
    case Receive => l.receiving && l.ring.rd < |l.ring.slots|
  }

  function Next(l: Link, s: Step): Link
    requires Allowed(l, s)
  {
    match s
    case SendGet => l.(sending := SendGrants(l.ring))
    case Fill(token) => l.(ring := Write(l.ring, token))
    case Send => l.(ring := SendPut(l.ring), sending := false, sent := l.sent + [l.ring.slots[l.ring.wr]])
    case ReceiveGet => l.(receiving := ReceiveGrants(l.ring))
    case Receive => l.(ring := ReceivePut(l.ring), receiving := false, received := l.received + [l.ring.slots[l.ring.rd]])
  }

  /** The ring is an unbounded queue between the two ends. */
  ghost predicate Fifo(l: Link) {
    && Formed(l.ring)
    && l.sent == l.received + Contents(l.ring)
    && (l.sending ==> Outstanding(l.ring) < l.ring.size - 1)
    && (l.receiving ==> Contents(l.ring) != [])
  }

  lemma StepFifo(l: Link, s: Step)
    requires Fifo(l) && Allowed(l, s)
    ensures Fifo(Next(l, s))
    ensures s.SendGet? ==> Next(l, s).sending
  {
    hide SendGrants, ReceiveGrants, IncIndex, Contents, W;
    var r := l.ring;
    match s
    case SendGet =>
      SendRefusesOnce(r);
    case Fill(token) =>
      WriteHidden(r, token);
    case Send =>
      assert Write(r, r.slots[r.wr]) == r;
      PutAppends(r, r.slots[r.wr]);
      assert l.sent + [r.slots[r.wr]] == l.received + (Contents(r) + [r.slots[r.wr]]);
    case ReceiveGet =>
      ReceiveRefusesEmpty(r);
    case Receive =>
      FirstToken(r);
      ReceivePops(r);
      assert l.sent == (l.received + [Contents(r)[0]]) + Contents(r)[1..];
  }

  ghost predicate Legal(l: Link, steps: seq<Step>)
    decreases |steps|
  {
    steps == [] || (Allowed(l, steps[0]) && Legal(Next(l, steps[0]), steps[1..]))
  }

  ghost function After(l: Link, steps: seq<Step>): Link
    requires Legal(l, steps)
    decreases |steps|
  {
    if steps == [] then l else After(Next(l, steps[0]), steps[1..])
  }

  /** In any interleaving of the two ends nothing is lost, duplicated or reordered. */
  lemma {:induction false} InterleavingFifo(l: Link, steps: seq<Step>)
    requires Fifo(l) && Legal(l, steps)
    ensures Fifo(After(l, steps))
    decreases |steps|
  {
    hide Fifo, Allowed, Next;
    if steps != [] {
      StepFifo(l, steps[0]);
      InterleavingFifo(Next(l, steps[0]), steps[1..]);
    }
  }

  /** What has come out is a prefix of what went in. */
  lemma ReceivedInOrder(l: Link, steps: seq<Step>)
    requires Fifo(l) && Legal(l, steps)
    ensures Formed(After(l, steps).ring)
    ensures After(l, steps).received <= After(l, steps).sent
    ensures After(l, steps).sent == After(l, steps).received + Contents(After(l, steps).ring)
  {
    InterleavingFifo(l, steps);
  }

  /** Without the rule a full ring is silently emptied: the next state of a ring with
      size - 1 tokens, and no refusal, unless it is the one refusing state. */
  lemma FullRingLoses(r: Ring, token: Token)
    requires Formed(r) && Outstanding(r) == r.size - 1
    ensures SendGrants(r) <==> !(r.wr == r.size - 1 && r.rd == 0)
    ensures SendGrants(r) ==> Contents(SendPut(Write(r, token))) == []
  {
    SendRefusesOnce(r);
    PutAppends(r, token);
  }

  // ---------------------------------------------------------------- the shared allocation

  const CONFIG_BYTES := 32
  const DESCRIPTOR_BYTES := 32
  const FIRST_REGISTER := 6

  datatype QueueConfig = QueueConfig(queueSize: nat, tokenSize: nat)

  datatype Config = Config(inputs: seq<QueueConfig>, outputs: seq<QueueConfig>, specificSize: nat)

  /** A queue descriptor: where its slots are for each side, and its registers. */
  datatype Queue = Queue(host: nat, vied: nat, size: nat, tokenSize: nat, wrReg: nat, rdReg: nat)

  function Round8(n: nat): nat { (n + 7) / 8 * 8 }

  function BufSize(c: QueueConfig): nat { (c.queueSize + 1) * c.tokenSize }

  function Sum(cs: seq<QueueConfig>): nat {
    if cs == [] then 0 else Sum(cs[..|cs| - 1]) + BufSize(cs[|cs| - 1])
  }

  function InputDescriptors(): nat { CONFIG_BYTES }

  function OutputDescriptors(c: Config): nat { CONFIG_BYTES + |c.inputs| * DESCRIPTOR_BYTES }

  function Specific(c: Config): nat { OutputDescriptors(c) + |c.outputs| * DESCRIPTOR_BYTES }

  function Slots(c: Config): nat { Specific(c) + Round8(c.specificSize) }

  function Total(c: Config): nat { Slots(c) + Sum(c.inputs) + Sum(c.outputs) }

  function QueueCount(c: Config): nat { |c.inputs| + |c.outputs| }

  function QueueConfigAt(c: Config, k: nat): QueueConfig
    requires k < QueueCount(c)
  {
    if k < |c.inputs| then c.inputs[k] else c.outputs[k - |c.inputs|]
  }

  /** Where the slots of queue `k` start, inputs first. */
  function Start(c: Config, k: nat): nat
    requires k <= QueueCount(c)
  {
    Slots(c) + if k <= |c.inputs| then Sum(c.inputs[..k]) else Sum(c.inputs) + Sum(c.outputs[..k - |c.inputs|])
  }

  /** The descriptor the driver promises for queue `k`. */
  function QueueAt(c: Config, k: nat, host: nat, vied: nat): Queue
    requires k < QueueCount(c)
  {
    var q := QueueConfigAt(c, k);
    Queue(host + Start(c, k), vied + Start(c, k), q.queueSize + 1, q.tokenSize,
          FIRST_REGISTER + 2 * k, FIRST_REGISTER + 2 * k + 1)
  }

  lemma StartStep(c: Config, k: nat)
    requires k < QueueCount(c)
    ensures Start(c, k + 1) == Start(c, k) + BufSize(QueueConfigAt(c, k))
  {
    if k < |c.inputs| {
      assert c.inputs[..k + 1][..k] == c.inputs[..k];
    } else {
      var j := k - |c.inputs|;
      assert c.outputs[..j + 1][..j] == c.outputs[..j];
      assert c.inputs[..|c.inputs|] == c.inputs;
      assert j == 0 ==> c.outputs[..j] == [];
    }
  }

  lemma StartEnds(c: Config)
    ensures Start(c, 0) == Slots(c) && Start(c, QueueCount(c)) == Total(c)
  {
    assert c.inputs[..0] == [];
    if c.outputs == [] {
      assert c.inputs[..|c.inputs|] == c.inputs;
    } else {
      assert c.outputs[..|c.outputs|] == c.outputs;
    }
  }

  lemma {:induction false} StartMonotone(c: Config, j: nat, k: nat)
    requires j <= k <= QueueCount(c)
    ensures Start(c, j) <= Start(c, k)
  {
    if j < k {
      StartMonotone(c, j, k - 1);
      StartStep(c, k - 1);
    }
  }

  /** Token slot `i` of queue `k` takes these bytes of the allocation. */
  predicate InSlot(c: Config, k: nat, i: nat, x: nat) {
    && k < QueueCount(c) && i <= QueueConfigAt(c, k).queueSize
    && var size := QueueConfigAt(c, k).tokenSize;
       Start(c, k) + i * size <= x < Start(c, k) + i * size + size
  }

  lemma SlotInside(c: Config, k: nat, i: nat, x: nat)
    requires InSlot(c, k, i, x)
    ensures Start(c, k) <= x < Start(c, k + 1)
  {
    StartStep(c, k);
    var q := QueueConfigAt(c, k);
    assert i * q.tokenSize + q.tokenSize == (i + 1) * q.tokenSize <= (q.queueSize + 1) * q.tokenSize by {
      Scale(i + 1, q.queueSize + 1, q.tokenSize);
    }
  }

  lemma Scale(a: nat, b: nat, n: nat)
    requires a <= b
    ensures a * n <= b * n
  {}

  /** Slots of different queues share no byte. */
  lemma QueuesDisjoint(c: Config, j: nat, i: nat, k: nat, h: nat, x: nat)
    requires InSlot(c, j, i, x) && InSlot(c, k, h, x)
    ensures j == k
  {
    SlotInside(c, j, i, x);
    SlotInside(c, k, h, x);
    hide InSlot, Start;
    if j < k { StartMonotone(c, j + 1, k); }
    if k < j { StartMonotone(c, k + 1, j); }
  }

  lemma StretchesDisjoint(i: nat, h: nat, n: nat, x: nat)
    requires i * n <= x < i * n + n && h * n <= x < h * n + n
    ensures i == h
  {
    assert (i + 1) * n == i * n + n && (h + 1) * n == h * n + n;
    if i < h { Scale(i + 1, h, n); }
    if h < i { Scale(h + 1, i, n); }
  }

  /** All token slots of all queues are disjoint. */
  lemma SlotsDisjoint(c: Config, j: nat, i: nat, k: nat, h: nat, x: nat)
    requires InSlot(c, j, i, x) && InSlot(c, k, h, x)
    ensures j == k && i == h
  {
    hide Start, QueueConfigAt;
    QueuesDisjoint(c, j, i, k, h, x);
    StretchesDisjoint(i, h, QueueConfigAt(c, k).tokenSize, x - Start(c, k));
  }

  /** So a byte at a host address belongs to one token of one queue. */
  lemma TokensApart(c: Config, host: nat, vied: nat, j: nat, i: nat, k: nat, h: nat, x: nat)
    requires j < QueueCount(c) && k < QueueCount(c)
    requires var p := QueueAt(c, j, host, vied);
             i < p.size && p.host + i * p.tokenSize <= x < p.host + i * p.tokenSize + p.tokenSize
    requires var q := QueueAt(c, k, host, vied);
             h < q.size && q.host + h * q.tokenSize <= x < q.host + h * q.tokenSize + q.tokenSize
    ensures j == k && i == h
  {
    hide Start, QueueConfigAt;
    SlotsDisjoint(c, j, i, k, h, x - host);
  }

  /** Header, descriptors, private data and token slots fill the allocation: the
      bytes from `Slots` on are slots and nothing else. */
  lemma SlotsFill(c: Config, x: nat) returns (k: nat, i: nat)
    requires Slots(c) <= x < Total(c)
    ensures InSlot(c, k, i, x)
  {
    StartEnds(c);
    k := 0;
    while k < QueueCount(c) && x >= Start(c, k + 1)
      invariant k <= QueueCount(c) && Start(c, k) <= x
    {
      k := k + 1;
    }
    StartStep(c, k);
    var q := QueueConfigAt(c, k);
    i := SlotOf(x - Start(c, k), q.tokenSize, q.queueSize + 1);
  }

  lemma SlotOf(x: nat, size: nat, count: nat) returns (i: nat)
    requires x < count * size
    ensures i < count && i * size <= x < i * size + size
  {
    i := 0;
    while x >= (i + 1) * size
      invariant i < count && i * size <= x
      decreases x - i * size, count - i
    {
      if i + 1 == count { assert false; }
      assert (i + 1) * size == i * size + size;
      i := i + 1;
    }
    assert (i + 1) * size == i * size + size;
  }

  /** The parts of the allocation: the configuration header of 28 bytes, the two tables of
      descriptors of 32 bytes each, the private data and the token slots. */
  datatype Part = Header | InputTable | OutputTable | Private | Rings

  predicate InPart(c: Config, p: Part, x: nat) {
    match p
    case Header => x < 28
    case InputTable => InputDescriptors() <= x < InputDescriptors() + 32 * |c.inputs|
    case OutputTable => OutputDescriptors(c) <= x < OutputDescriptors(c) + 32 * |c.outputs|
    case Private => Specific(c) <= x < Specific(c) + c.specificSize
    case Rings => Slots(c) <= x < Total(c)
  }

  /** No byte is in two parts, and all are inside the allocation; the slots begin right
      after the rounded private data and end with the allocation. */
  lemma PartsInOrder(c: Config)
    ensures forall p, q, x: nat | InPart(c, p, x) && InPart(c, q, x) :: p == q
    ensures forall p, x: nat | InPart(c, p, x) :: x < Total(c)
    ensures Specific(c) + c.specificSize <= Slots(c) < Specific(c) + c.specificSize + 8
    ensures Start(c, 0) == Slots(c) && Start(c, QueueCount(c)) == Total(c)
  {
    StartEnds(c);
  }

  /** Both sides see every queue at the same offset, and no two index registers of
      any queues are the same. */
  lemma QueuesAgree(c: Config, j: nat, k: nat, host: nat, vied: nat)
    requires j < QueueCount(c) && k < QueueCount(c)
    ensures QueueAt(c, k, host, vied).host - host == QueueAt(c, k, host, vied).vied - vied
    ensures QueueAt(c, k, host, vied).rdReg == QueueAt(c, k, host, vied).wrReg + 1
    ensures var p, q := QueueAt(c, j, host, vied), QueueAt(c, k, host, vied);
            j != k ==> p.wrReg != q.wrReg && p.wrReg != q.rdReg && p.rdReg != q.wrReg && p.rdReg != q.rdReg
  {}

  // ---------------------------------------------------------------- preparing the allocation

  /** Sizes below the machine word. */
  predicate Fits(c: Config) {
    && Total(c) < U32
    && (forall k | 0 <= k < |c.inputs| :: c.inputs[k].queueSize + 1 < U32)
    && forall k | 0 <= k < |c.outputs| :: c.outputs[k].queueSize + 1 < U32
  }

  datatype Layout = Layout(bytes: nat, inputQueues: nat, outputQueues: nat, specific: nat, queues: seq<Queue>)

  /** The cursors ipu_sys_queue_init advances. */
  class Cursor {
    var host: nat
    var vied: nat
    var reg: nat

    constructor (host: nat, vied: nat, reg: nat)
      ensures this.host == host && this.vied == vied && this.reg == reg
    {
      this.host, this.vied, this.reg := host, vied, reg;
    }

    /** ipu_sys_queue_init. */
    method QueueInit(c: QueueConfig) returns (q: Queue)
      requires c.queueSize + 1 < U32 && BufSize(c) < U32 && vied + BufSize(c) < U32 && reg + 2 < U32
      modifies this
      ensures q == Queue(old(host), old(vied), c.queueSize + 1, c.tokenSize, old(reg), old(reg) + 1)
      ensures host == old(host) + BufSize(c) && vied == old(vied) + BufSize(c) && reg == old(reg) + 2
    {
      hide W;
      Narrow(c.queueSize + 1);
      Narrow(BufSize(c));
      Narrow(vied + BufSize(c));
      Narrow(reg + 1);
      Narrow(reg + 2);
      var size := W(c.queueSize + 1);
      var bufSize := W(size * c.tokenSize);
      var q0 := Queue(host, vied, size, c.tokenSize, reg, 0);
      host := host + bufSize;
      vied := W(vied + bufSize);
      reg := W(reg + 1);
      q := q0.(rdReg := reg);
      reg := W(reg + 1);
    }
  }

  lemma WAdds(a: nat, b: nat)
    ensures W(W(a) + W(b)) == W(a + b)
  {}

  lemma WScales(a: nat, b: nat)
    ensures W(W(a) * b) == W(a * b)
  {
    var k := a / U32;
    assert a * b == W(a) * b + U32 * (k * b);
    ModuloDrops(W(a) * b, k * b);
  }

  lemma ModuloDrops(n: nat, k: nat)
    ensures W(n + U32 * k) == W(n)
  {}

  lemma RoundWraps(n: nat)
    requires n < U32
    ensures W(W(n + 7) / 8 * 8) == W(Round8(n))
  {}

  /** The size the queues of a list add to the allocation, in 32 bits. */
  method SizeOf(cs: seq<QueueConfig>) returns (size: nat)
    ensures size == W(Sum(cs))
  {
    hide W;
    size := 0;
    Narrow(0);
    assert cs[..0] == [];
    var i := 0;
    while i < |cs|
      invariant i <= |cs| && size == W(Sum(cs[..i]))
    {
      WScales(cs[i].queueSize + 1, cs[i].tokenSize);
      WAdds(Sum(cs[..i]), BufSize(cs[i]));
      WAgain(Sum(cs[..i]));
      assert cs[..i + 1][..i] == cs[..i];
      size := W(size + W(W(cs[i].queueSize + 1) * cs[i].tokenSize));
      i := i + 1;
    }
    assert cs[..i] == cs;
  }

  lemma WAgain(n: nat)
    ensures W(W(n)) == W(n)
  {}

  lemma NarrowExactly(n: nat)
    ensures W(n) == n <==> n < U32
  {}

  /** The allocated size, in 32 bits: it covers everything exactly if the sizes add up
      below 2^32. */
  method SizeAll(c: Config) returns (size: nat)
    requires c.specificSize < U32
    ensures size == W(Total(c)) && (size == Total(c) <==> Total(c) < U32)
  {
    hide W, Round8, Sum;
    var inputs := SizeOf(c.inputs);
    var outputs := SizeOf(c.outputs);
    RoundWraps(c.specificSize);
    var head := CONFIG_BYTES + |c.inputs| * DESCRIPTOR_BYTES + |c.outputs| * DESCRIPTOR_BYTES;
    SizesAdd(head, Round8(c.specificSize), Sum(c.inputs), Sum(c.outputs));
    NarrowExactly(Total(c));
    size := W(W(head) + W(W(c.specificSize + 7) / 8 * 8));
    size := W(size + W(inputs + outputs));
  }

  lemma SizesAdd(head: nat, specific: nat, inputs: nat, outputs: nat)
    ensures W(W(W(head) + W(specific)) + W(W(inputs) + W(outputs))) == W(head + specific + inputs + outputs)
  {
    hide W;
    WAdds(head, specific);
    WAdds(inputs, outputs);
    WAdds(head + specific, inputs + outputs);
  }

  /** ipu_fw_com_prepare: one allocation for everything, if there is memory. */
  method Prepare(c: Config, hostBase: nat, dmaBase: nat, memory: bool) returns (ok: bool, layout: Layout)
    requires Fits(c) && c.specificSize < U32 && dmaBase + Total(c) < U32
    requires FIRST_REGISTER + 2 * QueueCount(c) < U32
    ensures ok == memory
    ensures ok ==>
              && layout.bytes == Total(c)
              && layout.inputQueues == dmaBase + InputDescriptors() && layout.outputQueues == dmaBase + OutputDescriptors(c)
              && layout.specific == dmaBase + Specific(c) && |layout.queues| == QueueCount(c)
              && layout.outputQueues == layout.inputQueues + 32 * |c.inputs|
              && layout.specific == layout.outputQueues + 32 * |c.outputs|
              && forall k | 0 <= k < QueueCount(c) :: layout.queues[k] == QueueAt(c, k, hostBase, dmaBase)
  {
    hide Sum, Round8, BufSize;
    var sizeAll := SizeAll(c);
    Narrow(Total(c));
    layout := Layout(0, 0, 0, 0, []);
    if !memory { return false, layout; }
    StartEnds(c);
    var offset := CONFIG_BYTES;
    var inputQueues := dmaBase + offset;
    offset := offset + |c.inputs| * DESCRIPTOR_BYTES;
    var outputQueues := dmaBase + offset;
    offset := offset + |c.outputs| * DESCRIPTOR_BYTES;
    var specific := dmaBase + offset;
    offset := offset + Round8(c.specificSize);
    var cursor := new Cursor(hostBase + offset, dmaBase + offset, FIRST_REGISTER);
    var queues: seq<Queue> := [];
    var k := 0;
    while k < QueueCount(c)
      invariant k == |queues| <= QueueCount(c)
      invariant cursor.host == hostBase + Start(c, k) && cursor.vied == dmaBase + Start(c, k)
      invariant cursor.reg == FIRST_REGISTER + 2 * k
      invariant forall j | 0 <= j < k :: queues[j] == QueueAt(c, j, hostBase, dmaBase)
    {
      StartStep(c, k);
      StartMonotone(c, k + 1, QueueCount(c));
      FitsAt(c, k);
      var q := cursor.QueueInit(QueueConfigAt(c, k));
      queues := queues + [q];
      k := k + 1;
    }
    layout := Layout(sizeAll, inputQueues, outputQueues, specific, queues);
    ok := true;
  }

  lemma FitsAt(c: Config, k: nat)
    requires Fits(c) && k < QueueCount(c)
    ensures QueueConfigAt(c, k).queueSize + 1 < U32
  {}

  // ---------------------------------------------------------------- the host's side of the queues

  datatype Slot = NoSlot | At(address: nat)

  /** The registers and slots of the queues of one context; the read index register
      is the one after the write index register. */
  class Context {
    const queues: seq<Queue>
    var regs: map<nat, nat>
    var slots: seq<seq<Token>>

    ghost predicate Valid()
      reads this
    {
      && |slots| == |queues|
      && (forall k | 0 <= k < |queues| :: queues[k].size < U32 && queues[k].wrReg in regs && queues[k].wrReg + 1 in regs)
      && forall j, k | 0 <= j < k < |queues| :: Apart(queues[j].wrReg, queues[k].wrReg)
    }

    function RingAt(k: nat): Ring
      requires k < |queues| && k < |slots| && queues[k].wrReg in regs && queues[k].wrReg + 1 in regs
      reads this
    {
      Ring(queues[k].size, regs[queues[k].wrReg], regs[queues[k].wrReg + 1], slots[k])
    }

    constructor (queues: seq<Queue>, regs: map<nat, nat>, slots: seq<seq<Token>>)
      ensures this.queues == queues && this.regs == regs && this.slots == slots
    {
      this.queues, this.regs, this.slots := queues, regs, slots;
    }

    /** ipu_send_get_token. */
    method SendGetToken(k: nat) returns (slot: Slot)
      requires Valid() && k < |queues|
      ensures slot == if SendGrants(RingAt(k)) then At(queues[k].host + RingAt(k).wr * queues[k].tokenSize) else NoSlot
    {
      hide NumFree, W;
      var q := queues[k];
      var wr, rd := regs[q.wrReg], regs[q.wrReg + 1];
      if wr >= q.size || rd >= q.size { return NoSlot; }
      var packets := NumFree(W(wr + 1), rd, q.size);
      if packets <= 0 { return NoSlot; }
      var index := regs[q.wrReg];
      slot := At(q.host + index * q.tokenSize);
    }

    /** The caller writes the token it was given. */
    method FillToken(k: nat, token: Token)
      requires Valid() && k < |queues| && RingAt(k).wr < |slots[k]|
      modifies this`slots
      ensures Valid() && RingAt(k) == Write(old(RingAt(k)), token)
      ensures forall j | 0 <= j < |queues| && j != k :: RingAt(j) == old(RingAt(j))
    {
      slots := slots[k := slots[k][regs[queues[k].wrReg] := token]];
    }

    /** ipu_send_put_token: moves the write index of this queue and no other index. */
    method SendPutToken(k: nat)
      requires Valid() && k < |queues|
      modifies this`regs
      ensures Valid() && RingAt(k) == SendPut(old(RingAt(k)))
      ensures forall j | 0 <= j < |queues| && j != k :: RingAt(j) == old(RingAt(j))
    {
      hide IncIndex;
      var q := queues[k];
      var index := IncIndex(q.size, regs[q.wrReg]);
      forall j | 0 <= j < |queues| && j != k ensures Apart(queues[j].wrReg, q.wrReg) {
        assert if j < k then Apart(queues[j].wrReg, queues[k].wrReg) else Apart(queues[k].wrReg, queues[j].wrReg);
      }
      regs := regs[q.wrReg := index];
    }

    /** ipu_recv_get_token. */
    method ReceiveGetToken(k: nat) returns (slot: Slot)
      requires Valid() && k < |queues|
      ensures slot == if ReceiveGrants(RingAt(k)) then At(queues[k].host + RingAt(k).rd * queues[k].tokenSize) else NoSlot
    {
      hide NumMessages, W;
      var q := queues[k];
      var wr, rd := regs[q.wrReg], regs[q.wrReg + 1];
      if wr >= q.size || rd >= q.size { return NoSlot; }
      var packets := NumMessages(wr, rd, q.size);
      if packets <= 0 { return NoSlot; }
      slot := At(q.host + rd * q.tokenSize);
    }

    /** ipu_recv_put_token. */
    method ReceivePutToken(k: nat)
      requires Valid() && k < |queues|
      modifies this`regs
      ensures Valid() && RingAt(k) == ReceivePut(old(RingAt(k)))
      ensures forall j | 0 <= j < |queues| && j != k :: RingAt(j) == old(RingAt(j))
    {
      hide IncIndex;
      var q := queues[k];
      forall j | 0 <= j < |queues| && j != k ensures Apart(queues[j].wrReg, q.wrReg) {
        assert if j < k then Apart(queues[j].wrReg, queues[k].wrReg) else Apart(queues[k].wrReg, queues[j].wrReg);
      }
      regs := regs[q.wrReg + 1 := IncIndex(q.size, regs[q.wrReg + 1])];
    }
  }

  /** Two queues share no index register. */
  predicate Apart(a: nat, b: nat) { a != b && a != b + 1 && a + 1 != b }

  /** The registers of a prepared layout are apart. */
  lemma PreparedApart(c: Config, j: nat, k: nat, host: nat, vied: nat)
    requires j < k < QueueCount(c)
    ensures Apart(QueueAt(c, j, host, vied).wrReg, QueueAt(c, k, host, vied).wrReg)
  {}

  /** A context over a prepared allocation: the queues are those of the configuration,
      and `regs` and `slots` are what the registers and the memory hold. */
  method PrepareContext(c: Config, hostBase: nat, dmaBase: nat, memory: bool, regs: map<nat, nat>, slots: seq<seq<Token>>)
      returns (context: Context?)
    requires Fits(c) && c.specificSize < U32 && dmaBase + Total(c) < U32
    requires FIRST_REGISTER + 2 * QueueCount(c) < U32
    requires |slots| == QueueCount(c)
    requires forall r | FIRST_REGISTER <= r < FIRST_REGISTER + 2 * QueueCount(c) :: r in regs
    ensures context != null <==> memory
    ensures context != null ==>
              && fresh(context) && context.Valid() && context.regs == regs && context.slots == slots
              && |context.queues| == QueueCount(c)
              && forall k | 0 <= k < QueueCount(c) :: context.queues[k] == QueueAt(c, k, hostBase, dmaBase)
  {
    hide Total, Start;
    var ok, layout := Prepare(c, hostBase, dmaBase, memory);
    if !ok { return null; }
    forall j, k | 0 <= j < k < QueueCount(c) ensures Apart(layout.queues[j].wrReg, layout.queues[k].wrReg) {
      PreparedApart(c, j, k, hostBase, dmaBase);
    }
    forall k | 0 <= k < QueueCount(c) ensures layout.queues[k].size < U32 { FitsAt(c, k); }
    context := new Context(layout.queues, regs, slots);
  }
}
