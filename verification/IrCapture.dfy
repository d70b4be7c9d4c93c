/** The infrared capture engine of cbridge/ir-v4l2.c: what it does with each
    buffer the kernel gives back, its sequence and error accounting, and its
    bounded discarding of error buffers.

    Sequence numbers are 32 bits wide and wrap; counters are unbounded.  The
    kernel's answers, the clock and whether a frame decodes come with each call. */
module IrCapture {
  import opened Common

  const MAX_DELTA := 0x7fff_ffff
  const MAX_DISCARDS := 5
  const MAX_DISCARD_WAIT := 2_000_000_000

  /** A dequeued buffer: `error` and `monotonic` are its flags. */
  datatype Frame = Frame(index: nat, planes: nat, error: bool, monotonic: bool, sequence: nat,
                         sec: int, usec: int, bytesused: nat, dataOffset: nat)

  /** What poll and DQBUF come to; a timeout, an interruption and an empty queue
      are all `Nothing`. */
  datatype Wait = Nothing | PollFailed | DequeueFailed | Got(frame: Frame)

  datatype Input = Input(wait: Wait, now: nat, decodes: bool, requeues: bool)

  datatype Result = Delivered | Discarded | TimedOut | Failed

  datatype Reason =
    | InvalidIndex | InvalidPlaneCount | ErrorFlag | TimestampFlags | CapacityUnavailable | InvalidPlaneMetadata
    | TimestampEmpty | TimestampRegression | BadSequence | BadDecode | BadRequeue

  datatype Requeue = NotAttempted | Succeeded | Lost

  datatype ErrorKind =
    | NoError | TimeoutError | PollError | DequeueError | MetadataError | TimestampError | SequenceError | DecodeError
    | RequeueError | DiscardLimitError

  datatype Stats = Stats(frames: nat, gaps: nat, rejected: nat, metadata: nat, timestamp: nat, sequence: nat, decode: nat,
                         requeue: nat, discarded: nat, discardLimit: nat, consecutive: nat, poll: nat, dequeue: nat,
                         lastError: ErrorKind, reasons: set<Reason>, requeueResult: Requeue)

  /** `capacities` are the lengths of the mapped buffers, 0 where there is none;
      `anchor` is when the current row of discards began, 0 for none. */
  datatype Capture = Capture(capacities: seq<nat>, streaming: bool, policy: bool, haveSequence: bool, lastSequence: nat,
                             lastSec: int, lastUsec: int, anchor: nat, stats: Stats)

  datatype Step = Step(capture: Capture, result: Result)

  // ---------------------------------------------------------------- one call

  function CanRequeue(m: Capture, f: Frame): bool { f.index < |m.capacities| && f.planes == 1 }

  function MetadataReasons(m: Capture, f: Frame): set<Reason> {
    (if f.index < |m.capacities| then {} else {InvalidIndex, CapacityUnavailable})
    + (if f.planes == 1 then {} else {InvalidPlaneCount})
    + (if f.error then {ErrorFlag} else {})
    + (if f.monotonic then {} else {TimestampFlags})
    + (if CanRequeue(m, f) && m.capacities[f.index] == 0 then {CapacityUnavailable} else {})
  }

  function PlaneReasons(m: Capture, f: Frame): set<Reason> {
    if CanRequeue(m, f) && m.capacities[f.index] != 0
       && (f.dataOffset >= f.bytesused || f.bytesused > m.capacities[f.index])
    then {InvalidPlaneMetadata} else {}
  }

  predicate Later(sec0: int, usec0: int, sec1: int, usec1: int) { sec0 < sec1 || (sec0 == sec1 && usec0 < usec1) }

  function TimestampReasons(m: Capture, f: Frame): set<Reason> {
    if f.sec == 0 && f.usec == 0 then {TimestampEmpty}
    else if m.haveSequence && !Later(m.lastSec, m.lastUsec, f.sec, f.usec) then {TimestampRegression}
    else {}
  }

  /** The 32-bit difference of two sequence numbers. */
  function Delta(last: nat, sequence: nat): nat { (sequence - last) % U32 }

  predicate LimitReached(m: Capture, now: nat) {
    m.policy && (m.stats.consecutive >= MAX_DISCARDS || (m.anchor != 0 && now >= m.anchor && now - m.anchor >= MAX_DISCARD_WAIT))
  }

  function OnNothing(m: Capture, now: nat): Step {
    if LimitReached(m, now)
    then Step(m.(stats := m.stats.(discardLimit := m.stats.discardLimit + 1, lastError := DiscardLimitError)), Failed)
    else Step(m.(stats := m.stats.(lastError := TimeoutError)), TimedOut)
  }

  /** The exit of a rejected buffer; its reasons and error are in `m` already. */
  function Rejected(m: Capture, f: Frame, i: Input): Step {
    var s0 := m.stats.(rejected := m.stats.rejected + 1);
    var s1 :=
      if !CanRequeue(m, f) then s0
      else if i.requeues then s0.(requeueResult := Succeeded)
      else s0.(reasons := s0.reasons + {BadRequeue}, requeueResult := Lost, requeue := s0.requeue + 1, lastError := RequeueError);
    if m.policy && s1.reasons == {ErrorFlag} && s1.requeueResult == Succeeded then
      var m1 := m.(stats := s1, anchor := if m.anchor == 0 then i.now else m.anchor);
      if LimitReached(m1, i.now)
      then Step(m1.(stats := s1.(discardLimit := s1.discardLimit + 1, lastError := DiscardLimitError)), Failed)
      else Step(m1.(stats := s1.(discarded := s1.discarded + 1, consecutive := s1.consecutive + 1)), Discarded)
    else Step(m.(stats := s1), Failed)
  }

  function Mark(s: Stats, reasons: set<Reason>): Stats { s.(reasons := reasons, requeueResult := NotAttempted) }

  function BadMetadata(m: Capture, reasons: set<Reason>): Capture {
    m.(stats := Mark(m.stats, reasons).(metadata := m.stats.metadata + 1, lastError := MetadataError))
  }

  /** The gap a buffer adds to the count: what lies between it and the last frame. */
  function GapBefore(m: Capture, f: Frame): nat {
    if m.haveSequence && Delta(m.lastSequence, f.sequence) > 1 then Delta(m.lastSequence, f.sequence) - 1 else 0
  }

  /** The checks on a dequeued buffer: refused, with the blame recorded, or
      accepted, with its gap counted. */
  datatype Judgement = Refuse(capture: Capture) | Accept(capture: Capture)

  function Judge(m: Capture, f: Frame, decodes: bool): Judgement {
    var plane := PlaneReasons(m, f);
    var time := TimestampReasons(m, f);
    if MetadataReasons(m, f) != {} then Refuse(BadMetadata(m, MetadataReasons(m, f) + plane + time))
    else if time != {} then
      Refuse(m.(stats := Mark(m.stats, time + plane).(timestamp := m.stats.timestamp + 1, lastError := TimestampError)))
    else if m.haveSequence && !(1 <= Delta(m.lastSequence, f.sequence) <= MAX_DELTA) then
      Refuse(m.(stats := Mark(m.stats, {BadSequence} + plane).(sequence := m.stats.sequence + 1, lastError := SequenceError)))
    else
      JudgeContents(m.(stats := m.stats.(gaps := m.stats.gaps + GapBefore(m, f))), plane, decodes)
  }

  /** The checks after the sequence check, with the gap counted. */
  function JudgeContents(c: Capture, plane: set<Reason>, decodes: bool): Judgement {
    if plane != {} then Refuse(BadMetadata(c, plane))
    else if !decodes then
      Refuse(c.(stats := Mark(c.stats, {BadDecode}).(decode := c.stats.decode + 1, lastError := DecodeError)))
    else Accept(c)
  }

  function Deliver(m: Capture, f: Frame, requeues: bool): Step {
    if !requeues then
      Step(m.(stats := m.stats.(requeue := m.stats.requeue + 1, lastError := RequeueError)), Failed)
    else
      Step(m.(lastSequence := f.sequence, lastSec := f.sec, lastUsec := f.usec, haveSequence := true, anchor := 0,
              stats := m.stats.(frames := m.stats.frames + 1, consecutive := 0)), Delivered)
  }

  function OnFrame(m: Capture, f: Frame, i: Input): Step {
    match Judge(m, f, i.decodes)
    case Refuse(c) => Rejected(c, f, i)
    case Accept(c) => Deliver(c, f, i.requeues)
  }

  /** ir_capture_next. */
  function Next(m: Capture, i: Input): Step {
    if !m.streaming then Step(m, Failed)
    else
      match i.wait
      case Nothing => OnNothing(m, i.now)
      case PollFailed => Step(m.(stats := m.stats.(poll := m.stats.poll + 1, lastError := PollError)), Failed)
      case DequeueFailed => Step(m.(stats := m.stats.(dequeue := m.stats.dequeue + 1, lastError := DequeueError)), Failed)
      case Got(f) => OnFrame(m, f, i)
  }

  /** ir_capture_start, with whether every QBUF and STREAMON succeeded. */
  function Start(m: Capture, ok: bool): Capture {
    m.(anchor := 0, stats := m.stats.(consecutive := 0), streaming := if ok then true else m.streaming)
  }

  /** ir_capture_stop, with whether STREAMOFF succeeded. */
  function Stop(m: Capture, ok: bool): Capture { m.(streaming := m.streaming && !ok) }

  function New(capacities: seq<nat>, policy: bool): Capture {
    Capture(capacities, false, policy, false, 0, 0, 0, 0,
            Stats(0, 0, 0, 0, 0, 0, 0, 0, 0, 0, 0, 0, 0, NoError, {}, NotAttempted))
  }

  datatype Op = Begin(ok: bool) | End(ok: bool) | Ask(input: Input)

  function Do(m: Capture, op: Op): Step {
    match op
    case Begin(ok) => Step(Start(m, ok), TimedOut)
    case End(ok) => Step(Stop(m, ok), TimedOut)
    case Ask(i) => Next(m, i)
  }

  function Run(m: Capture, ops: seq<Op>): Capture
    decreases |ops|
  {
    if ops == [] then m else Run(Do(m, ops[0]).capture, ops[1..])
  }

  // ---------------------------------------------------------------- sequence accounting

  /** Whether a call got past the sequence check of a buffer. */
  predicate PassesSequence(m: Capture, op: Op) {
    && op.Ask? && m.streaming && op.input.wait.Got?
    && var f := op.input.wait.frame;
       && MetadataReasons(m, f) == {} && TimestampReasons(m, f) == {}
       && (m.haveSequence ==> 1 <= Delta(m.lastSequence, f.sequence) <= MAX_DELTA)
  }

  /** How far a call moves the unwrapped sequence number of the last frame. */
  function Advance(m: Capture, op: Op): nat {
    if Do(m, op).result == Delivered && op.Ask? && op.input.wait.Got? && m.haveSequence
    then Delta(m.lastSequence, op.input.wait.frame.sequence) else 0
  }

  /** What a call adds to the gaps for a buffer it then does not deliver. */
  function Overcount(m: Capture, op: Op): nat {
    if PassesSequence(m, op) && Do(m, op).result != Delivered then GapBefore(m, op.input.wait.frame) else 0
  }

  function Span(m: Capture, ops: seq<Op>): nat
    decreases |ops|
  {
    if ops == [] then 0 else Advance(m, ops[0]) + Span(Do(m, ops[0]).capture, ops[1..])
  }

  function Excess(m: Capture, ops: seq<Op>): nat
    decreases |ops|
  {
    if ops == [] then 0 else Overcount(m, ops[0]) + Excess(Do(m, ops[0]).capture, ops[1..])
  }

  lemma RejectedKeeps(m: Capture, f: Frame, i: Input)
    ensures var r := Rejected(m, f, i);
            && r.result != Delivered && r.result != TimedOut
            && r.capture == m.(stats := r.capture.stats, anchor := r.capture.anchor)
            && r.capture.stats.frames == m.stats.frames && r.capture.stats.gaps == m.stats.gaps
            && r.capture.stats.rejected == m.stats.rejected + 1 && r.capture.stats.metadata == m.stats.metadata
            && r.capture.stats.timestamp == m.stats.timestamp && r.capture.stats.sequence == m.stats.sequence
            && r.capture.stats.decode == m.stats.decode
            && r.capture.stats.requeue == m.stats.requeue + One(CanRequeue(m, f) && !i.requeues)
  {}

  /** What the checks leave alone, and that a refusal has exactly one cause. */
  predicate Judged(m: Capture, j: Judgement) {
    var s, n := m.stats, j.capture.stats;
    && j.capture == m.(stats := n)
    && n.frames == s.frames && n.rejected == s.rejected && n.requeue == s.requeue && n.consecutive == s.consecutive
    && n.metadata + n.timestamp + n.sequence + n.decode == s.metadata + s.timestamp + s.sequence + s.decode + One(j.Refuse?)
  }

  lemma ContentsJudged(c: Capture, plane: set<Reason>, decodes: bool)
    ensures Judged(c, JudgeContents(c, plane, decodes))
    ensures JudgeContents(c, plane, decodes).capture.stats.gaps == c.stats.gaps
  {}

  lemma JudgeFacts(m: Capture, f: Frame, decodes: bool)
    ensures Judged(m, Judge(m, f, decodes))
  {
    hide JudgeContents, PlaneReasons, MetadataReasons, TimestampReasons, GapBefore, Delta;
    ContentsJudged(m.(stats := m.stats.(gaps := m.stats.gaps + GapBefore(m, f))), PlaneReasons(m, f), decodes);
  }

  lemma StepAccounts(m: Capture, op: Op)
    ensures var n := Do(m, op).capture;
            n.stats.frames + n.stats.gaps + One(m.haveSequence)
            == m.stats.frames + m.stats.gaps + One(n.haveSequence) + Advance(m, op) + Overcount(m, op)
    ensures Do(m, op).result == Delivered ==> PassesSequence(m, op)
  {
    if op.Ask? && m.streaming && op.input.wait.Got? {
      FrameAccounts(m, op.input.wait.frame, op.input);
    }
  }

  lemma FrameAccounts(m: Capture, f: Frame, i: Input)
    ensures var r := OnFrame(m, f, i); var n := r.capture;
            var passes := MetadataReasons(m, f) == {} && TimestampReasons(m, f) == {}
                          && (m.haveSequence ==> 1 <= Delta(m.lastSequence, f.sequence) <= MAX_DELTA);
            && (r.result == Delivered ==> passes && n.haveSequence && n.stats.frames == m.stats.frames + 1)
            && (r.result != Delivered ==> n.haveSequence == m.haveSequence && n.stats.frames == m.stats.frames)
            && n.stats.gaps == m.stats.gaps + if passes then GapBefore(m, f) else 0
  {
    var c := Judge(m, f, i.decodes).capture;
    RejectedKeeps(c, f, i);
    hide Rejected, PlaneReasons, MetadataReasons, TimestampReasons, GapBefore, Delta;
  }

  /** The accounting law, over any run and any number of wraps: frames and gaps
      together cover the span of the delivered frames, and exceed it by exactly
      what was counted for buffers rejected after the sequence check. */
  lemma {:induction false} RunAccounts(m: Capture, ops: seq<Op>)
    ensures var n := Run(m, ops);
            n.stats.frames + n.stats.gaps + One(m.haveSequence)
            == m.stats.frames + m.stats.gaps + One(n.haveSequence) + Span(m, ops) + Excess(m, ops)
    decreases |ops|
  {
    if ops != [] {
      StepAccounts(m, ops[0]);
      RunAccounts(Do(m, ops[0]).capture, ops[1..]);
    }
  }

  lemma {:induction false} FramesMeanSequence(m: Capture, ops: seq<Op>)
    requires m.haveSequence <==> m.stats.frames > 0
    ensures Run(m, ops).haveSequence <==> Run(m, ops).stats.frames > 0
    decreases |ops|
  {
    if ops != [] {
      if ops[0].Ask? && m.streaming && ops[0].input.wait.Got? { FrameAccounts(m, ops[0].input.wait.frame, ops[0].input); }
      hide OnFrame;
      FramesMeanSequence(Do(m, ops[0]).capture, ops[1..]);
    }
  }

  /** Every overcounted buffer followed its predecessor directly. */
  predicate NoGapLost(m: Capture, ops: seq<Op>)
    decreases |ops|
  {
    ops == [] || (Overcount(m, ops[0]) == 0 && NoGapLost(Do(m, ops[0]).capture, ops[1..]))
  }

  lemma {:induction false} ExcessFree(m: Capture, ops: seq<Op>)
    ensures Excess(m, ops) == 0 <==> NoGapLost(m, ops)
    decreases |ops|
  {
    if ops != [] { ExcessFree(Do(m, ops[0]).capture, ops[1..]); }
  }

  /** Once a frame was delivered, frames and gaps never undercount; they are exact
      if and only if no buffer with a gap before it was rejected after the
      sequence check. */
  lemma GapsCoverSpan(capacities: seq<nat>, policy: bool, ops: seq<Op>)
    requires Run(New(capacities, policy), ops).stats.frames > 0
    ensures var m := New(capacities, policy); var n := Run(m, ops).stats;
            && n.frames + n.gaps >= 1 + Span(m, ops)
            && (n.frames + n.gaps == 1 + Span(m, ops) <==> NoGapLost(m, ops))
  {
    var m := New(capacities, policy);
    RunAccounts(m, ops);
    FramesMeanSequence(m, ops);
    ExcessFree(m, ops);
  }

  /** A good buffer of queue position 0. */
  function Good(sequence: nat): Frame { Frame(0, 1, false, true, sequence, 10 + sequence, 0, 8, 0) }

  /** Start, a frame, `lost` sequence numbers missing, a frame that does not decode,
      and the frame right after it. */
  function Undecodable(lost: nat): seq<Op> {
    [Begin(true), Ask(Input(Got(Good(0)), 1, true, true)), Ask(Input(Got(Good(lost + 1)), 1, false, true)),
     Ask(Input(Got(Good(lost + 2)), 1, true, true))]
  }

  /** The excess happens, and can be of any size: the numbers lost before a buffer
      that is then rejected are counted again with the next frame. */
  lemma GapsCountedTwice(lost: nat)
    requires lost < MAX_DELTA - 2
    ensures var m := New([8], false); var n := Run(m, Undecodable(lost)).stats;
            && Excess(m, Undecodable(lost)) == lost
            && n.frames == 2 && Span(m, Undecodable(lost)) == lost + 2
            && n.frames + n.gaps == 1 + Span(m, Undecodable(lost)) + lost
  {
    var m, ops := New([8], false), Undecodable(lost);
    var m1 := Do(m, ops[0]).capture;
    var m2 := Do(m1, ops[1]).capture;
    FirstFrame(m1);
    UndecodedFrame(m2, lost);
    var m3 := Do(m2, ops[2]).capture;
    NextGoodFrame(m3, lost);
    var m4 := Do(m3, ops[3]).capture;
    hide Do, Advance, Overcount;
    RunOne(m, ops);
    RunOne(m1, ops[1..]);
    RunOne(m2, ops[2..]);
    RunOne(m3, ops[3..]);
    assert ops[3..][1..] == [];
  }

  lemma RunOne(m: Capture, ops: seq<Op>)
    requires ops != []
    ensures var n := Do(m, ops[0]).capture;
            && Run(m, ops) == Run(n, ops[1..])
            && Span(m, ops) == Advance(m, ops[0]) + Span(n, ops[1..])
            && Excess(m, ops) == Overcount(m, ops[0]) + Excess(n, ops[1..])
  {
    hide Do, Advance, Overcount;
  }

  lemma FirstFrame(m: Capture)
    requires m == New([8], false).(streaming := true)
    ensures var op := Ask(Input(Got(Good(0)), 1, true, true)); var n := Do(m, op).capture;
            && n.streaming && n.haveSequence && n.lastSequence == 0 && n.lastSec == 10 && n.lastUsec == 0
            && n.capacities == [8] && !n.policy && n.stats.frames == 1 && n.stats.gaps == 0
            && Advance(m, op) == 0 && Overcount(m, op) == 0
  {}

  predicate Begun(m: Capture) {
    m.streaming && m.haveSequence && m.lastSequence == 0 && m.lastSec == 10 && m.lastUsec == 0 && m.capacities == [8] && !m.policy
  }

  lemma GoodAfter(m: Capture, sequence: nat)
    requires Begun(m) && 0 < sequence <= MAX_DELTA
    ensures var f := Good(sequence);
            MetadataReasons(m, f) == {} && TimestampReasons(m, f) == {} && PlaneReasons(m, f) == {}
            && Delta(m.lastSequence, f.sequence) == sequence && GapBefore(m, f) == sequence - 1
  {
    SmallDelta(0, sequence);
  }

  lemma UndecodedFrame(m: Capture, lost: nat)
    requires Begun(m) && lost < MAX_DELTA - 2
    ensures var op := Ask(Input(Got(Good(lost + 1)), 1, false, true)); var n := Do(m, op).capture;
            && Begun(n) && n.stats.frames == m.stats.frames && n.stats.gaps == m.stats.gaps + lost
            && Advance(m, op) == 0 && Overcount(m, op) == lost
  {
    GoodAfter(m, lost + 1);
    hide MetadataReasons, TimestampReasons, PlaneReasons, GapBefore, Delta;
    var f := Good(lost + 1);
    RejectedKeeps(Judge(m, f, false).capture, f, Input(Got(f), 1, false, true));
    hide Rejected;
  }

  lemma NextGoodFrame(m: Capture, lost: nat)
    requires Begun(m) && lost < MAX_DELTA - 2
    ensures var op := Ask(Input(Got(Good(lost + 2)), 1, true, true)); var n := Do(m, op).capture;
            && n.stats.frames == m.stats.frames + 1 && n.stats.gaps == m.stats.gaps + lost + 1
            && Advance(m, op) == lost + 2 && Overcount(m, op) == 0
  {
    GoodAfter(m, lost + 2);
    hide MetadataReasons, TimestampReasons, PlaneReasons, GapBefore, Delta;
  }

  lemma SmallDelta(last: nat, sequence: nat)
    requires last <= sequence < U32
    ensures Delta(last, sequence) == sequence - last
  {}

  predicate InRange(m: Capture) { m.lastSequence < U32 }

  predicate Fits(op: Op) { op.Ask? && op.input.wait.Got? ==> op.input.wait.frame.sequence < U32 }

  lemma DeltaWraps(last: nat, sequence: nat)
    requires last < U32 && sequence < U32
    ensures (last + Delta(last, sequence)) % U32 == sequence
  {
    assert last + Delta(last, sequence) == sequence || last + Delta(last, sequence) == sequence + U32;
  }

  function Wrapped(n: nat): nat { n % U32 }

  lemma WrappedSmall(n: nat)
    requires n < U32
    ensures Wrapped(n) == n
  {}

  lemma WrapAdds(a: nat, b: nat)
    ensures Wrapped(Wrapped(a) + b) == Wrapped(a + b)
  {}

  lemma FrameMoves(m: Capture, f: Frame, i: Input)
    ensures var n := OnFrame(m, f, i).capture;
            if OnFrame(m, f, i).result == Delivered
            then n.haveSequence && n.lastSequence == f.sequence && n.lastSec == f.sec && n.lastUsec == f.usec
                 && n.anchor == 0 && n.stats.consecutive == 0
            else n.haveSequence == m.haveSequence && n.lastSequence == m.lastSequence
                 && n.lastSec == m.lastSec && n.lastUsec == m.lastUsec
  {
    var c := Judge(m, f, i.decodes).capture;
    RejectedKeeps(c, f, i);
    hide Rejected, PlaneReasons, MetadataReasons, TimestampReasons, GapBefore, Delta;
  }

  lemma StepMoves(m: Capture, op: Op)
    requires m.haveSequence && InRange(m) && Fits(op)
    ensures var n := Do(m, op).capture;
            n.haveSequence && InRange(n) && n.lastSequence == Wrapped(m.lastSequence + Advance(m, op))
  {
    if op.Ask? && m.streaming && op.input.wait.Got? {
      var f := op.input.wait.frame;
      FrameMoves(m, f, op.input);
      hide OnFrame, Delta;
      DeltaWraps(m.lastSequence, f.sequence);
    }
  }

  /** The span is the 32-bit sequence number unwrapped. */
  lemma {:induction false} SpanIsSequence(m: Capture, ops: seq<Op>)
    requires m.haveSequence && InRange(m) && forall k | 0 <= k < |ops| :: Fits(ops[k])
    ensures Run(m, ops).lastSequence == Wrapped(m.lastSequence + Span(m, ops))
    decreases |ops|
  {
    hide Do, Advance, Fits, Wrapped;
    WrappedSmall(m.lastSequence);
    if ops != [] {
      StepMoves(m, ops[0]);
      var n := Do(m, ops[0]).capture;
      SpanIsSequence(n, ops[1..]);
      WrapAdds(m.lastSequence + Advance(m, ops[0]), Span(n, ops[1..]));
    }
  }

  // ---------------------------------------------------------------- order of the delivered frames

  datatype Stamp = Stamp(sequence: nat, sec: int, usec: int)

  function Deliveries(m: Capture, ops: seq<Op>): seq<Stamp>
    decreases |ops|
  {
    if ops == [] then []
    else
      var r := Do(m, ops[0]);
      (if r.result == Delivered then [Stamp(r.capture.lastSequence, r.capture.lastSec, r.capture.lastUsec)] else [])
      + Deliveries(r.capture, ops[1..])
  }

  predicate Follows(a: Stamp, b: Stamp) {
    Later(a.sec, a.usec, b.sec, b.usec) && 1 <= Delta(a.sequence, b.sequence) <= MAX_DELTA
  }

  predicate InOrder(d: seq<Stamp>) { forall k | 0 < k < |d| :: Follows(d[k - 1], d[k]) }

  function Head(m: Capture): Stamp { Stamp(m.lastSequence, m.lastSec, m.lastUsec) }

  lemma FrameFollows(m: Capture, f: Frame, i: Input)
    requires OnFrame(m, f, i).result == Delivered && m.haveSequence
    ensures Follows(Head(m), Stamp(f.sequence, f.sec, f.usec))
  {
    FrameAccounts(m, f, i);
  }

  /** Delivered frames follow each other: later time stamps, and a sequence step
      between 1 and 2^31 - 1. */
  lemma {:induction false} DeliveriesFollow(m: Capture, ops: seq<Op>)
    ensures var d := Deliveries(m, ops);
            && InOrder(d)
            && (m.haveSequence && d != [] ==> Follows(Head(m), d[0]))
    decreases |ops|
  {
    if ops != [] {
      var op := ops[0];
      var r := Do(m, op);
      DeliveriesFollow(r.capture, ops[1..]);
      if op.Ask? && m.streaming && op.input.wait.Got? {
        var f := op.input.wait.frame;
        FrameMoves(m, f, op.input);
        if r.result == Delivered && m.haveSequence { FrameFollows(m, f, op.input); }
      }
      hide OnFrame, Follows;
    }
  }

  lemma {:induction false} DeliveriesLater(m: Capture, ops: seq<Op>, i: nat, j: nat)
    requires i < j < |Deliveries(m, ops)|
    ensures var d := Deliveries(m, ops); Later(d[i].sec, d[i].usec, d[j].sec, d[j].usec)
    decreases j
  {
    DeliveriesFollow(m, ops);
    var d := Deliveries(m, ops);
    assert Follows(d[j - 1], d[j]);
    if i < j - 1 { DeliveriesLater(m, ops, i, j - 1); }
  }

  /** A run and its deliveries, one call longer. */
  lemma {:induction false} RunLonger(m: Capture, ops: seq<Op>, op: Op)
    ensures Run(m, ops + [op]) == Do(Run(m, ops), op).capture
    ensures var r := Do(Run(m, ops), op);
            Deliveries(m, ops + [op]) == Deliveries(m, ops) + if r.result == Delivered then [Head(r.capture)] else []
    decreases |ops|
  {
    hide Do;
    if ops == [] {
      assert ops + [op] == [op] && [op][1..] == [];
      var r := Do(m, op);
      assert Deliveries(r.capture, []) == [];
    } else {
      assert (ops + [op])[1..] == ops[1..] + [op];
      RunLonger(Do(m, ops[0]).capture, ops[1..], op);
    }
  }

  // ---------------------------------------------------------------- error accounting

  /** Every rejected buffer has exactly one cause. */
  predicate ErrorsAdd(m: Capture) {
    m.stats.rejected == m.stats.metadata + m.stats.timestamp + m.stats.sequence + m.stats.decode
  }

  lemma FrameErrorsAdd(m: Capture, f: Frame, i: Input)
    requires ErrorsAdd(m)
    ensures ErrorsAdd(OnFrame(m, f, i).capture)
  {
    hide Judge, Rejected;
    JudgeFacts(m, f, i.decodes);
    RejectedKeeps(Judge(m, f, i.decodes).capture, f, i);
  }

  lemma {:induction false} ErrorsAlwaysAdd(m: Capture, ops: seq<Op>)
    requires ErrorsAdd(m)
    ensures ErrorsAdd(Run(m, ops))
    decreases |ops|
  {
    if ops != [] {
      if ops[0].Ask? && m.streaming && ops[0].input.wait.Got? { FrameErrorsAdd(m, ops[0].input.wait.frame, ops[0].input); }
      hide OnFrame;
      ErrorsAlwaysAdd(Do(m, ops[0]).capture, ops[1..]);
    }
  }

  // ---------------------------------------------------------------- discarding

  /** Calls of ir_capture_next only, on a nonzero clock that never goes back. */
  predicate Clocked(ops: seq<Op>) {
    && (forall k | 0 <= k < |ops| :: ops[k].Ask? && ops[k].input.now > 0)
    && forall j, k | 0 <= j < k < |ops| :: ops[j].input.now <= ops[k].input.now
  }

  predicate NoFrames(m: Capture, ops: seq<Op>)
    decreases |ops|
  {
    ops == [] || (Do(m, ops[0]).result != Delivered && NoFrames(Do(m, ops[0]).capture, ops[1..]))
  }

  /** When the discards of a run happened. */
  function DiscardTimes(m: Capture, ops: seq<Op>): seq<nat>
    decreases |ops|
  {
    if ops == [] then []
    else
      (if Do(m, ops[0]).result == Discarded && ops[0].Ask? then [ops[0].input.now] else [])
      + DiscardTimes(Do(m, ops[0]).capture, ops[1..])
  }

  predicate Anchored(m: Capture) {
    m.policy && m.stats.consecutive <= MAX_DISCARDS && (m.anchor == 0 <==> m.stats.consecutive == 0)
  }

  lemma RejectedDiscards(m: Capture, f: Frame, i: Input)
    requires Anchored(m) && 0 < i.now && m.anchor <= i.now
    ensures var r := Rejected(m, f, i); var n := r.capture;
            && Anchored(n) && r.result != Delivered
            && if r.result == Discarded
               then n.stats.consecutive == m.stats.consecutive + 1 && n.anchor == (if m.anchor == 0 then i.now else m.anchor)
                    && i.now - n.anchor < MAX_DISCARD_WAIT
               else n.stats.consecutive == m.stats.consecutive && n.anchor == m.anchor
  {}

  lemma StepDiscards(m: Capture, i: Input)
    requires Anchored(m) && 0 < i.now && m.anchor <= i.now && Next(m, i).result != Delivered
    ensures var r := Next(m, i); var n := r.capture;
            && Anchored(n)
            && if r.result == Discarded
               then n.stats.consecutive == m.stats.consecutive + 1 && n.anchor == (if m.anchor == 0 then i.now else m.anchor)
                    && i.now - n.anchor < MAX_DISCARD_WAIT
               else n.stats.consecutive == m.stats.consecutive && n.anchor == m.anchor
  {
    if m.streaming && i.wait.Got? {
      var f := i.wait.frame;
      hide Rejected, Judge;
      JudgeFacts(m, f, i.decodes);
      RejectedDiscards(Judge(m, f, i.decodes).capture, f, i);
    }
  }

  predicate WithinWait(times: seq<nat>, from: nat) { forall k | 0 <= k < |times| :: from <= times[k] < from + MAX_DISCARD_WAIT }

  lemma {:induction false} DiscardsFew(m: Capture, ops: seq<Op>)
    requires Anchored(m) && Clocked(ops) && NoFrames(m, ops) && (ops != [] ==> m.anchor <= ops[0].input.now)
    ensures |DiscardTimes(m, ops)| <= MAX_DISCARDS - m.stats.consecutive
    decreases |ops|
  {
    if ops != [] {
      AnchorKept(m, ops[0].input);
      ClockedTail(ops);
      hide Next, Anchored, Clocked;
      DiscardsFew(Next(m, ops[0].input).capture, ops[1..]);
    } else {
      assert m.stats.consecutive <= MAX_DISCARDS;
    }
  }

  lemma {:induction false} DiscardsAfter(m: Capture, ops: seq<Op>)
    requires Anchored(m) && Clocked(ops) && NoFrames(m, ops) && m.anchor != 0 && (ops != [] ==> m.anchor <= ops[0].input.now)
    ensures WithinWait(DiscardTimes(m, ops), m.anchor)
    decreases |ops|
  {
    if ops != [] {
      AnchorKept(m, ops[0].input);
      ClockedTail(ops);
      hide Next, Anchored, Clocked;
      DiscardsAfter(Next(m, ops[0].input).capture, ops[1..]);
    }
  }

  lemma {:induction false} DiscardsInTime(m: Capture, ops: seq<Op>)
    requires Anchored(m) && Clocked(ops) && NoFrames(m, ops) && m.anchor == 0
    ensures var d := DiscardTimes(m, ops); d != [] ==> WithinWait(d, d[0])
    decreases |ops|
  {
    if ops != [] {
      var i := ops[0].input;
      AnchorKept(m, i);
      ClockedTail(ops);
      hide Next, Anchored, Clocked, WithinWait;
      var n := Next(m, i).capture;
      if Next(m, i).result == Discarded {
        DiscardsAfter(n, ops[1..]);
        WithinMore(i.now, DiscardTimes(n, ops[1..]));
      } else {
        DiscardsInTime(n, ops[1..]);
        assert [] + DiscardTimes(n, ops[1..]) == DiscardTimes(n, ops[1..]);
      }
    }
  }

  lemma WithinMore(from: nat, times: seq<nat>)
    requires WithinWait(times, from)
    ensures WithinWait([from] + times, from)
  {}

  lemma ClockedTail(ops: seq<Op>)
    requires Clocked(ops) && ops != []
    ensures Clocked(ops[1..]) && (|ops| > 1 ==> ops[0].input.now <= ops[1].input.now)
  {}

  lemma AnchorKept(m: Capture, i: Input)
    requires Anchored(m) && 0 < i.now && m.anchor <= i.now && Next(m, i).result != Delivered
    ensures Anchored(Next(m, i).capture)
    ensures Next(m, i).capture.anchor <= i.now
    ensures m.anchor == 0 && Next(m, i).result == Discarded ==> Next(m, i).capture.anchor == i.now
    ensures m.anchor != 0 ==> Next(m, i).capture.anchor == m.anchor
    ensures m.anchor == 0 && Next(m, i).result != Discarded ==> Next(m, i).capture.anchor == 0
    ensures m.anchor != 0 && Next(m, i).result == Discarded ==> i.now < m.anchor + MAX_DISCARD_WAIT
    ensures Next(m, i).result == Discarded ==> m.stats.consecutive < MAX_DISCARDS
    ensures Next(m, i).capture.stats.consecutive == m.stats.consecutive + One(Next(m, i).result == Discarded)
  {
    StepDiscards(m, i);
  }

  /** With the discard policy on, between two frames, or between a start and the
      first frame, at most 5 calls discard, all within two seconds of the first. */
  lemma DiscardPolicyBounds(m: Capture, ops: seq<Op>)
    requires m.policy && m.anchor == 0 && m.stats.consecutive == 0
    requires Clocked(ops) && NoFrames(m, ops)
    ensures var d := DiscardTimes(m, ops); |d| <= MAX_DISCARDS && (d != [] ==> WithinWait(d, d[0]))
  {
    DiscardsFew(m, ops);
    DiscardsInTime(m, ops);
  }

  /** A delivered frame and a start both end a row of discards. */
  lemma RowEnds(m: Capture, op: Op)
    requires Do(m, op).result == Delivered || op.Begin?
    ensures Do(m, op).capture.anchor == 0 && Do(m, op).capture.stats.consecutive == 0
  {
    if op.Ask? && m.streaming && op.input.wait.Got? {
      FrameMoves(m, op.input.wait.frame, op.input);
      hide OnFrame;
    }
  }

  // ---------------------------------------------------------------- the kernel's queue

  /** The buffers the kernel holds after a call that found `q` there. */
  function KernelAfter(m: Capture, q: set<nat>, i: Input): set<nat> {
    if !m.streaming || !i.wait.Got? then q
    else q - {i.wait.frame.index} + if CanRequeue(m, i.wait.frame) && i.requeues then {i.wait.frame.index} else {}
  }

  /** DQBUF only names buffers the kernel holds. */
  predicate Honest(m: Capture, q: set<nat>, inputs: seq<Input>)
    decreases |inputs|
  {
    inputs == [] ||
    ((m.streaming && inputs[0].wait.Got? ==> inputs[0].wait.frame.index in q)
     && Honest(Next(m, inputs[0]).capture, KernelAfter(m, q, inputs[0]), inputs[1..]))
  }

  function Asked(inputs: seq<Input>): seq<Op> { seq(|inputs|, k requires 0 <= k < |inputs| => Ask(inputs[k])) }

  function Kernel(m: Capture, q: set<nat>, inputs: seq<Input>): set<nat>
    decreases |inputs|
  {
    if inputs == [] then q else Kernel(Next(m, inputs[0]).capture, KernelAfter(m, q, inputs[0]), inputs[1..])
  }

  /** How many buffers came back in a shape that cannot be queued again. */
  function Stuck(m: Capture, inputs: seq<Input>): nat
    decreases |inputs|
  {
    if inputs == [] then 0
    else
      One(m.streaming && inputs[0].wait.Got? && !CanRequeue(m, inputs[0].wait.frame))
      + Stuck(Next(m, inputs[0]).capture, inputs[1..])
  }

  lemma AcceptedRequeues(m: Capture, f: Frame, decodes: bool)
    ensures Judge(m, f, decodes).Accept? ==> CanRequeue(m, f)
  {
    hide JudgeContents, PlaneReasons, TimestampReasons, GapBefore, Delta;
  }

  lemma FrameRequeues(m: Capture, f: Frame, i: Input)
    ensures OnFrame(m, f, i).capture.stats.requeue == m.stats.requeue + One(CanRequeue(m, f) && !i.requeues)
    ensures OnFrame(m, f, i).capture.capacities == m.capacities
  {
    hide Judge, Rejected;
    JudgeFacts(m, f, i.decodes);
    AcceptedRequeues(m, f, i.decodes);
    RejectedKeeps(Judge(m, f, i.decodes).capture, f, i);
  }

  /** No buffer is lost track of: what the kernel holds, failed requeues and
      buffers that could not be requeued always add up. */
  lemma {:induction false} BuffersConserved(m: Capture, q: set<nat>, inputs: seq<Input>)
    requires Honest(m, q, inputs)
    ensures |Kernel(m, q, inputs)| + Run(m, Asked(inputs)).stats.requeue + Stuck(m, inputs) == |q| + m.stats.requeue
    decreases |inputs|
  {
    if inputs != [] {
      var i := inputs[0];
      KernelStep(m, q, i);
      hide Next, KernelAfter, CanRequeue;
      assert Asked(inputs)[1..] == Asked(inputs[1..]) && Asked(inputs)[0] == Ask(i);
      BuffersConserved(Next(m, i).capture, KernelAfter(m, q, i), inputs[1..]);
    }
  }

  lemma KernelStep(m: Capture, q: set<nat>, i: Input)
    requires m.streaming && i.wait.Got? ==> i.wait.frame.index in q
    ensures |KernelAfter(m, q, i)| + Next(m, i).capture.stats.requeue
              + One(m.streaming && i.wait.Got? && !CanRequeue(m, i.wait.frame))
            == |q| + m.stats.requeue
  {
    hide OnFrame;
    if m.streaming && i.wait.Got? {
      FrameRequeues(m, i.wait.frame, i);
      var b := i.wait.frame.index;
      assert |q - {b}| == |q| - 1;
      assert (q - {b}) + {b} == q;
    }
  }

  // ---------------------------------------------------------------- which buffers are delivered

  /** Flags, planes and index of a buffer are as they must be. */
  predicate GoodFlags(m: Capture, f: Frame) {
    f.index < |m.capacities| && m.capacities[f.index] > 0 && f.planes == 1 && !f.error && f.monotonic
  }

  predicate GoodPlane(m: Capture, f: Frame) { f.index < |m.capacities| && f.dataOffset < f.bytesused <= m.capacities[f.index] }

  /** A time stamp that is set, and later than the last frame's. */
  predicate GoodTime(m: Capture, f: Frame) {
    && (f.sec != 0 || f.usec != 0)
    && (m.haveSequence ==> m.lastSec < f.sec || (m.lastSec == f.sec && m.lastUsec < f.usec))
  }

  /** A sequence number 1 to 2^31 - 1 steps after the last frame's, modulo 2^32. */
  predicate GoodStep(m: Capture, f: Frame) { m.haveSequence ==> 1 <= (f.sequence - m.lastSequence) % 0x1_0000_0000 <= 0x7fff_ffff }

  lemma ReasonsMean(m: Capture, f: Frame)
    ensures MetadataReasons(m, f) == {} <==> GoodFlags(m, f)
    ensures TimestampReasons(m, f) == {} <==> GoodTime(m, f)
    ensures f.index < |m.capacities| && f.planes == 1 && m.capacities[f.index] > 0 ==>
              (PlaneReasons(m, f) == {} <==> GoodPlane(m, f))
  {
    if !(f.index < |m.capacities|) { assert InvalidIndex in MetadataReasons(m, f); }
    if f.planes != 1 { assert InvalidPlaneCount in MetadataReasons(m, f); }
    if f.error { assert ErrorFlag in MetadataReasons(m, f); }
    if !f.monotonic { assert TimestampFlags in MetadataReasons(m, f); }
    if CanRequeue(m, f) && m.capacities[f.index] == 0 { assert CapacityUnavailable in MetadataReasons(m, f); }
    if f.sec == 0 && f.usec == 0 { assert TimestampEmpty in TimestampReasons(m, f); }
    else if m.haveSequence && !Later(m.lastSec, m.lastUsec, f.sec, f.usec) { assert TimestampRegression in TimestampReasons(m, f); }
    if CanRequeue(m, f) && m.capacities[f.index] != 0 && !GoodPlane(m, f) { assert InvalidPlaneMetadata in PlaneReasons(m, f); }
  }

  lemma JudgeMeans(m: Capture, f: Frame, decodes: bool)
    ensures Judge(m, f, decodes).Accept? <==> GoodFlags(m, f) && GoodTime(m, f) && GoodStep(m, f) && GoodPlane(m, f) && decodes
    ensures var s, n := m.stats, Judge(m, f, decodes).capture.stats;
            && n.metadata == s.metadata
                 + One(!GoodFlags(m, f) || (GoodTime(m, f) && GoodStep(m, f) && !GoodPlane(m, f)))
            && n.timestamp == s.timestamp + One(GoodFlags(m, f) && !GoodTime(m, f))
            && n.sequence == s.sequence + One(GoodFlags(m, f) && GoodTime(m, f) && !GoodStep(m, f))
            && n.decode == s.decode
                 + One(GoodFlags(m, f) && GoodTime(m, f) && GoodStep(m, f) && GoodPlane(m, f) && !decodes)
  {
    ReasonsMean(m, f);
    hide MetadataReasons, PlaneReasons, TimestampReasons, GapBefore, GoodTime, GoodPlane;
  }

  /** A buffer with nothing wrong about it. */
  predicate Passes(m: Capture, f: Frame) { GoodFlags(m, f) && GoodTime(m, f) && GoodStep(m, f) && GoodPlane(m, f) }

  /** A call delivers exactly the buffers that pass every test, in numbers: no error flag,
      a monotonic and later time stamp, one plane of data within its mapping, and a
      sequence step below 2^31, that decode and can be queued again. */
  lemma DeliveredExactly(m: Capture, i: Input)
    requires m.streaming && i.wait.Got?
    ensures var f := i.wait.frame;
            Next(m, i).result == Delivered <==>
              && !f.error && f.monotonic && f.planes == 1 && f.index < |m.capacities|
              && f.dataOffset < f.bytesused <= m.capacities[f.index]
              && (f.sec, f.usec) != (0, 0)
              && (m.haveSequence ==>
                    && (m.lastSec < f.sec || (m.lastSec == f.sec && m.lastUsec < f.usec))
                    && 1 <= (f.sequence - m.lastSequence) % 0x1_0000_0000 <= 0x7fff_ffff)
              && i.decodes && i.requeues
  {
    var f := i.wait.frame;
    JudgeMeans(m, f, i.decodes);
    RejectedKeeps(Judge(m, f, i.decodes).capture, f, i);
    hide Judge, Rejected;
  }

  /** The reasons of a refused buffer are the error flag alone exactly if nothing else is
      wrong with it. */
  lemma OnlyErrorFlag(m: Capture, f: Frame)
    ensures MetadataReasons(m, f) + PlaneReasons(m, f) + TimestampReasons(m, f) == {ErrorFlag} <==>
              f.error && GoodFlags(m, f.(error := false)) && GoodPlane(m, f) && GoodTime(m, f)
  {
    var clean := f.(error := false);
    ReasonsMean(m, clean);
    assert PlaneReasons(m, clean) == PlaneReasons(m, f) && TimestampReasons(m, clean) == TimestampReasons(m, f);
    assert MetadataReasons(m, f) == MetadataReasons(m, clean) + if f.error then {ErrorFlag} else {};
    assert ErrorFlag !in MetadataReasons(m, clean) + PlaneReasons(m, f) + TimestampReasons(m, f);
    hide MetadataReasons, PlaneReasons, TimestampReasons, GoodFlags, GoodPlane, GoodTime;
    var all := MetadataReasons(m, clean) + PlaneReasons(m, f) + TimestampReasons(m, f);
    assert MetadataReasons(m, f) + PlaneReasons(m, f) + TimestampReasons(m, f) == all + if f.error then {ErrorFlag} else {};
    if all != {} {
      var x :| x in all;
      assert x in all + if f.error then {ErrorFlag} else {};
    }
    GoodFlagsCapacity(m, clean);
  }

  lemma GoodFlagsCapacity(m: Capture, f: Frame)
    ensures GoodFlags(m, f) ==> f.index < |m.capacities| && f.planes == 1 && m.capacities[f.index] > 0
  {}

  /** With the policy on, a buffer whose only fault is the error flag, and that can be
      queued again, is discarded, up to five in a row and for less than two seconds. */
  lemma DiscardedExactly(m: Capture, i: Input)
    requires m.streaming && i.wait.Got?
    ensures var f := i.wait.frame;
            Next(m, i).result == Discarded <==>
              && m.policy && f.error && f.monotonic && f.planes == 1 && f.index < |m.capacities|
              && f.dataOffset < f.bytesused <= m.capacities[f.index]
              && (f.sec, f.usec) != (0, 0)
              && (m.haveSequence ==> m.lastSec < f.sec || (m.lastSec == f.sec && m.lastUsec < f.usec))
              && i.requeues
              && m.stats.consecutive < 5 && (m.anchor == 0 || i.now < m.anchor || i.now - m.anchor < 2_000_000_000)
  {
    var f := i.wait.frame;
    OnlyErrorFlag(m, f);
    OnlyMetadata(m, f, i.decodes);
    JudgeFacts(m, f, i.decodes);
    if Judge(m, f, i.decodes).Refuse? { RejectedIs(Judge(m, f, i.decodes).capture, f, i); }
    hide Judge, Rejected, MetadataReasons, PlaneReasons, TimestampReasons;
  }

  lemma OnlyMetadata(m: Capture, f: Frame, decodes: bool)
    ensures var j := Judge(m, f, decodes);
            j.Refuse? ==> (j.capture.stats.reasons == {ErrorFlag} <==>
                             MetadataReasons(m, f) + PlaneReasons(m, f) + TimestampReasons(m, f) == {ErrorFlag})
                          && j.capture.stats.requeueResult == NotAttempted
    ensures MetadataReasons(m, f) + PlaneReasons(m, f) + TimestampReasons(m, f) == {ErrorFlag} ==> Judge(m, f, decodes).Refuse?
  {
    assert ErrorFlag !in PlaneReasons(m, f) && ErrorFlag !in TimestampReasons(m, f);
    hide MetadataReasons, PlaneReasons, TimestampReasons, GapBefore, Delta;
    var plane, time := PlaneReasons(m, f), TimestampReasons(m, f);
    assert ErrorFlag in {ErrorFlag};
    if MetadataReasons(m, f) == {} { assert ErrorFlag !in MetadataReasons(m, f) + plane + time; }
    assert BadSequence in {BadSequence} + plane;
    assert BadDecode in {BadDecode};
  }

  lemma RejectedIs(c: Capture, f: Frame, i: Input)
    requires c.stats.requeueResult == NotAttempted
    ensures Rejected(c, f, i).result == Discarded <==>
              && c.policy && c.stats.reasons == {ErrorFlag} && CanRequeue(c, f) && i.requeues
              && c.stats.consecutive < 5 && (c.anchor == 0 || i.now < c.anchor || i.now - c.anchor < 2_000_000_000)
  {
    assert BadRequeue in c.stats.reasons + {BadRequeue};
  }

  /** A wait that brings nothing ends as a timeout, or as a failure once the limit of
      discards is reached. */
  lemma TimeoutExactly(m: Capture, i: Input)
    requires m.streaming && i.wait.Nothing?
    ensures Next(m, i).result ==
              if m.policy && (m.stats.consecutive >= 5 || (m.anchor != 0 && i.now >= m.anchor && i.now - m.anchor >= 2_000_000_000))
              then Failed else TimedOut
    ensures var s, n := m.stats, Next(m, i).capture.stats;
            n.discardLimit == s.discardLimit + One(Next(m, i).result == Failed)
  {}

  /** The error a rejected buffer is left with: that of the first check it failed, in
      their order, unless it could not be queued again or the limit of discards struck. */
  function Blamed(m: Capture, f: Frame, i: Input): ErrorKind {
    if CanRequeue(m, f) && !i.requeues then RequeueError
    else if !GoodFlags(m, f) then
      if m.policy && CanRequeue(m, f) && OnlyFlagged(m, f) && Spent(m, i.now) then DiscardLimitError else MetadataError
    else if !GoodTime(m, f) then TimestampError
    else if !GoodStep(m, f) then SequenceError
    else if !GoodPlane(m, f) then MetadataError
    else DecodeError
  }

  /** Nothing is wrong with a buffer but its error flag. */
  predicate OnlyFlagged(m: Capture, f: Frame) { f.error && GoodFlags(m, f.(error := false)) && GoodPlane(m, f) && GoodTime(m, f) }

  /** Five discards, or two seconds of them. */
  predicate Spent(m: Capture, now: nat) {
    m.stats.consecutive >= 5 || (m.anchor != 0 && now >= m.anchor && now - m.anchor >= 2_000_000_000)
  }

  /** What one call counts, and the error it reports, for every way it can end. */
  lemma CallCounts(m: Capture, i: Input)
    requires m.streaming
    ensures var r := Next(m, i); var s, n := m.stats, r.capture.stats;
            && n.frames == s.frames + One(r.result == Delivered)
            && n.discarded == s.discarded + One(r.result == Discarded)
            && n.consecutive == (if r.result == Delivered then 0 else s.consecutive + One(r.result == Discarded))
            && n.poll == s.poll + One(i.wait.PollFailed?) && n.dequeue == s.dequeue + One(i.wait.DequeueFailed?)
            && n.discardLimit == s.discardLimit + One(r.result == Failed && n.lastError == DiscardLimitError)
    ensures var r := Next(m, i); var n := r.capture.stats;
            match i.wait
            case Nothing => n.lastError == if m.policy && Spent(m, i.now) then DiscardLimitError else TimeoutError
            case PollFailed => n.lastError == PollError
            case DequeueFailed => n.lastError == DequeueError
            case Got(f) =>
              n.lastError == if r.result == Delivered then m.stats.lastError
                             else if Passes(m, f) && i.decodes then RequeueError else Blamed(m, f, i)
  {
    if i.wait.Got? { FrameCounts(m, i.wait.frame, i); }
    hide OnFrame;
  }

  lemma FrameCounts(m: Capture, f: Frame, i: Input)
    ensures var r := OnFrame(m, f, i); var s, n := m.stats, r.capture.stats;
            && n.frames == s.frames + One(r.result == Delivered)
            && n.discarded == s.discarded + One(r.result == Discarded)
            && n.consecutive == (if r.result == Delivered then 0 else s.consecutive + One(r.result == Discarded))
            && n.poll == s.poll && n.dequeue == s.dequeue && r.result != TimedOut
            && n.discardLimit == s.discardLimit + One(r.result == Failed && n.lastError == DiscardLimitError)
            && n.lastError == if r.result == Delivered then s.lastError
                              else if Passes(m, f) && i.decodes then RequeueError else Blamed(m, f, i)
  {
    var j := Judge(m, f, i.decodes);
    JudgeMeans(m, f, i.decodes);
    JudgeErrors(m, f, i.decodes);
    OnlyErrorFlag(m, f);
    OnlyMetadata(m, f, i.decodes);
    if j.Refuse? { RejectedCounts(j.capture, f, i); }
    hide Judge, Rejected, MetadataReasons, PlaneReasons, TimestampReasons;
  }

  lemma RejectedCounts(c: Capture, f: Frame, i: Input)
    requires c.stats.requeueResult == NotAttempted && c.stats.lastError != DiscardLimitError
    ensures var r := Rejected(c, f, i); var s, n := c.stats, r.capture.stats;
            && n.frames == s.frames && n.discarded == s.discarded + One(r.result == Discarded)
            && n.consecutive == s.consecutive + One(r.result == Discarded)
            && n.poll == s.poll && n.dequeue == s.dequeue && (r.result == Failed || r.result == Discarded)
            && n.discardLimit == s.discardLimit + One(r.result == Failed && n.lastError == DiscardLimitError)
            && n.lastError == (if CanRequeue(c, f) && !i.requeues then RequeueError
                               else if c.policy && s.reasons == {ErrorFlag} && CanRequeue(c, f) && Spent(c, i.now)
                               then DiscardLimitError else s.lastError)
  {
    assert BadRequeue in c.stats.reasons + {BadRequeue};
  }

  lemma JudgeErrors(m: Capture, f: Frame, decodes: bool)
    ensures var j := Judge(m, f, decodes); var s, n := m.stats, j.capture.stats;
            && j.capture == m.(stats := n)
            && n.frames == s.frames && n.discarded == s.discarded && n.consecutive == s.consecutive
            && n.poll == s.poll && n.dequeue == s.dequeue && n.discardLimit == s.discardLimit
            && (j.Accept? ==> n.lastError == s.lastError)
            && (j.Refuse? ==>
                  n.lastError == (if !GoodFlags(m, f) then MetadataError
                                  else if !GoodTime(m, f) then TimestampError
                                  else if !GoodStep(m, f) then SequenceError
                                  else if !GoodPlane(m, f) then MetadataError
                                  else DecodeError))
  {
    ReasonsMean(m, f);
    hide MetadataReasons, PlaneReasons, TimestampReasons, GapBefore, GoodTime, GoodPlane;
  }

  /** What the laws of runs say of one call: errors still add up, a delivered frame
      follows the one before, and frames and gaps grow by the advance of the sequence
      and what is counted for a rejected buffer. */
  ghost predicate Lawful(m: Capture, i: Input, r: Step) {
    && (!m.streaming ==> r == Step(m, Failed))
    && (m.streaming && i.wait.Got? ==>
          (r.result == Delivered <==> Passes(m, i.wait.frame) && i.decodes && i.requeues)
          && (r.result == Delivered ==> Head(r.capture) == Stamp(i.wait.frame.sequence, i.wait.frame.sec, i.wait.frame.usec)))
    && (ErrorsAdd(m) ==> ErrorsAdd(r.capture))
    && (r.result == Delivered && m.haveSequence ==> Follows(Head(m), Head(r.capture)))
    && r.capture.stats.frames + r.capture.stats.gaps + One(m.haveSequence)
       == m.stats.frames + m.stats.gaps + One(r.capture.haveSequence) + Advance(m, Ask(i)) + Overcount(m, Ask(i))
  }

  lemma NextLawful(m: Capture, i: Input)
    ensures Lawful(m, i, Next(m, i))
  {
    StepAccounts(m, Ask(i));
    if m.streaming && i.wait.Got? {
      var f := i.wait.frame;
      DeliveredExactly(m, i);
      if ErrorsAdd(m) { FrameErrorsAdd(m, f, i); }
      FrameMoves(m, f, i);
      if OnFrame(m, f, i).result == Delivered && m.haveSequence { FrameFollows(m, f, i); }
    }
    hide OnFrame, Follows, Advance, Overcount;
  }

  // ---------------------------------------------------------------- the object

  class Engine {
    const capacities: seq<nat>
    var streaming: bool
    var policy: bool
    var haveSequence: bool
    var lastSequence: nat
    var lastSec: int
    var lastUsec: int
    var anchor: nat
    var stats: Stats

    function View(): Capture
      reads this
    {
      Capture(capacities, streaming, policy, haveSequence, lastSequence, lastSec, lastUsec, anchor, stats)
    }

    constructor (capacities: seq<nat>, policy: bool)
      ensures View() == New(capacities, policy)
    {
      this.capacities, this.policy := capacities, policy;
      streaming, haveSequence, lastSequence, lastSec, lastUsec, anchor := false, false, 0, 0, 0, 0;
      stats := Stats(0, 0, 0, 0, 0, 0, 0, 0, 0, 0, 0, 0, 0, NoError, {}, NotAttempted);
    }

    /** ir_capture_start: `queued` says of every buffer whether its QBUF succeeds. */
    method StartStream(queued: seq<bool>, streamOn: bool) returns (ok: bool)
      requires |queued| == |capacities|
      modifies this
      ensures ok <==> streamOn && false !in queued
      ensures View() == Start(old(View()), ok) && streaming == (ok || old(streaming)) && anchor == 0 && stats.consecutive == 0
    {
      anchor := 0;
      stats := stats.(consecutive := 0);
      var index := 0;
      while index < |capacities|
        invariant index <= |capacities| && false !in queued[..index]
        invariant View() == Start(old(View()), false)
      {
        if !queued[index] { return false; }
        index := index + 1;
      }
      assert queued[..index] == queued;
      if !streamOn { return false; }
      streaming := true;
      ok := true;
    }

    /** ir_capture_stop. */
    method StopStream(streamOff: bool) returns (ok: bool)
      modifies this`streaming
      ensures View() == Stop(old(View()), streamOff)
      ensures ok <==> !streaming
    {
      if !streaming { return true; }
      if !streamOff { return false; }
      streaming := false;
      ok := true;
    }

    /** handle_capture_timeout. */
    method HandleTimeout(now: nat) returns (r: Result)
      modifies this`stats
      ensures Step(View(), r) == OnNothing(old(View()), now)
    {
      if LimitReached(View(), now) {
        stats := stats.(discardLimit := stats.discardLimit + 1);
        stats := stats.(lastError := DiscardLimitError);
        return Failed;
      }
      stats := stats.(lastError := TimeoutError);
      r := TimedOut;
    }

    /** The exit of ir_capture_next for a rejected buffer. */
    method RequeueFail(f: Frame, i: Input) returns (r: Result)
      modifies this`stats, this`anchor
      ensures Step(View(), r) == Rejected(old(View()), f, i)
    {
      stats := stats.(rejected := stats.rejected + 1);
      if CanRequeue(View(), f) {
        if !i.requeues {
          stats := stats.(reasons := stats.reasons + {BadRequeue});
          stats := stats.(requeueResult := Lost);
          stats := stats.(requeue := stats.requeue + 1, lastError := RequeueError);
        } else {
          stats := stats.(requeueResult := Succeeded);
        }
      }
      if policy && stats.reasons == {ErrorFlag} && stats.requeueResult == Succeeded {
        if anchor == 0 { anchor := i.now; }
        if LimitReached(View(), i.now) {
          stats := stats.(discardLimit := stats.discardLimit + 1);
          stats := stats.(lastError := DiscardLimitError);
        } else {
          stats := stats.(discarded := stats.discarded + 1);
          stats := stats.(consecutive := stats.consecutive + 1);
          return Discarded;
        }
      }
      r := Failed;
    }

    /** The checks of ir_capture_next on a dequeued buffer, in their order. */
    method Check(f: Frame, decodes: bool) returns (accepted: bool)
      modifies this`stats
      ensures (if accepted then Accept(View()) else Refuse(View())) == Judge(old(View()), f, decodes)
    {
      hide MetadataReasons, PlaneReasons, TimestampReasons, Delta, JudgeContents;
      var metadata := MetadataReasons(View(), f);
      var plane := PlaneReasons(View(), f);
      var time := TimestampReasons(View(), f);
      if metadata != {} {
        stats := Mark(stats, metadata + plane + time);
        stats := stats.(metadata := stats.metadata + 1, lastError := MetadataError);
        return false;
      }
      if time != {} {
        stats := Mark(stats, time + plane);
        stats := stats.(timestamp := stats.timestamp + 1, lastError := TimestampError);
        return false;
      }
      if haveSequence {
        var delta := Delta(lastSequence, f.sequence);
        if delta == 0 || delta > MAX_DELTA {
          stats := Mark(stats, {BadSequence} + plane);
          stats := stats.(sequence := stats.sequence + 1, lastError := SequenceError);
          return false;
        }
        if delta > 1 { stats := stats.(gaps := stats.gaps + delta - 1); }
      }
      accepted := CheckContents(plane, decodes);
    }

    /** Its checks after the sequence check. */
    method CheckContents(plane: set<Reason>, decodes: bool) returns (accepted: bool)
      modifies this`stats
      ensures (if accepted then Accept(View()) else Refuse(View())) == JudgeContents(old(View()), plane, decodes)
    {
      if plane != {} {
        stats := Mark(stats, plane);
        stats := stats.(metadata := stats.metadata + 1, lastError := MetadataError);
        return false;
      }
      if !decodes {
        stats := Mark(stats, {BadDecode});
        stats := stats.(decode := stats.decode + 1, lastError := DecodeError);
        return false;
      }
      accepted := true;
    }

    /** ir_capture_next. */
    method NextFrame(i: Input) returns (r: Result)
      modifies this`stats, this`anchor, this`lastSequence, this`lastSec, this`lastUsec, this`haveSequence
      ensures Step(View(), r) == Next(old(View()), i)
      ensures Lawful(old(View()), i, Step(View(), r))
    {
      hide Judge, Rejected, OnNothing, Lawful;
      NextLawful(View(), i);
      if !streaming { return Failed; }
      if i.wait.Nothing? {
        r := HandleTimeout(i.now);
        return;
      }
      if i.wait.PollFailed? {
        stats := stats.(poll := stats.poll + 1, lastError := PollError);
        return Failed;
      }
      if i.wait.DequeueFailed? {
        stats := stats.(dequeue := stats.dequeue + 1, lastError := DequeueError);
        return Failed;
      }
      var f := i.wait.frame;
      var accepted := Check(f, i.decodes);
      if !accepted {
        r := RequeueFail(f, i);
        return;
      }
      if !i.requeues {
        stats := stats.(requeue := stats.requeue + 1, lastError := RequeueError);
        return Failed;
      }
      lastSequence, lastSec, lastUsec := f.sequence, f.sec, f.usec;
      haveSequence := true;
      anchor := 0;
      stats := stats.(frames := stats.frames + 1);
      stats := stats.(consecutive := 0);
      r := Delivered;
    }
  }
}
