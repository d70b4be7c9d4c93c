/** The capture pipeline of ipu-isys-queue.c: buffer sets taken from every queue,
    handed to the firmware, flushed, parked and fed again, and the verified
    stream start with its rollback.  Progressive pipelines, no media requests.

    Between any two locked list operations `Gap` lets user space and the firmware
    act: it plays the next batch of an arbitrary finite script of events.  The
    answers of the firmware and the sensor come from an arbitrary `Reply`
    function, by call number.
 */
module CapturePipeline {
  import opened Common
  import opened CaptureLane
  import opened CaptureSets
  import opened CaptureFlush

  /** How a start of the firmware stream ends: before the buffer set was handed
      over, after it, or well. */
  datatype StartFate = RefusedEarly | RefusedLate | Running

  datatype Reply = Reply(message: bool, send: bool, sensor: bool, start: StartFate)

  datatype Code = Success | NoMemory | SendFailed | TimedOut | SensorFailed | StartFailed

  const MAX_BOUNCES := 30
  const TICKS := 12

  /** Whether a reply is the failure a code stands for. */
  predicate Blame(reply: Reply, code: Code) {
    match code
    case NoMemory => !reply.message
    case SendFailed => !reply.send
    case SensorFailed => !reply.sensor
    case StartFailed => reply.start != Running
    case _ => false
  }

  /** One of the calls from `from` up to `to` failed the way the code says. */
  ghost predicate Blames(world: nat -> Reply, from: nat, to: nat, code: Code) {
    exists c :: from <= c < to && Blame(world(c), code)
  }

  lemma BlamesWithin(world: nat -> Reply, from: nat, a: nat, b: nat, to: nat, code: Code)
    requires from <= a && b <= to
    ensures Blames(world, a, b, code) ==> Blames(world, from, to, code)
  {}

  /** When a bounce of the sensor began: after how many gaps, and clean frames. */
  datatype Bounced = Bounced(gaps: nat, frames: nat)

  /** Each bounce of a start comes after a wait of 12 gaps or more, since the start or
      the bounce before it, and after no clean frame. */
  ghost predicate Waited(b0: seq<Bounced>, b1: seq<Bounced>, gaps: nat, frames: nat) {
    b0 <= b1 && forall k: nat | |b0| <= k < |b1| :: WaitedAt(b1, k, |b0|, gaps, frames)
  }

  ghost predicate WaitedAt(b: seq<Bounced>, k: nat, n: nat, gaps: nat, frames: nat)
    requires n <= k < |b|
  {
    b[k].gaps >= (if k == n then gaps else b[k - 1].gaps) + 12 && b[k].frames == frames
  }

  lemma WaitedMore(b0: seq<Bounced>, b1: seq<Bounced>, gaps: nat, frames: nat, b: Bounced)
    requires Waited(b0, b1, gaps, frames) && b.frames == frames
    requires b.gaps >= (if |b1| == |b0| then gaps else b1[|b1| - 1].gaps) + 12
    ensures Waited(b0, b1 + [b], gaps, frames)
  {
    forall k: nat | |b0| <= k <= |b1| ensures WaitedAt(b1 + [b], k, |b0|, gaps, frames) {
      assert k < |b1| ==> WaitedAt(b1, k, |b0|, gaps, frames);
    }
  }

  lemma WaitedNone(b: seq<Bounced>, gaps: nat, frames: nat)
    ensures Waited(b, b, gaps, frames)
  {}

  lemma WaitedSince(b0: seq<Bounced>, b1: seq<Bounced>, gaps: nat, later: nat, frames: nat)
    requires Waited(b0, b1, later, frames) && gaps <= later
    ensures Waited(b0, b1, gaps, frames)
  {
    forall k: nat | |b0| <= k < |b1| ensures WaitedAt(b1, k, |b0|, gaps, frames) {
      assert WaitedAt(b1, k, |b0|, later, frames);
    }
  }

  class Pipeline {
    ghost const all: seq<set<Buffer>>
    const world: nat -> Reply
    const csi2External: bool
    var calls: nat
    var script: Script
    var lanes: seq<Lane>
    var framesDone: nat
    var verifyActive: bool
    var streaming: bool
    ghost var submissions: seq<seq<Buffer>>
    ghost var bounces: seq<Bounced>
    ghost var gaps: nat
    ghost var refusals: seq<Code>
    ghost var answers: seq<Given>

    ghost predicate Valid()
      reads this
    {
      && |lanes| > 0
      && AllBalanced(lanes, all)
      && forall q, b | 0 <= q < |all| && b in all[q] :: b.queue == q
    }

    /** Nothing is detached: no driver call is under way. */
    ghost predicate AtRest()
      reads this
    {
      Valid() && HeldIs(lanes, [])
    }

    /** Clean frames and gaps only add up. */
    twostate predicate Counted()
      reads this
    {
      old(framesDone) <= framesDone && old(gaps) <= gaps
    }

    /** At most 30 bounces, each after a full wait. */
    twostate predicate Patient(before: nat)
      reads this
    {
      Waited(old(bounces), bounces, old(gaps), before) && |bounces| <= |old(bounces)| + MAX_BOUNCES
    }

    /** Every queue empty, its buffers with user space. */
    constructor (buffers: seq<set<Buffer>>, world: nat -> Reply, csi2External: bool, script: Script)
      requires |buffers| > 0 && forall q, b | 0 <= q < |buffers| && b in buffers[q] :: b.queue == q
      ensures AtRest() && all == buffers && this.world == world && this.csi2External == csi2External
      ensures this.script == script && framesDone == 0 && !verifyActive && !streaming && submissions == [] && answers == []
      ensures |lanes| == |buffers| && forall q | 0 <= q < |buffers| :: lanes[q].user == multiset(buffers[q])
    {
      all, this.world, this.csi2External := buffers, world, csi2External;
      this.script, calls, framesDone, verifyActive, streaming := script, 0, 0, false, false;
      submissions, bounces, answers, gaps, refusals := [], [], [], 0, [];
      lanes := seq(|buffers|, q requires 0 <= q < |buffers| => Idle(buffers[q]));
      new;
      forall q | 0 <= q < |lanes| ensures Balanced(lanes[q], all[q]) { IdleBalanced(buffers[q]); }
    }

    /** The time between two locked operations. */
    method Gap()
      requires Valid()
      modifies this`script, this`lanes, this`framesDone, this`gaps
      ensures Valid() && Counted()
      ensures PlayedNext(old(lanes), old(script), lanes, script, framesDone - old(framesDone), verifyActive)
      ensures gaps == old(gaps) + 1
      ensures AllDrifted(old(lanes), lanes)
      ensures Passed(old(lanes), old(script), lanes, script, verifyActive, true)
    {
      hide AllDrifted, Passed, Playing, Balanced, React;
      AllDriftNone(lanes);
      NothingPassed(lanes, script, verifyActive, true);
      gaps := gaps + 1;
      if script == [] { return; }
      var batch := script[0];
      script := script[1..];
      NothingPlayed(lanes, batch, verifyActive);
      var i := 0;
      while i < |batch|
        invariant i <= |batch| && Valid() && script == old(script)[1..] && gaps == old(gaps) + 1
        invariant lanes == Reactions(old(lanes), batch, i, verifyActive)
        invariant framesDone == old(framesDone) + Frames(batch, i)
        invariant Playing(old(lanes), lanes, batch, i, verifyActive)
      {
        ghost var before := lanes;
        Deliver(batch[i]);
        EventPlayed(old(lanes), before, lanes, batch, i, verifyActive);
        assert lanes == Reacted(before, batch[i], verifyActive);
        i := i + 1;
      }
      BatchPlayed(old(lanes), old(script), lanes, verifyActive);
    }

    /** One call of the driver into the firmware, the message pool or the sensor. */
    method Ask(code: Code) returns (reply: Reply)
      modifies this`calls, this`refusals
      ensures reply == world(old(calls)) && calls == old(calls) + 1
      ensures refusals == old(refusals) + if Blame(world(old(calls)), code) then [code] else []
      ensures Blame(world(old(calls)), code) ==> Blames(world, old(calls), calls, code)
    {
      reply := world(calls);
      calls := calls + 1;
      if Blame(reply, code) { refusals := refusals + [code]; }
    }

    /** One firmware response (isys_isr_one, ipu_isys_queue_buf_ready) or one QBUF. */
    method Deliver(e: Event)
      requires Valid()
      modifies this`lanes, this`framesDone
      ensures Valid() && |lanes| == old(|lanes|)
      ensures forall q | 0 <= q < |lanes| :: lanes[q] == React(old(lanes[q]), q, e, verifyActive)
      ensures framesDone == old(framesDone) + One(e.PinReady? && e.error == Clean)
    {
      hide React;
      if e.PinReady? && e.error == Clean { framesDone := framesDone + 1; }
      forall q: nat, l: Lane | !Targets(e, q) ensures React(l, q, e, verifyActive) == l {
        ElsewhereReact(l, q, e, verifyActive);
      }
      var q := if e.PinReady? then e.pin else e.buffer.queue;
      if q < |lanes| {
        ReactBalanced(lanes[q], q, e, verifyActive, all[q]);
        lanes := lanes[q := React(lanes[q], q, e, verifyActive)];
      }
    }

    method PlaceOne(b: Buffer, to: Destination) returns (ghost mid: seq<Lane>)
      requires Valid() && b.queue < |lanes| && b in lanes[b.queue].held
      modifies this`script, this`lanes, this`framesDone, this`gaps, this`answers
      ensures Valid() && Counted()
      ensures AllDrifted(old(lanes), mid)
      ensures Passed(old(lanes), old(script), lanes, script, verifyActive, !to.Done?)
      ensures |mid| == |old(lanes)| && lanes == mid[b.queue := Place(mid[b.queue], b, to)]
      ensures answers == if to.Done? then old(answers) + [Given(b, to.state)] else old(answers)
    {
      hide PlayedNext, Drifted, Passed, Balanced, Stock, Spoilt, Arrived, Left, Place;
      Gap();
      mid := lanes;
      DriftKeepsHeld(old(lanes)[b.queue], mid[b.queue]);
      PassedLess(old(lanes), old(script), mid, script, verifyActive);
      PlaceBalanced(lanes[b.queue], b, to, all[b.queue]);
      PlaceFacts(lanes[b.queue], b, to);
      StepPassed(mid, script, b.queue, Place(lanes[b.queue], b, to), verifyActive, !to.Done?);
      lanes := lanes[b.queue := Place(lanes[b.queue], b, to)];
      PassedTrans(old(lanes), old(script), mid, script, lanes, script, verifyActive, !to.Done?);
      if to.Done? { answers := answers + [Given(b, to.state)]; }
    }

    /** ipu_isys_buffer_list_queue: empties a local list into incoming, into
        active, or to user space. */
    method BufferListQueue(bl: seq<Buffer>, to: Destination)
      requires Valid() && HeldIs(lanes, bl)
      modifies this`script, this`lanes, this`framesDone, this`gaps, this`answers
      ensures AtRest() && Counted() && |lanes| == |old(lanes)|
      ensures answers == if to.Done? then old(answers) + Gives(bl, to.state) else old(answers)
      ensures Emptied(old(lanes), lanes, bl, to)
      ensures Passed(old(lanes), old(script), lanes, script, verifyActive, !to.Done?)
    {
      hide Emptied, Passed, HeldIs, Balanced, Place, Gives, AllDrifted;
      var i := 0;
      GivesNone(to);
      assert bl[..0] == [] && bl[0..] == bl;
      NothingEmptied(lanes, to);
      NothingPassed(lanes, script, verifyActive, !to.Done?);
      while i < |bl|
        invariant i <= |bl|
        invariant Valid() && HeldIs(lanes, bl[i..])
        invariant Counted() && |lanes| == |old(lanes)|
        invariant answers == if to.Done? then old(answers) + Gives(bl[..i], to.state) else old(answers)
        invariant Emptied(old(lanes), lanes, bl[..i], to)
        invariant Passed(old(lanes), old(script), lanes, script, verifyActive, !to.Done?)
      {
        ghost var before, left := lanes, script;
        assert bl[i..] == [bl[i]] + bl[i + 1..];
        HeldFirst(before, bl[i], bl[i + 1..]);
        ghost var mid := PlaceOne(bl[i], to);
        PlaceHeld(before, mid, bl[i], bl[i + 1..], to);
        PassedSize(before, left, lanes, script, verifyActive, !to.Done?);
        PlaceStep(old(lanes), before, mid, bl, i, to);
        PassedTrans(old(lanes), old(script), before, left, lanes, script, verifyActive, !to.Done?);
        if to.Done? { GivesMore(bl, i, to.state); }
        i := i + 1;
      }
      assert bl[..i] == bl && bl[i..] == [];
    }

    /** buffer_list_get: one buffer of every queue, the oldest each, or nothing with
        every queue as it was.  It gets nothing only if some queue had nothing. */
    method BufferListGet() returns (ok: bool, bl: seq<Buffer>)
      requires AtRest()
      modifies this`script, this`lanes, this`framesDone, this`gaps, this`answers
      ensures Valid() && HeldIs(lanes, bl) && Counted() && answers == old(answers)
      ensures Took(old(lanes), lanes, bl)
      ensures Passed(old(lanes), old(script), lanes, script, verifyActive, true)
      ensures bl == [] <==> !ok
      ensures ok ==> |bl| == |lanes|
      ensures !ok ==> SomeEmpty(old(lanes))
    {
      hide PlayedNext, Took, Emptied, Passed, Balanced, TakeOldest, AllDrifted, HeldIs, OnePerQueue, Arrived, Left, Stock, Spoilt, SomeEmpty;
      bl := [];
      var q := 0;
      NothingTaken(lanes);
      NothingPassed(lanes, script, verifyActive, true);
      while q < |lanes|
        invariant q <= |lanes| == old(|lanes|) && |bl| == q && answers == old(answers)
        invariant Valid() && HeldIs(lanes, bl)
        invariant Counted()
        invariant Took(old(lanes), lanes, bl)
        invariant Passed(old(lanes), old(script), lanes, script, verifyActive, true)
      {
        ghost var before, left := lanes, script;
        Gap();
        DriftHeld(before, lanes, bl);
        TookLater(old(lanes), before, lanes, bl);
        PassedTrans(old(lanes), old(script), before, left, lanes, script, verifyActive, true);
        if lanes[q].incoming == [] {
          FoundEmpty(old(lanes), lanes, bl, q);
          GiveBack(bl, old(lanes), old(script));
          return false, [];
        }
        var b := Last(lanes[q].incoming);
        ghost var mid := lanes;
        TakeFacts(lanes[q], all[q]);
        TakeStep(old(lanes), lanes, bl);
        TakeCounts(lanes[q]);
        StepPassed(lanes, script, q, TakeOldest(lanes[q]), verifyActive, true);
        lanes := lanes[q := TakeOldest(lanes[q])];
        PassedTrans(old(lanes), old(script), mid, script, lanes, script, verifyActive, true);
        HeldMore(mid, lanes, b, bl);
        bl := [b] + bl;
        q := q + 1;
      }
      ok := true;
    }

    /** The error exit of buffer_list_get. */
    method GiveBack(bl: seq<Buffer>, ghost l0: seq<Lane>, ghost s0: Script)
      requires Valid() && HeldIs(lanes, bl)
      requires Took(l0, lanes, bl) && Passed(l0, s0, lanes, script, verifyActive, true)
      modifies this`script, this`lanes, this`framesDone, this`gaps, this`answers
      ensures AtRest() && Counted() && answers == old(answers) && |lanes| == |old(lanes)|
      ensures Took(l0, lanes, []) && Passed(l0, s0, lanes, script, verifyActive, true)
    {
      hide Took, Emptied, Passed, Balanced, HeldIs;
      BufferListQueue(bl, ToIncoming);
      PutBackStep(l0, old(lanes), lanes, bl);
      PassedTrans(l0, s0, old(lanes), old(script), lanes, script, verifyActive, true);
    }

    /** One turn of a submission loop: get a set, get a message, make the set
        active, send it.  Without a message the set stays detached. */
    method SubmitNext(ghost l0: seq<Lane>, ghost sets: seq<seq<Buffer>>) returns (r: Fed, bl: seq<Buffer>)
      requires AtRest() && Feeding(l0, lanes, sets)
      modifies this`script, this`lanes, this`framesDone, this`gaps, this`answers,
               this`calls, this`refusals, this`submissions
      ensures Valid() && HeldIs(lanes, if r == NoMessage then bl else []) && Counted() && answers == old(answers)
      ensures |lanes| == |old(lanes)|
      ensures r != Nothing ==>
                r == if !world(old(calls)).message then NoMessage else if world(old(calls) + 1).send then Accepted else Refused
      ensures calls == old(calls) + if r == Nothing then 0 else if r == NoMessage then 1 else 2
      ensures r == Nothing || r == Accepted ==> refusals == old(refusals)
      ensures r == NoMessage ==> |bl| == |lanes| && Took(old(lanes), lanes, bl)
      ensures r == Nothing ==> SomeEmpty(old(lanes)) && Took(old(lanes), lanes, [])
      ensures r == Refused || r == Accepted ==> Feeding(l0, lanes, sets + [bl])
      ensures submissions == old(submissions) + if r == Refused || r == Accepted then [bl] else []
      ensures Passed(old(lanes), old(script), lanes, script, verifyActive, true)
      ensures r == NoMessage ==> Blames(world, old(calls), calls, NoMemory)
      ensures r == Refused ==> Blames(world, old(calls), calls, SendFailed)
    {
      hide Took, Emptied, Passed, Balanced, HeldIs, Feeding, OnePerQueue, SomeEmpty, Blames;
      var ok;
      ok, bl := BufferListGet();
      ghost var mid, left := lanes, script;
      PassedSize(old(lanes), old(script), mid, left, verifyActive, true);
      if !ok { return Nothing, []; }
      var reply := Ask(NoMemory);
      if !reply.message { return NoMessage, bl; }
      BufferListQueue(bl, ToActive);
      FeedingMore(l0, old(lanes), mid, lanes, sets, bl);
      PassedTrans(old(lanes), old(script), mid, left, lanes, script, verifyActive, true);
      submissions := submissions + [bl];
      reply := Ask(SendFailed);
      BlamesWithin(world, old(calls), calls - 1, calls, calls, SendFailed);
      r := if reply.send then Accepted else Refused;
    }

    /** Hands every complete set of waiting buffers to the firmware, the oldest
        first, until a queue is empty or a step fails: the loop at the end of
        ipu_isys_stream_start and in stream_capture_refeed.  `look` is from before
        the last attempt to get a set; without a message that set is still
        detached. */
    method FeedAll() returns (code: Code, bl: seq<Buffer>, ghost look: seq<Lane>)
      requires AtRest()
      modifies this`script, this`lanes, this`framesDone, this`gaps, this`answers,
               this`calls, this`refusals, this`submissions
      ensures Valid() && HeldIs(lanes, bl) && Counted() && answers == old(answers) && calls >= old(calls)
      ensures code == Success || code == NoMemory || code == SendFailed
      ensures bl != [] <==> code == NoMemory
      ensures bl == [] || |bl| == |lanes|
      ensures old(submissions) <= submissions && |lanes| == |old(lanes)|
      ensures Feeding(old(lanes), look, submissions[|old(submissions)|..])
      ensures if code == SendFailed then look == lanes else Took(look, lanes, bl)
      ensures code == Success ==>
                && RanDry(look, lanes)
                && AllFed(old(lanes), look, lanes, |submissions| - |old(submissions)|)
                && (!verifyActive ==> NoneParked(look, lanes))
      ensures Passed(old(lanes), old(script), lanes, script, verifyActive, true)
      ensures if code == Success then refusals == old(refusals) else Blames(world, old(calls), calls, code)
    {
      hide Took, Balanced, HeldIs, Feeding, Passed, RanDry, AllFed, SomeEmpty, NoneParked, EventsLeft, Blames;
      NothingFed(lanes);
      NothingPassed(lanes, script, verifyActive, true);
      ghost var sets := [];
      while true
        invariant AtRest() && answers == old(answers) && calls >= old(calls) && Counted()
        invariant |lanes| == |old(lanes)| && refusals == old(refusals)
        invariant submissions == old(submissions) + sets
        invariant Feeding(old(lanes), lanes, sets)
        invariant Passed(old(lanes), old(script), lanes, script, verifyActive, true)
        decreases EventsLeft(old(script)) + old(|lanes[0].incoming|) - |sets|
      {
        ghost var left, asked := script, calls;
        look := lanes;
        assert submissions[|old(submissions)|..] == sets;
        var r;
        r, bl := SubmitNext(old(lanes), sets);
        PassedParked(look, left, lanes, script, verifyActive, true);
        PassedTrans(old(lanes), old(script), look, left, lanes, script, verifyActive, true);
        if r == Nothing {
          assert submissions[|old(submissions)|..] == sets;
          RanDryNow(look, lanes);
          AllFedCount(old(lanes), look, lanes, sets);
          return Success, [], look;
        }
        if r == NoMessage {
          BlamesWithin(world, old(calls), asked, calls, calls, NoMemory);
          assert submissions[|old(submissions)|..] == sets;
          return NoMemory, bl, look;
        }
        sets := sets + [bl];
        FeedingBound(old(lanes), old(script), lanes, script, sets, verifyActive);
        assert submissions[|old(submissions)|..] == sets;
        if r == Refused {
          BlamesWithin(world, old(calls), asked, calls, calls, SendFailed);
          return SendFailed, [], lanes;
        }
      }
    }

    /** stream_capture_refeed: feeds all there is; a set without a message goes
        back to its place.  On success `look` is the moment a queue was found empty:
        what waits on any queue then or later is no complete set, or came later. */
    method StreamCaptureRefeed() returns (code: Code, ghost look: seq<Lane>)
      requires AtRest()
      modifies this`script, this`lanes, this`framesDone, this`gaps, this`answers,
               this`calls, this`refusals, this`submissions
      ensures AtRest() && Counted() && answers == old(answers) && calls >= old(calls)
      ensures code == Success || code == NoMemory || code == SendFailed
      ensures old(submissions) <= submissions && |lanes| == |old(lanes)|
      ensures Feeding(old(lanes), lanes, submissions[|old(submissions)|..])
      ensures code == Success ==>
                && Feeding(old(lanes), look, submissions[|old(submissions)|..])
                && RanDry(look, lanes)
                && AllFed(old(lanes), look, lanes, |submissions| - |old(submissions)|)
                && (!verifyActive ==> NoneParked(look, lanes))
      ensures Passed(old(lanes), old(script), lanes, script, verifyActive, true)
      ensures if code == Success then refusals == old(refusals) else Blames(world, old(calls), calls, code)
    {
      hide Took, Balanced, HeldIs, Feeding, Passed, RanDry, AllFed, NoneParked, Emptied, Blames;
      var bl;
      code, bl, look := FeedAll();
      if code == NoMemory {
        ghost var taken, left := lanes, script;
        BufferListQueue(bl, ToIncoming);
        PutBackStep(look, taken, lanes, bl);
        FeedingRest(old(lanes), look, lanes, submissions[|old(submissions)|..]);
        PassedTrans(old(lanes), old(script), taken, left, lanes, script, verifyActive, true);
      }
      if code == Success { RanDryRest(old(lanes), look, lanes, submissions[|old(submissions)|..]); }
    }

    /** Takes the whole active list of a queue off it, under the queue's lock. */
    method DetachQueue(q: nat) returns (taken: seq<Buffer>)
      requires Valid() && q < |lanes|
      modifies this`lanes
      ensures Valid() && taken == old(lanes[q].active)
      ensures lanes == old(lanes)[q := DetachAll(old(lanes[q]))]
    {
      hide Balanced, DetachedSome, DetachActive;
      taken := [];
      ghost var l0 := lanes[q];
      DetachNone(l0);
      while lanes[q].active != []
        invariant |lanes| == old(|lanes|) && Valid()
        invariant DetachedSome(l0, lanes[q], taken)
        invariant lanes == old(lanes)[q := lanes[q]]
        decreases |lanes[q].active|
      {
        var l := lanes[q];
        NextBalanced(l, 0, Step.Recall(0), all[q]);
        DetachFirst(l0, l, taken);
        lanes := lanes[q := DetachActive(l, 0)];
        taken := taken + [l.active[0]];
      }
      DetachedRest(l0, lanes[q], taken);
    }

    /** flush_firmware_streamon_fail: completes every active buffer once, save those the
        firmware answers first. */
    method FlushFirmware(state: VbState) returns (ghost flushed: seq<Buffer>)
      requires AtRest()
      modifies this`script, this`lanes, this`framesDone, this`gaps, this`answers
      ensures AtRest() && Counted() && |lanes| == |old(lanes)|
      ensures Flushed(old(lanes), lanes, flushed)
      ensures answers == old(answers) + Gives(flushed, state)
    {
      hide PlayedNext, Emptied, Passed, Balanced, HeldIs, Detached, Flushed, DetachAll, AllDrifted;
      var bl := [];
      var q := 0;
      NothingDetached(lanes);
      while q < |lanes|
        invariant q <= |lanes| == |old(lanes)| && answers == old(answers)
        invariant Valid() && HeldIs(lanes, bl) && Counted()
        invariant Detached(old(lanes), lanes, q, bl)
      {
        ghost var before := lanes;
        Gap();
        DriftHeld(before, lanes, bl);
        ghost var mid := lanes;
        DetachStep(old(lanes), before, mid, q, bl);
        var taken := DetachQueue(q);
        DetachHeld(mid, q, bl, all);
        bl := bl + taken;
        q := q + 1;
      }
      ghost var mid := lanes;
      NothingEmptied(lanes, Done(state));
      if bl != [] { BufferListQueue(bl, Done(state)); } else { assert Gives(bl, state) == []; }
      flushed := bl;
      FlushDone(old(lanes), mid, lanes, bl, Done(state));
    }

    /** buffer_list_active_error: of a set whose submission failed, completes with
        an error the buffers that are still active, and no others. */
    method BufferListActiveError(queued: seq<Buffer>) returns (ghost failed: seq<Buffer>)
      requires AtRest() && OnePerQueue(queued) && |queued| == |lanes|
      modifies this`script, this`lanes, this`framesDone, this`gaps, this`answers
      ensures AtRest() && Counted() && |lanes| == |old(lanes)|
      ensures answers == old(answers) + Gives(failed, VbState.Error)
      ensures SetFailed(old(lanes), lanes, queued, failed)
    {
      hide PlayedNext, Emptied, Passed, Balanced, HeldIs, Recalled, SetFailed, AllDrifted, DetachActive, OnePerQueue, IndexOf, Gives;
      var bl := [];
      var i := 0;
      NothingRecalled(lanes, queued);
      while i < |queued|
        invariant i <= |queued| == |lanes| == |old(lanes)| && answers == old(answers)
        invariant Valid() && HeldIs(lanes, bl) && Counted()
        invariant Recalled(old(lanes), lanes, queued, i, bl)
      {
        ghost var before := lanes;
        Gap();
        DriftHeld(before, lanes, bl);
        ghost var mid := lanes;
        var b := queued[i];
        RecallTurn(old(lanes), before, mid, queued, i, bl, all);
        var at := IndexOf(lanes[b.queue].active, b);
        if at < |lanes[b.queue].active| {
          lanes := lanes[b.queue := DetachActive(lanes[b.queue], at)];
          bl := bl + [b];
        }
        i := i + 1;
      }
      ghost var mid := lanes;
      NothingEmptied(lanes, Done(VbState.Error));
      GivesNone(Done(VbState.Error));
      if bl != [] { BufferListQueue(bl, Done(VbState.Error)); }
      failed := bl;
      RecallDone(old(lanes), mid, lanes, queued, bl, Done(VbState.Error));
    }

    /** One wait for a frame: at most 12 ticks, cut short by a clean one. */
    method Observe(before: nat)
      requires AtRest() && framesDone == before
      modifies this`script, this`lanes, this`framesDone, this`gaps
      ensures AtRest() && Counted()
      ensures old(gaps) + 1 <= gaps <= old(gaps) + 12
      ensures framesDone == before ==> gaps == old(gaps) + 12
      ensures AllDrifted(old(lanes), lanes)
      ensures Passed(old(lanes), old(script), lanes, script, verifyActive, true)
    {
      hide PlayedNext, HeldIs, AllDrifted, Passed, Balanced;
      AllDriftNone(lanes);
      NothingPassed(lanes, script, verifyActive, true);
      var tick := 0;
      while tick < TICKS
        invariant AtRest() && framesDone == before && gaps == old(gaps) + tick && tick <= TICKS
        invariant AllDrifted(old(lanes), lanes)
        invariant Passed(old(lanes), old(script), lanes, script, verifyActive, true)
      {
        ghost var mid, left := lanes, script;
        Gap();
        DriftHeld(mid, lanes, []);
        AllDriftTrans(old(lanes), mid, lanes);
        PassedTrans(old(lanes), old(script), mid, left, lanes, script, verifyActive, true);
        if framesDone != before { break; }
        tick := tick + 1;
      }
    }

    /** The sensor off, a pause, and on again. */
    method Cycle() returns (ok: bool)
      requires AtRest()
      modifies this`script, this`lanes, this`framesDone, this`gaps, this`calls, this`refusals
      ensures AtRest() && Counted() && |lanes| == |old(lanes)| && calls > old(calls)
      ensures ok <==> world(old(calls)).sensor && world(old(calls) + 1).sensor
      ensures if ok then calls == old(calls) + 2 && refusals == old(refusals) else Blames(world, old(calls), calls, SensorFailed)
      ensures AllDrifted(old(lanes), lanes)
      ensures Passed(old(lanes), old(script), lanes, script, verifyActive, true)
    {
      hide PlayedNext, HeldIs, AllDrifted, Passed, Balanced, Blames;
      AllDriftNone(lanes);
      NothingPassed(lanes, script, verifyActive, true);
      var off := Ask(SensorFailed);
      if !off.sensor { return false; }
      Gap();
      DriftHeld(old(lanes), lanes, []);
      var on := Ask(SensorFailed);
      BlamesWithin(world, old(calls), calls - 1, calls, calls, SensorFailed);
      ok := on.sensor;
    }

    /** One bounce: the sensor off and on, and the parked buffers go back to the
        firmware: every complete set of them. */
    method Bounce() returns (code: Code, ghost look: seq<Lane>)
      requires AtRest()
      modifies this`script, this`lanes, this`framesDone, this`gaps, this`answers,
               this`calls, this`refusals, this`submissions, this`bounces
      ensures AtRest() && Counted() && |lanes| == |old(lanes)| && answers == old(answers) && calls >= old(calls)
      ensures old(submissions) <= submissions && bounces == old(bounces) + [Bounced(old(gaps), old(framesDone))]
      ensures Feeding(old(lanes), lanes, submissions[|old(submissions)|..])
      ensures Passed(old(lanes), old(script), lanes, script, verifyActive, true)
      ensures code != TimedOut && code != StartFailed
      ensures code == SensorFailed <==> !world(old(calls)).sensor || !world(old(calls) + 1).sensor
      ensures code == Success ==>
                && Feeding(old(lanes), look, submissions[|old(submissions)|..])
                && RanDry(look, lanes)
                && AllFed(old(lanes), look, lanes, |submissions| - |old(submissions)|)
      ensures if code == Success then refusals == old(refusals) else Blames(world, old(calls), calls, code)
    {
      hide HeldIs, AllDrifted, Passed, Balanced, Feeding, RanDry, AllFed, NoneParked, Blames;
      bounces := bounces + [Bounced(gaps, framesDone)];
      look := lanes;
      var ok := Cycle();
      DriftFed(old(lanes), lanes);
      assert submissions[|old(submissions)|..] == [];
      if !ok { return SensorFailed, look; }
      ghost var mid, left, asked := lanes, script, calls;
      code, look := StreamCaptureRefeed();
      BlamesWithin(world, old(calls), asked, calls, calls, code);
      ghost var sets := submissions[|old(submissions)|..];
      FeedingEarlier(old(lanes), mid, lanes, sets);
      PassedTrans(old(lanes), old(script), mid, left, lanes, script, verifyActive, true);
      if code == Success {
        FeedingEarlier(old(lanes), mid, look, sets);
        AllFedCount(old(lanes), look, lanes, sets);
      }
    }

    /** The bounce loop of verify_stream_start, while corrupt frames are parked. */
    method BounceLoop(before: nat) returns (code: Code)
      requires AtRest() && verifyActive && framesDone == before
      modifies this`script, this`lanes, this`framesDone, this`gaps, this`answers,
               this`calls, this`refusals, this`submissions, this`bounces
      ensures AtRest() && Counted() && answers == old(answers) && calls >= old(calls) && |lanes| == |old(lanes)|
      ensures old(submissions) <= submissions && code != StartFailed
      ensures Patient(before)
      ensures Feeding(old(lanes), lanes, submissions[|old(submissions)|..])
      ensures Passed(old(lanes), old(script), lanes, script, true, true)
      ensures code == Success ==> framesDone > before
      ensures code == TimedOut ==> framesDone == before && |bounces| == |old(bounces)| + MAX_BOUNCES
      ensures if code == Success || code == TimedOut then refusals == old(refusals) else Blames(world, old(calls), calls, code)
    {
      hide HeldIs, AllDrifted, Passed, Balanced, Feeding, RanDry, AllFed, Blames, Waited;
      WaitedNone(bounces, gaps, before);
      NothingFed(lanes);
      NothingPassed(lanes, script, true, true);
      assert submissions[|old(submissions)|..] == [];
      code := TimedOut;
      var retry := 0;
      while retry <= MAX_BOUNCES
        invariant retry <= MAX_BOUNCES && code == TimedOut && verifyActive
        invariant AtRest() && Counted() && answers == old(answers) && |lanes| == |old(lanes)|
        invariant calls >= old(calls) && old(submissions) <= submissions
        invariant |bounces| == |old(bounces)| + retry && Waited(old(bounces), bounces, old(gaps), before)
        invariant refusals == old(refusals) && (retry > 0 ==> bounces[|bounces| - 1].gaps <= gaps)
        invariant Feeding(old(lanes), lanes, submissions[|old(submissions)|..])
        invariant Passed(old(lanes), old(script), lanes, script, true, true)
      {
        if framesDone != before { return Success; }
        ghost var l1, s1, sets := lanes, script, submissions[|old(submissions)|..];
        Observe(before);
        FeedingDrift(old(lanes), l1, lanes, sets);
        PassedTrans(old(lanes), old(script), l1, s1, lanes, script, true, true);
        if framesDone != before { return Success; }
        if retry == MAX_BOUNCES { return TimedOut; }
        ghost var l2, s2, given := lanes, script, submissions;
        ghost var look, asked := [], calls;
        WaitedMore(old(bounces), bounces, old(gaps), before, Bounced(gaps, framesDone));
        code, look := Bounce();
        FeedingJoin(old(lanes), l2, lanes, sets, submissions[|given|..]);
        assert sets + submissions[|given|..] == submissions[|old(submissions)|..];
        PassedTrans(old(lanes), old(script), l2, s2, lanes, script, true, true);
        if code != Success {
          BlamesWithin(world, old(calls), asked, calls, calls, code);
          return;
        }
        code := TimedOut;
        retry := retry + 1;
      }
    }

    /** verify_stream_start: waits for an error-free frame, bouncing the sensor and
        feeding the parked buffers again, at most 30 times.  `window` and `left`
        are the queues and the script when parking stops, `seen` the frame counter
        then; `look` is the last time a queue was found empty, on success. */
    method VerifyStreamStart(before: nat)
        returns (code: Code, ghost window: seq<Lane>, ghost left: Script, ghost seen: nat, ghost look: seq<Lane>)
      requires AtRest() && !verifyActive && before <= framesDone
      modifies this`script, this`lanes, this`framesDone, this`gaps, this`answers,
               this`calls, this`refusals, this`submissions, this`verifyActive, this`bounces
      ensures AtRest() && Counted() && answers == old(answers) && !verifyActive && calls >= old(calls)
      ensures old(submissions) <= submissions && code != StartFailed
      ensures Patient(before)
      ensures |window| == |lanes| == |old(lanes)| && HeldIs(window, []) && seen <= framesDone
      ensures Passed(old(lanes), old(script), window, left, true, true)
      ensures Feeding(old(lanes), lanes, submissions[|old(submissions)|..])
      ensures code == Success && csi2External ==> seen > before
      ensures code == TimedOut ==> csi2External && seen == before && |bounces| == |old(bounces)| + MAX_BOUNCES
      ensures code == Success ==> refusals == old(refusals)
      ensures code == Success || code == TimedOut || Blames(world, old(calls), calls, code)
      ensures if csi2External && old(framesDone) == before
              then code == Success ==> RanDry(look, lanes) && NoneParked(look, lanes)
              else code == Success && lanes == old(lanes) && submissions == old(submissions)
    {
      hide HeldIs, Passed, Balanced, Feeding, RanDry, AllFed, NoneParked, Blames, Waited;
      NothingFed(lanes);
      NothingPassed(lanes, script, true, true);
      WaitedNone(bounces, gaps, before);
      assert submissions[|submissions|..] == [];
      window, left, seen, look := lanes, script, framesDone, lanes;
      if !csi2External { return Success, window, left, seen, look; }
      if framesDone != before { return Success, window, left, seen, look; }
      verifyActive := true;
      code := BounceLoop(before);
      verifyActive := false;
      window, left, seen := lanes, script, framesDone;
      ghost var fed, asked := submissions, calls;
      var again;
      again, look := StreamCaptureRefeed();
      FeedingJoin(old(lanes), window, lanes, fed[|old(submissions)|..], submissions[|fed|..]);
      assert fed[|old(submissions)|..] + submissions[|fed|..] == submissions[|old(submissions)|..];
      BlamesWithin(world, old(calls), asked, calls, calls, again);
      BlamesWithin(world, old(calls), old(calls), asked, calls, code);
      if code == Success { code := again; }
    }

    /** The failure exit of ipu_isys_stream_start: a set not yet handed over goes
        back or is completed, and everything the firmware had is completed. */
    method RollBack(bl: seq<Buffer>, error: bool) returns (ghost flushed: seq<Buffer>)
      requires Valid() && HeldIs(lanes, bl)
      modifies this`script, this`lanes, this`framesDone, this`gaps, this`answers
      ensures AtRest() && Counted() && |lanes| == |old(lanes)|
      ensures forall q | 0 <= q < |lanes| ::
                && lanes[q].active == []
                && Inflow(Restored(old(lanes[q]).incoming, bl, q, error), old(lanes[q]), lanes[q], [])
      ensures answers == if error then old(answers) + Gives(bl, VbState.Error) + Gives(flushed, VbState.Error)
                         else old(answers) + Gives(flushed, Queued)
    {
      hide Emptied, Balanced, Passed, HeldIs, Flushed, Inflow, Settled, OfQueue;
      var state := if error then VbState.Error else Queued;
      var to := if error then Done(state) else ToIncoming;
      NothingEmptied(lanes, to);
      if bl != [] { BufferListQueue(bl, to); } else { assert Gives(bl, state) == []; }
      ghost var mid := lanes;
      flushed := FlushFirmware(state);
      RolledBack(old(lanes), mid, lanes, bl, to, flushed);
    }

    /** ipu_isys_video_set_streaming(1) as the queues see it: the firmware stream is
        started with the set, or refused before or after the set was made active. */
    method HandOver(bl: seq<Buffer>) returns (fate: StartFate, list: seq<Buffer>)
      requires Valid() && HeldIs(lanes, bl) && OnePerQueue(bl)
      modifies this`script, this`lanes, this`framesDone, this`gaps, this`answers,
               this`calls, this`refusals, this`submissions
      ensures Valid() && HeldIs(lanes, list) && Counted() && |lanes| == |old(lanes)|
      ensures answers == old(answers) && calls == old(calls) + 1 && fate == world(old(calls)).start
      ensures fate == Running ==> refusals == old(refusals)
      ensures fate != Running ==> Blames(world, old(calls), calls, StartFailed)
      ensures list == if fate == RefusedEarly then bl else []
      ensures submissions == old(submissions) + if fate == RefusedEarly || bl == [] then [] else [bl]
      ensures if fate == RefusedEarly then AllDrifted(old(lanes), lanes) else Streamed(old(lanes), lanes, bl, [])
    {
      hide PlayedNext, HeldIs, Emptied, Passed, Balanced, AllDrifted, OnePerQueue, Streamed, Blames;
      Gap();
      DriftHeld(old(lanes), lanes, bl);
      var reply := Ask(StartFailed);
      fate := reply.start;
      list := bl;
      if fate == RefusedEarly { return; }
      ghost var mid := lanes;
      NothingEmptied(lanes, ToActive);
      if bl != [] {
        BufferListQueue(bl, ToActive);
        submissions := submissions + [bl];
        list := [];
      }
      StreamedFirst(old(lanes), mid, lanes, bl);
    }

    /** The stream is on: feeds all there is and waits for a clean frame. */
    method FeedAndVerify(before: nat) returns (code: Code, list: seq<Buffer>, ghost look: seq<Lane>)
      requires AtRest() && !verifyActive && before <= framesDone
      modifies this`script, this`lanes, this`framesDone, this`gaps, this`answers,
               this`calls, this`refusals, this`submissions, this`verifyActive, this`bounces
      ensures Valid() && HeldIs(lanes, list) && Counted() && answers == old(answers) && !verifyActive
      ensures old(submissions) <= submissions && |lanes| == |old(lanes)|
      ensures Patient(before) && (list == [] || |list| == |lanes|)
      ensures code == Success ==>
                && list == [] && refusals == old(refusals) && (csi2External ==> framesDone > before)
                && Feeding(old(lanes), lanes, submissions[|old(submissions)|..])
                && Least(Lengths(old(lanes))) <= |submissions| - |old(submissions)|
                && RanDry(look, lanes) && NoneParked(look, lanes)
      ensures code != Success ==>
                Feeding(old(lanes), look, submissions[|old(submissions)|..]) && Took(look, lanes, list)
      ensures calls >= old(calls) && (code == Success || Blames(world, old(calls), calls, code)
              || (code == TimedOut && csi2External && |bounces| == |old(bounces)| + MAX_BOUNCES))
    {
      hide HeldIs, Feeding, Passed, Balanced, RanDry, NoneParked, Took, Least, Lengths, Offers, NothingArrived, Blames, Waited;
      WaitedNone(bounces, gaps, before);
      code, list, look := FeedAll();
      if code != Success {
        NothingTaken(lanes);
        return;
      }
      RanDryRest(old(lanes), look, lanes, submissions[|old(submissions)|..]);
      ghost var window, left, seen, look', l1, fed, asked, since := [], [], 0, look, lanes, submissions, calls, gaps;
      code, window, left, seen, look' := VerifyStreamStart(before);
      FeedingJoin(old(lanes), l1, lanes, fed[|old(submissions)|..], submissions[|fed|..]);
      assert fed[|old(submissions)|..] + submissions[|fed|..] == submissions[|old(submissions)|..];
      WaitedSince(old(bounces), bounces, old(gaps), since, before);
      if lanes != l1 { look := look'; }
      BlamesWithin(world, old(calls), asked, calls, calls, code);
      if code != Success {
        look := lanes;
        NothingTaken(lanes);
      }
    }

    /** The failure exit of ipu_isys_stream_start once the stream was on: `started` are
        the queues when it came on, and `sets` what they were fed since. */
    method Undo(list: seq<Buffer>, error: bool, ghost l0: seq<Lane>, ghost started: seq<Lane>, ghost look: seq<Lane>,
                ghost bl: seq<Buffer>, ghost sets: seq<seq<Buffer>>)
      requires Valid() && HeldIs(lanes, list) && (list == [] || |list| == |l0|)
      requires Streamed(l0, started, bl, []) && Feeding(started, look, sets) && Took(look, lanes, list)
      modifies this`script, this`lanes, this`framesDone, this`gaps, this`answers, this`streaming
      ensures AtRest() && Counted() && |lanes| == |old(lanes)| && !streaming
      ensures Undone(l0, lanes, [], LostSets(sets, list, error), error)
      ensures AnsweredWith(old(answers), answers, if error then VbState.Error else Queued)
    {
      hide PlayedNext, HeldIs, Balanced, Gives, AnsweredWith, Inflow, Restored, AllDrifted, Streamed, Feeding, Took, Undone, LostSets;
      Gap();
      DriftHeld(old(lanes), lanes, list);
      streaming := false;
      ghost var mid := lanes;
      ghost var flushed := RollBack(list, error);
      RolledAnswer(old(answers), answers, list, flushed, error);
      UndoneFed(l0, started, look, old(lanes), mid, lanes, bl, sets, list, error);
    }

    /** ipu_isys_stream_start: all or nothing.  `bl` is the set to start with, if any;
        it is only called while the pipeline is not streaming.  On success `look` is
        the last time a queue was found empty; else `lost` are the sets the start has
        taken since, those handed over and, if it is not put back, one that was not. */
    method StreamStart(bl: seq<Buffer>, error: bool) returns (code: Code, ghost look: seq<Lane>, ghost lost: seq<seq<Buffer>>)
      requires Valid() && HeldIs(lanes, bl) && !verifyActive && !streaming
      requires OnePerQueue(bl) && (bl == [] || |bl| == |lanes|)
      modifies this`script, this`lanes, this`framesDone, this`gaps, this`answers,
               this`calls, this`refusals, this`submissions, this`verifyActive, this`bounces, this`streaming
      ensures AtRest() && Counted() && !verifyActive && |lanes| == |old(lanes)|
      ensures old(submissions) <= submissions && Patient(old(framesDone))
      ensures streaming <==> code == Success
      ensures code == Success ==>
                && answers == old(answers) && (csi2External ==> framesDone > old(framesDone))
                && refusals == old(refusals)
                && StartedWith(old(submissions), submissions, old(lanes), lanes, bl)
                && RanDry(look, lanes) && NoneParked(look, lanes)
      ensures code != Success ==> AnsweredWith(old(answers), answers, if error then VbState.Error else Queued)
      ensures code != Success ==>
                var early := world(old(calls)).start == RefusedEarly;
                var first := old(submissions) + (if early || bl == [] then [] else [bl]);
                && first <= submissions && submissions[|first|..] <= lost
                && |lost| <= |submissions[|first|..]| + One(error)
                && Undone(old(lanes), lanes, if early then bl else [], lost, error)
      ensures world(old(calls)).start != Running ==> code == StartFailed && lost == []
      ensures calls > old(calls)
      ensures code == Success || Blames(world, old(calls), calls, code)
              || (code == TimedOut && csi2External && |bounces| == |old(bounces)| + MAX_BOUNCES)
    {
      hide HeldIs, Feeding, Blames, Balanced, AnsweredWith, Streamed, RanDry, NoneParked, Gives, Least, Lengths;
      hide Inflow, OnePerQueue, Restored, AllDrifted, Took, StartedWith, Waited, Undone;
      var before := framesDone;
      look, lost := lanes, [];
      WaitedNone(bounces, gaps, before);
      var fate, list := HandOver(bl);
      ghost var started, first, flushed := lanes, submissions, [];
      if fate != Running {
        flushed := RollBack(list, error);
        RolledAnswer(old(answers), answers, list, flushed, error);
        if fate == RefusedEarly {
          RestoredEarlier(old(lanes), started, lanes, bl, error);
          UndoneEarly(old(lanes), lanes, bl, error);
        } else {
          UndoneLate(old(lanes), started, lanes, bl, error);
        }
        return StartFailed, look, lost;
      }
      streaming := true;
      ghost var asked, since := calls, gaps;
      code, list, look := FeedAndVerify(before);
      BlamesWithin(world, old(calls), asked, calls, calls, code);
      WaitedSince(old(bounces), bounces, old(gaps), since, before);
      if code == Success {
        StartedNow(old(submissions), first, submissions, old(lanes), started, lanes, bl);
      } else {
        lost := LostSets(submissions[|first|..], list, error);
        Undo(list, error, old(lanes), started, look, bl, submissions[|first|..]);
      }
    }

    /** The end of __buf_queue on a running pipeline: the set goes to the firmware,
        or back when there is no message; a refused set, and only it, fails. */
    method CaptureSet(bl: seq<Buffer>, ghost l0: seq<Lane>) returns (r: Fed, ghost failed: seq<Buffer>)
      requires Valid() && HeldIs(lanes, bl) && bl != [] && |bl| == |lanes|
      requires Took(l0, lanes, bl)
      modifies this`script, this`lanes, this`framesDone, this`gaps, this`answers,
               this`calls, this`refusals, this`submissions
      ensures AtRest() && Counted() && |lanes| == |l0|
      ensures r == if !world(old(calls)).message then NoMessage else if world(old(calls) + 1).send then Accepted else Refused
      ensures submissions == old(submissions) + if r == NoMessage then [] else [bl]
      ensures answers == if r == Refused then old(answers) + Gives(failed, VbState.Error) else old(answers)
      ensures match r
              case NoMessage => Took(l0, lanes, [])
              case Accepted => SetSent(l0, lanes, bl)
              case _ => SetGone(l0, lanes, bl, failed)
    {
      hide HeldIs, Emptied, Balanced, Took, SetSent, SetGone, SetFailed, OnePerQueue, Passed, Gives, Blames;
      TookSize(l0, lanes, bl);
      failed := [];
      var reply := Ask(NoMemory);
      if !reply.message {
        BufferListQueue(bl, ToIncoming);
        PutBackStep(l0, old(lanes), lanes, bl);
        return NoMessage, [];
      }
      BufferListQueue(bl, ToActive);
      ghost var mid := lanes;
      SetTaken(l0, old(lanes), lanes, bl);
      submissions := submissions + [bl];
      reply := Ask(SendFailed);
      if reply.send { return Accepted, []; }
      failed := BufferListActiveError(bl);
      RefusedSet(l0, mid, lanes, bl, failed);
      r := Refused;
    }

    /** The end of __buf_queue on a stopped pipeline: the stream is started with the set. */
    method StartWith(bl: seq<Buffer>, ghost l0: seq<Lane>) returns (code: Code, ghost look: seq<Lane>, ghost lost: seq<seq<Buffer>>)
      requires Valid() && HeldIs(lanes, bl) && !verifyActive && !streaming
      requires bl != [] && |bl| == |lanes| && Took(l0, lanes, bl)
      modifies this`script, this`lanes, this`framesDone, this`gaps, this`answers,
               this`calls, this`refusals, this`submissions, this`verifyActive, this`bounces, this`streaming
      ensures AtRest() && Counted() && !verifyActive && |lanes| == |old(lanes)|
      ensures old(submissions) <= submissions && Patient(old(framesDone))
      ensures streaming <==> code == Success
      ensures OneStarted(l0, look, lanes, old(submissions), submissions, lost, streaming)
      ensures code == Success ==>
                answers == old(answers) && refusals == old(refusals) && (csi2External ==> framesDone > old(framesDone))
      ensures code != Success ==> AnsweredWith(old(answers), answers, VbState.Error)
      ensures code == Success || Blames(world, old(calls), calls, code)
              || (code == TimedOut && csi2External && |bounces| == |old(bounces)| + MAX_BOUNCES)
    {
      hide HeldIs, Balanced, Took, AnsweredWith, Blames, RanDry, NoneParked, StartedWith, Undone, OneStarted, Waited;
      TookSize(l0, lanes, bl);
      hide OnePerQueue, Flow;
      code, look, lost := StreamStart(bl, true);
      BufStarted(l0, old(lanes), look, lanes, old(submissions), submissions, bl, lost,
                 if world(old(calls)).start == RefusedEarly then bl else [], code == Success);
      lost := [bl] + lost;
    }

    /** __buf_queue: user space queues a buffer.  `pipeline` and `ready` are whether
        the queue streams in a pipeline and whether all its queues do.  On a running
        pipeline `r` is what became of it: no complete set, or what became of the set.
        On a stopped one the stream is begun exactly when a complete set was found, and
        `code` is what came of it. */
    method BufQueue(b: Buffer, pipeline: bool, ready: bool, force: bool)
        returns (ghost r: Fed, ghost failed: seq<Buffer>, ghost begun: bool, ghost code: Code,
                 ghost look: seq<Lane>, ghost lost: seq<seq<Buffer>>)
      requires AtRest() && !verifyActive && b.queue < |lanes| && b in lanes[b.queue].user
      modifies this`script, this`lanes, this`framesDone, this`gaps, this`answers,
               this`calls, this`refusals, this`submissions, this`verifyActive, this`bounces, this`streaming
      ensures AtRest() && Counted() && !verifyActive && |lanes| == |old(lanes)|
      ensures AnsweredWith(old(answers), answers, VbState.Error)
      ensures old(submissions) <= submissions
      ensures Queueing(old(lanes), b)[b.queue].incoming == [b] + old(lanes[b.queue]).incoming
      ensures !pipeline || (!force && !ready) ==>
                && lanes == Queueing(old(lanes), b) && streaming == old(streaming)
                && submissions == old(submissions) && answers == old(answers)
      ensures old(streaming) ==> streaming && bounces == old(bounces)
      ensures old(bounces) <= bounces && |bounces| <= |old(bounces)| + MAX_BOUNCES
      ensures !old(streaming) && streaming && csi2External ==> framesDone > old(framesDone)
      ensures !old(streaming) && pipeline && (force || ready) && !begun ==>
                && !streaming && calls == old(calls) && submissions == old(submissions) && answers == old(answers)
                && SomeEmpty(Queueing(old(lanes), b)) && Took(Queueing(old(lanes), b), lanes, [])
      ensures !old(streaming) && pipeline && (force || ready) && begun ==>
                && (streaming <==> code == Success)
                && OneStarted(Queueing(old(lanes), b), look, lanes, old(submissions), submissions, lost, streaming)
                && (code == Success || Blames(world, old(calls), calls, code)
                    || (code == TimedOut && csi2External && |bounces| == |old(bounces)| + MAX_BOUNCES))
                && (code == Success ==> answers == old(answers) && refusals == old(refusals))
      ensures old(streaming) && pipeline && (force || ready) ==>
                OneCaptured(Queueing(old(lanes), b), lanes, old(submissions), submissions, old(answers), answers, r, failed)
                && (r != Nothing ==>
                      r == if !world(old(calls)).message then NoMessage else if world(old(calls) + 1).send then Accepted else Refused)
    {
      hide HeldIs, Balanced, Took, AnsweredWith, SetSent, SetGone, Enqueue, Blames, OnePerQueue, SomeEmpty, Passed, Gives;
      hide OneStarted, Flow;
      EnqueueFacts(lanes, b, all);
      lanes := lanes[b.queue := Enqueue(lanes[b.queue], b)];
      ghost var l0 := lanes;
      AnsweredSelf(answers, VbState.Error);
      r, failed, begun, code, look, lost := Nothing, [], false, Success, lanes, [];
      if !pipeline { return; }
      if !force && !ready { return; }
      var ok, bl := BufferListGet();
      TookSize(l0, lanes, bl);
      if !ok { return; }
      if !streaming {
        begun := true;
        code, look, lost := StartWith(bl, l0);
        return;
      }
      r, failed := CaptureSet(bl, l0);
      GivesAnswer(old(answers), failed, VbState.Error);
    }

    /** Unlinks the first buffer of a queue's waiting or active list and, outside
        the lock, completes it. */
    method ReturnFirst(q: nat, fromActive: bool, state: VbState)
      requires Valid() && q < |lanes|
      requires if fromActive then lanes[q].active != [] else lanes[q].incoming != []
      modifies this`script, this`lanes, this`framesDone, this`gaps, this`answers
      ensures Valid() && Counted() && |lanes| == |old(lanes)|
      ensures answers == old(answers) + [Given(if fromActive then old(lanes[q].active[0]) else old(lanes[q].incoming[0]), state)]
      ensures OneReturned(old(lanes), lanes, q, fromActive)
      ensures if fromActive then |lanes[q].active| < |old(lanes)[q].active|
              else EventsLeft(script) + |lanes[q].incoming| < EventsLeft(old(script)) + |old(lanes)[q].incoming|
    {
      hide EventsLeft, Balanced, AllDrifted, OneReturned, Unlink, Complete, Arrived, Left, Stock, Spoilt, CorruptOnly;
      ghost var l0 := lanes;
      UnlinkFacts(lanes, q, fromActive, all);
      UnlinkLists(lanes[q], fromActive);
      var b := if fromActive then lanes[q].active[0] else lanes[q].incoming[0];
      lanes := lanes[q := Unlink(lanes[q], fromActive)];
      ghost var mid := PlaceOne(b, Done(state));
      UnlinkDone(l0, mid, q, fromActive);
      OneReturnedSize(l0, lanes, q, fromActive);
    }

    /** return_buffers: gives a queue's buffers back to user space, the waiting ones
        first, and reports whether the firmware still had some.  Waiting buffers that
        arrive during the first loop are given back too.  Other calls may have buffers
        detached from this or any other queue. */
    method ReturnBuffers(q: nat, state: VbState)
        returns (resetNeeded: bool, ghost waiting: seq<Buffer>, ghost working: seq<Buffer>)
      requires Valid() && q < |lanes|
      modifies this`script, this`lanes, this`framesDone, this`gaps, this`answers
      ensures Valid() && Counted() && |lanes| == |old(lanes)|
      ensures lanes[q].active == [] && lanes[q].held == old(lanes)[q].held
      ensures Returned(old(lanes)[q], lanes[q], waiting, working) && OthersDrift(old(lanes), lanes, q)
      ensures answers == old(answers) + Gives(waiting, state) + Gives(working, state)
      ensures resetNeeded <==> working != []
    {
      hide EventsLeft, Balanced, OneReturned, OthersDrift, Returned, Gives;
      waiting, working, resetNeeded := [], [], false;
      GivesNone(Done(state));
      NothingReturnedYet(lanes, q);
      while lanes[q].incoming != []
        invariant Valid() && Counted() && |lanes| == |old(lanes)| && lanes[q].held == old(lanes)[q].held
        invariant OthersDrift(old(lanes), lanes, q) && Returned(old(lanes)[q], lanes[q], waiting, [])
        invariant answers == old(answers) + Gives(waiting, state)
        decreases EventsLeft(script) + |lanes[q].incoming|
      {
        ghost var before := lanes;
        ReturnFirst(q, false, state);
        ReturnedMore(old(lanes), before, lanes, q, waiting, [], false);
        GivesSnoc(waiting, before[q].incoming[0], state);
        waiting := waiting + [before[q].incoming[0]];
      }
      while lanes[q].active != []
        invariant Valid() && Counted() && |lanes| == |old(lanes)| && lanes[q].held == old(lanes)[q].held
        invariant OthersDrift(old(lanes), lanes, q) && Returned(old(lanes)[q], lanes[q], waiting, working)
        invariant answers == old(answers) + Gives(waiting, state) + Gives(working, state)
        invariant resetNeeded <==> working != []
        decreases |lanes[q].active|
      {
        ghost var before := lanes;
        ReturnFirst(q, true, state);
        ReturnedMore(old(lanes), before, lanes, q, waiting, working, true);
        GivesSnoc(working, before[q].active[0], state);
        working := working + [before[q].active[0]];
        resetNeeded := true;
      }
    }
  }
}
