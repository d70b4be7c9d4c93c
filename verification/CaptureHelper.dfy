/** The capture helper of cbridge/auth-capture-helper.c from end to end: the worker
    writes the frames of the capture engine down a pipe, the supervisor forwards its
    bytes, and the reader of scripts/ir/sp7_ir_protocol.py takes them in.  Pictures,
    clocks and what each read and write comes to are arbitrary. */
module CaptureHelper {
  import opened Common
  import opened IrCapture
  import opened FrameProtocol

  /** One turn of the worker's loop: what the capture meets, the picture a frame
      decodes to, and the clock when its age is judged. */
  datatype Turn = Turn(input: Input, picture: seq<byte>, now: nat)

  /** Sequence numbers have 32 bits, time stamps are 64-bit and not negative. */
  predicate Possible(t: Turn) {
    && |t.picture| == 2 * PAYLOAD
    && (t.input.wait.Got? ==>
          var f := t.input.wait.frame; f.sequence < U32 && 0 <= f.sec < U64 && 0 <= f.usec < U64)
  }

  predicate AllPossible(turns: seq<Turn>) { forall k | 0 <= k < |turns| :: Possible(turns[k]) }

  /** frame_timestamp_is_fresh, in 64-bit arithmetic. */
  predicate HelperFresh(s: Stamp, now: nat)
    requires 0 <= s.sec && 0 <= s.usec
  {
    var timestamp := (s.sec * 1_000_000_000 + s.usec * 1_000) % U64;
    now != 0 && timestamp <= now && now - timestamp <= MAX_FRAME_AGE
  }

  /** A frame goes out at most two seconds after its time stamp, on a running clock. */
  lemma HelperFreshMeans(s: Stamp, now: nat)
    requires 0 <= s.sec && 0 <= s.usec
    ensures HelperFresh(s, now) <==> now != 0 && 0 <= now - (s.sec * 1_000_000_000 + s.usec * 1_000) % U64 <= 2_000_000_000
  {}

  const READ_BYTES := 65536

  // ---------------------------------------------------------------- the frames of a run

  function Ops(turns: seq<Turn>): seq<Op> { seq(|turns|, k requires 0 <= k < |turns| => Ask(turns[k].input)) }

  function Shot(m: Capture, t: Turn): seq<Image>
    requires Possible(t)
  {
    if t.input.wait.Got? && Next(m, t.input).result == Delivered
    then [ImageOf(t.picture, Stamp(t.input.wait.frame.sequence, t.input.wait.frame.sec, t.input.wait.frame.usec))]
    else []
  }

  /** The frames the engine delivers, with their pictures. */
  function Shots(m: Capture, turns: seq<Turn>): (images: seq<Image>)
    requires AllPossible(turns)
    ensures forall k | 0 <= k < |images| :: Encodable(images[k])
  {
    if turns == [] then []
    else
      var most := turns[..|turns| - 1];
      Shots(m, most) + Shot(Run(m, Ops(most)), turns[|turns| - 1])
  }

  lemma ShotsMore(m: Capture, turns: seq<Turn>, k: nat)
    requires AllPossible(turns) && k < |turns|
    ensures Ops(turns[..k + 1]) == Ops(turns[..k]) + [Ask(turns[k].input)]
    ensures Run(m, Ops(turns[..k + 1])) == Next(Run(m, Ops(turns[..k])), turns[k].input).capture
    ensures Shots(m, turns[..k + 1]) == Shots(m, turns[..k]) + Shot(Run(m, Ops(turns[..k])), turns[k])
  {
    hide Next, Shot;
    assert turns[..k + 1][..k] == turns[..k];
    assert Ops(turns[..k + 1]) == Ops(turns[..k]) + [Ask(turns[k].input)];
    RunLonger(m, Ops(turns[..k]), Ask(turns[k].input));
  }

  lemma {:induction false} ShotsPrefix(m: Capture, turns: seq<Turn>, k: nat)
    requires AllPossible(turns) && k <= |turns|
    ensures Shots(m, turns[..k]) <= Shots(m, turns)
    decreases |turns| - k
  {
    if k == |turns| {
      assert turns[..k] == turns;
    } else {
      hide Shot, Next, Run;
      ShotsMore(m, turns, k);
      ShotsPrefix(m, turns, k + 1);
    }
  }

  lemma DeliveredGot(m: Capture, i: Input)
    ensures var r := Next(m, i);
            r.result == Delivered ==>
              i.wait.Got? && Head(r.capture) == Stamp(i.wait.frame.sequence, i.wait.frame.sec, i.wait.frame.usec)
  {
    if m.streaming && i.wait.Got? { FrameMoves(m, i.wait.frame, i); }
    hide OnFrame;
  }

  lemma StampsJoin(a: seq<Image>, b: seq<Image>)
    ensures Stamps(a + b) == Stamps(a) + Stamps(b)
  {}

  lemma ShotStamps(m: Capture, t: Turn)
    requires Possible(t)
    ensures var r := Next(m, t.input); Stamps(Shot(m, t)) == if r.result == Delivered then [Head(r.capture)] else []
  {
    ShotIf(m, t);
    hide Next, Shot;
  }

  lemma {:induction false} ShotsAreDeliveries(m: Capture, turns: seq<Turn>)
    requires AllPossible(turns)
    ensures Stamps(Shots(m, turns)) == Deliveries(m, Ops(turns))
  {
    if turns != [] {
      hide Next, Run, Deliveries, Shot, Shots, Stamps, Ops, Possible;
      var k := |turns| - 1;
      var before := Run(m, Ops(turns[..k]));
      ShotsAreDeliveries(m, turns[..k]);
      ShotStamps(before, turns[k]);
      RunLonger(m, Ops(turns[..k]), Ask(turns[k].input));
      ShotsMore(m, turns, k);
      StampsJoin(Shots(m, turns[..k]), Shot(before, turns[k]));
      assert turns[..k + 1] == turns;
    }
  }

  /** Whatever the engine meets: of the first frames it delivers, the reader takes
      each for newer exactly if none of them wrapped. */
  lemma ShotsIncrease(m: Capture, turns: seq<Turn>, n: nat)
    requires AllPossible(turns) && n <= |Shots(m, turns)|
    ensures Increasing(Stamps(Shots(m, turns)[..n])) <==> NoWrap(Stamps(Shots(m, turns)[..n]))
  {
    hide Run, Deliveries, Shots, Follows;
    ShotsAreDeliveries(m, turns);
    DeliveriesFollow(m, Ops(turns));
    DeliveriesFit(m, Ops(turns));
    var d, images := Deliveries(m, Ops(turns)), Shots(m, turns)[..n];
    assert Stamps(images) == d[..n];
    IncreasingUnlessWrapped(d[..n]);
  }

  // ---------------------------------------------------------------- the worker

  datatype Emission = Stale | Closed | Written

  /** What worker_main does with a delivered frame, decoded into `yuyv`: a fresh one
      goes out. */
  method Emit(out: Writer, yuyv: array<byte>, picture: seq<byte>, stamp: Stamp, now: nat) returns (r: Emission)
    requires yuyv.Length == |picture| == 2 * PAYLOAD
    requires stamp.sequence < U32 && 0 <= stamp.sec < U64 && 0 <= stamp.usec < U64
    modifies out, yuyv
    ensures r.Stale? <==> !HelperFresh(stamp, now)
    ensures !r.Stale? <==> now != 0 && 0 <= now - (stamp.sec * 1_000_000_000 + stamp.usec * 1_000) % U64 <= 2_000_000_000
    ensures r.Stale? ==> out.output == old(out.output)
    ensures r.Written? ==> out.output == old(out.output) + Encode(ImageOf(picture, stamp))
    ensures r.Closed? ==> old(out.output) <= out.output <= old(out.output) + Encode(ImageOf(picture, stamp))
    ensures if r.Closed? then Room(old(out.script)) < FRAME_BYTES else Room(out.script) + FRAME_BYTES >= Room(old(out.script))
  {
    HelperFreshMeans(stamp, now);
    hide Room, HelperFresh, Encode, ImageOf;
    forall i | 0 <= i < yuyv.Length { yuyv[i] := picture[i]; }
    assert yuyv[..] == picture;
    if !HelperFresh(stamp, now) { return Stale; }
    var ok := out.WriteFrame(yuyv, stamp);
    r := if ok then Written else Closed;
  }

  /** At turn `k` the capture failed, or delivered a frame that was stale. */
  predicate Fails(m: Capture, turns: seq<Turn>, k: nat)
    requires k < |turns|
  {
    Next(Run(m, Ops(turns[..k])), turns[k].input).result == Failed
  }

  predicate Outdated(m: Capture, turns: seq<Turn>, k: nat)
    requires k < |turns| && Possible(turns[k])
  {
    var shot := Shot(Run(m, Ops(turns[..k])), turns[k]);
    shot != [] && !HelperFresh(shot[0].stamp, turns[k].now)
  }

  /** Whether the worker exits well: the capture stops, and as many frames went out as
      were asked for, or none were asked for and the output stayed open. */
  predicate ExitsWell(frames: nat, requested: nat, closed: bool, stopped: bool) {
    stopped && (frames == requested || (requested == 0 && !closed))
  }

  /** worker_main: the frames go out, the capture is stopped, whatever ended it, and the
      exit status says how all that went. */
  method Worker(capture: Engine, out: Writer, turns: seq<Turn>, requested: nat, streamOff: bool)
      returns (frames: nat, closed: bool, status: bool, ghost images: seq<Image>, ghost used: nat)
    requires AllPossible(turns)
    modifies capture, out
    ensures Worked(old(capture.View()), turns, requested, frames, closed, images, used)
    ensures Output(old(capture.View()), turns, old(out.output), out.output, frames, closed, images)
    ensures closed ==> Room(old(out.script)) < (frames + 1) * FRAME_BYTES
    ensures capture.View() == IrCapture.Stop(Run(old(capture.View()), Ops(turns[..used])), streamOff)
    ensures status <==> ExitsWell(frames, requested, closed, !old(capture.streaming) || streamOff)
  {
    hide Run, Ops, Worked, Output, Room;
    frames, closed, images, used := Work(capture, out, turns, requested);
    WorkedTurns(old(capture.View()), turns, requested, frames, closed, images, used);
    var stopped := capture.StopStream(streamOff);
    status := stopped && (!closed || frames == requested) && (frames == requested || requested == 0);
  }

  lemma WorkedTurns(m: Capture, turns: seq<Turn>, requested: nat, frames: nat, closed: bool, images: seq<Image>, used: nat)
    requires AllPossible(turns) && Worked(m, turns, requested, frames, closed, images, used)
    ensures used <= |turns|
  {}

  /** What the worker's loop did: `images` went out, in `used` turns, and why it ended. */
  ghost predicate Worked(m: Capture, turns: seq<Turn>, requested: nat, frames: nat, closed: bool, images: seq<Image>, used: nat)
    requires AllPossible(turns)
  {
    && used <= |turns| && |images| == frames && images <= Shots(m, turns)
    && (requested > 0 ==> frames <= requested && (closed ==> frames < requested))
    && (if closed || (requested > 0 && frames == requested) then true
        else if used > 0 && Outdated(m, turns, used - 1) then true
        else images == Shots(m, turns[..used]) && (used == |turns| || (used > 0 && Fails(m, turns, used - 1))))
  }

  /** What it wrote: the encodings of `images`, and part of the next one only if the
      output closed. */
  ghost predicate Output(m: Capture, turns: seq<Turn>, before: seq<byte>, after: seq<byte>, frames: nat, closed: bool,
                         images: seq<Image>)
    requires AllPossible(turns)
  {
    var all := Shots(m, turns);
    && (forall k | 0 <= k < |images| :: Encodable(images[k]))
    && (!closed ==> after == before + Stream(images))
    && (closed ==> frames < |all| && before + Stream(images) <= after <= before + Stream(all[..frames + 1]))
  }

  /** The loop of worker_main: every fresh frame of the engine goes out, in order, until
      enough have, a frame is stale, the capture fails, or the output closes.  `used`
      is how many turns it took. */
  method Work(capture: Engine, out: Writer, turns: seq<Turn>, requested: nat)
      returns (frames: nat, closed: bool, ghost images: seq<Image>, ghost used: nat)
    requires AllPossible(turns)
    modifies capture, out
    ensures Worked(old(capture.View()), turns, requested, frames, closed, images, used)
    ensures Output(old(capture.View()), turns, old(out.output), out.output, frames, closed, images)
    ensures closed ==> Room(old(out.script)) < (frames + 1) * FRAME_BYTES
    ensures capture.View() == Run(old(capture.View()), Ops(turns[..used])) && capture.streaming == old(capture.streaming)
  {
    hide Next, Run, Shots, Shot, Encode, ImageOf, HelperFresh, Lawful, Ops, Stream, Fails, Outdated, Room;
    var yuyv := new byte[2 * PAYLOAD];
    ghost var m0 := capture.View();
    images, frames, closed, used := [], 0, false, 0;
    var k := 0;
    NothingShot(m0, turns);
    while k < |turns| && (requested == 0 || frames < requested)
      invariant k == used <= |turns| && !closed && |images| == frames && capture.streaming == old(capture.streaming)
      invariant capture.View() == Run(m0, Ops(turns[..k])) && images == Shots(m0, turns[..k])
      invariant requested > 0 ==> frames <= requested
      invariant out.output == old(out.output) + Stream(images)
      invariant Room(out.script) + frames * FRAME_BYTES >= Room(old(out.script))
    {
      var t := turns[k];
      ghost var before := capture.View();
      var r := capture.NextFrame(t.input);
      ShotsMore(m0, turns, k);
      ShotIf(before, t);
      TurnEnds(m0, turns, k);
      k, used := k + 1, used + 1;
      ShotsPrefix(m0, turns, k);
      if r == TimedOut || r == Discarded {
        // the next turn
      } else if r == Failed {
        return;
      } else {
        var stamp := Stamp(capture.lastSequence, capture.lastSec, capture.lastUsec);
        ghost var image := ImageOf(t.picture, stamp);
        StreamGrows(images, image);
        NextShot(Shots(m0, turns), images, image);
        var emission := Emit(out, yuyv, t.picture, stamp, t.now);
        if emission.Stale? { return; }
        if emission.Closed? {
          closed := true;
          return;
        }
        images := images + [image];
        frames := frames + 1;
      }
    }
    ShotsPrefix(m0, turns, k);
  }

  lemma TurnEnds(m: Capture, turns: seq<Turn>, k: nat)
    requires k < |turns| && Possible(turns[k])
    ensures Fails(m, turns, k) <==> Next(Run(m, Ops(turns[..k])), turns[k].input).result == Failed
    ensures var r := Next(Run(m, Ops(turns[..k])), turns[k].input);
            r.result == Delivered ==>
              && 0 <= Head(r.capture).sec && 0 <= Head(r.capture).usec
              && (Outdated(m, turns, k) <==> !HelperFresh(Head(r.capture), turns[k].now))
  {
    ShotIf(Run(m, Ops(turns[..k])), turns[k]);
    hide Next, Run, Shot, HelperFresh;
  }

  lemma NextShot(all: seq<Image>, images: seq<Image>, image: Image)
    requires images + [image] <= all
    ensures images <= all && |images| < |all| && all[..|images| + 1] == images + [image]
  {}

  lemma NothingShot(m: Capture, turns: seq<Turn>)
    requires AllPossible(turns)
    ensures turns[..0] == [] && Shots(m, turns[..0]) == [] && Run(m, Ops(turns[..0])) == m && Stream([]) == []
  {
    assert Ops(turns[..0]) == [];
  }

  lemma ShotIf(m: Capture, t: Turn)
    requires Possible(t)
    ensures var r := Next(m, t.input);
            if r.result == Delivered then
              && Head(r.capture).sequence < U32 && 0 <= Head(r.capture).sec < U64 && 0 <= Head(r.capture).usec < U64
              && Shot(m, t) == [ImageOf(t.picture, Head(r.capture))]
            else Shot(m, t) == []
  {
    DeliveredGot(m, t.input);
    hide Next;
  }

  // ---------------------------------------------------------------- the supervisor

  /** How many turns find something in the pipe. */
  function Finds(found: seq<nat>): nat {
    if found == [] then 0 else (if found[0] > 0 then 1 else 0) + Finds(found[1..])
  }

  /** The forwarding loop of the supervisor.  `found` is how much each turn finds in the
      pipe, 0 for nothing; the deadline comes when it ends. */
  method Forward(out: Writer, pipe: seq<byte>, found: seq<nat>) returns (ok: bool)
    modifies out
    ensures ok ==> out.output == old(out.output) + pipe
    ensures old(out.output) <= out.output <= old(out.output) + pipe
    ensures !ok ==> Finds(found) < |pipe| || Room(old(out.script)) < |pipe|
  {
    hide Room;
    var sent: nat, turn := 0, 0;
    assert found[0..] == found;
    while sent < |pipe|
      invariant sent <= |pipe| && turn <= |found| && out.output == old(out.output) + pipe[..sent]
      invariant Finds(found[turn..]) + sent >= Finds(found) && Room(out.script) + sent >= Room(old(out.script))
      decreases |found| - turn
    {
      if turn == |found| { return false; }
      var most := if found[turn] < READ_BYTES then found[turn] else READ_BYTES;
      var count := if most < |pipe| - sent then most else |pipe| - sent;
      assert found[turn..][1..] == found[turn + 1..];
      turn := turn + 1;
      assert pipe[..sent] + pipe[sent..sent + count] == pipe[..sent + count];
      assert old(out.output) + pipe[..sent + count] <= old(out.output) + pipe;
      ghost var before := out.output;
      ok := out.WriteAll(pipe[sent..sent + count]);
      assert before + pipe[sent..sent + count] == old(out.output) + pipe[..sent + count];
      if !ok { return; }
      sent := sent + count;
    }
    assert pipe[..sent] == pipe;
    ok := true;
  }

  // ---------------------------------------------------------------- end to end

  /** The reader gets exactly the frames the engine delivered.  `sent` is whether the
      worker wrote as many as requested and the supervisor forwarded them; then, given
      reads enough before its deadline, the reader succeeds if and only if each frame is
      fresh when it is read, the sequence number did not wrap, the capture could be
      stopped (`streamOff`), and the supervisor saw the end of it before its own
      deadline (`inTime`).  They are sent if the engine delivers enough frames, none late
      and without failing, and there is room and time for them. */
  method CaptureThrough(capture: Engine, turns: seq<Turn>, requested: nat, streamOff: bool, worker: seq<Attempt>,
                        found: seq<nat>, supervisor: seq<Attempt>, inTime: bool, replies: seq<Reply>, now: nat -> nat)
      returns (ok: bool, frames: seq<Image>, sent: bool)
    requires AllPossible(turns) && requested > 0
    modifies capture
    ensures sent ==> requested <= |Shots(old(capture.View()), turns)|
    ensures ok ==> sent && frames == Shots(old(capture.View()), turns)[..requested]
    ensures sent ==>
              var images := Shots(old(capture.View()), turns)[..requested];
              var welcome := Recent(images, now) && NoWrap(Stamps(images)) && streamOff && inTime;
              && (ok ==> welcome)
              && (welcome && Budget(replies) >= requested * FRAME_BYTES ==> ok)
    ensures (&& Delivering(old(capture.View()), turns, requested)
             && Room(worker) >= requested * FRAME_BYTES && Room(supervisor) >= requested * FRAME_BYTES
             && Finds(found) >= requested * FRAME_BYTES) ==> sent
  {
    hide Room, Finds, Fails, Outdated, Next, Shot, Run, Shots, Encode, Encodable, Budget, Stream, Fresh, TupleLess, NoWrap, Increasing, Recent, Acceptable;
    ok, frames, sent := false, [], false;
    ghost var m0 := capture.View();
    var pipe := new Writer(worker);
    ghost var images, used;
    var written, closed, status;
    written, closed, status, images, used := Worker(capture, pipe, turns, requested, streamOff);
    WorkEnough(m0, turns, requested, used);
    FramesFit(written, requested);
    if closed || written != requested { return; }
    StreamSize(images);
    var output := new Writer(supervisor);
    var forwarded := Forward(output, pipe.output, found);
    if !forwarded { return; }
    sent := true;
    assert images == Shots(m0, turns)[..requested];
    NotStreaming(m0, turns);
    assert output.output == Stream(images) + [];
    var session := new Session(requested, now, output.output, replies);
    ok, frames := session.CaptureFrames(status && inTime, images, []);
    ShotsIncrease(m0, turns, requested);
    AcceptableMeans(images, now);
  }

  /** A capture that does not stream delivers nothing. */
  lemma {:induction false} NotStreaming(m: Capture, turns: seq<Turn>)
    requires AllPossible(turns)
    ensures !m.streaming ==> Shots(m, turns) == [] && Run(m, Ops(turns)) == m
  {
    if turns != [] {
      var k := |turns| - 1;
      NotStreaming(m, turns[..k]);
      ShotsMore(m, turns, k);
      assert turns[..k + 1] == turns;
    } else {
      assert Ops(turns) == [];
    }
  }

  /** The engine delivers `requested` frames in these turns, and none of the turns ends
      the worker. */
  ghost predicate Delivering(m: Capture, turns: seq<Turn>, requested: nat)
    requires AllPossible(turns)
  {
    requested <= |Shots(m, turns)| && forall k | 0 <= k < |turns| :: !Fails(m, turns, k) && !Outdated(m, turns, k)
  }

  lemma WorkEnough(m: Capture, turns: seq<Turn>, requested: nat, used: nat)
    requires AllPossible(turns) && used <= |turns|
    ensures Delivering(m, turns, requested) ==>
              && (used > 0 ==> !Fails(m, turns, used - 1) && !Outdated(m, turns, used - 1))
              && (used == |turns| ==> |Shots(m, turns[..used])| >= requested)
  {
    hide Fails, Outdated, Shots;
    if used == |turns| { assert turns[..used] == turns; }
  }

  lemma FramesFit(frames: nat, requested: nat)
    ensures frames < requested ==> (frames + 1) * FRAME_BYTES <= requested * FRAME_BYTES
  {}

  lemma {:induction false} StreamSize(images: seq<Image>)
    requires forall k | 0 <= k < |images| :: Encodable(images[k])
    ensures |Stream(images)| == |images| * FRAME_BYTES
  {
    hide Encode;
    if images != [] {
      StreamSize(images[..|images| - 1]);
      EncodedSize(images[|images| - 1]);
    }
  }

  lemma EncodedSize(image: Image)
    requires Encodable(image)
    ensures |Encode(image)| == FRAME_BYTES
  {}
}
