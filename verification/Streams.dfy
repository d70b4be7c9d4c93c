/** The stream lifecycle of ipu-isys-video.c: firmware stream handles, the count of
    opened streams, and the order in which sub-devices are told to start and stop,
    with the way back from a failure anywhere.  What the firmware, the sub-devices
    and the sensor answer comes from an arbitrary `world`, by call number. */
module Streams {
  import opened Common

  const MAX_STREAMS := 8
  const NONE := -1

  datatype Answer = Fine | Unsupported | Failing

  /** `pipes` is who holds each handle, `handles` what each pipeline holds. */
  datatype State = State(pipes: seq<int>, openCount: int, handles: seq<int>)

  function Occupied(pipes: seq<int>): nat {
    if pipes == [] then 0 else Occupied(pipes[..|pipes| - 1]) + if pipes[|pipes| - 1] == NONE then 0 else 1
  }

  /** Every handle in use is held by exactly the pipeline that records it. */
  ghost predicate Matched(s: State) {
    && |s.pipes| == MAX_STREAMS
    && (forall h | 0 <= h < MAX_STREAMS :: s.pipes[h] == NONE || (0 <= s.pipes[h] < |s.handles| && s.handles[s.pipes[h]] == h))
    && forall p | 0 <= p < |s.handles| :: s.handles[p] == NONE || (0 <= s.handles[p] < MAX_STREAMS && s.pipes[s.handles[p]] == p)
  }

  /** What holds between calls: the streams counted as opened are the handles held. */
  ghost predicate Sound(s: State) { Matched(s) && s.openCount == Occupied(s.pipes) }

  predicate Holds(s: State, p: nat) { p < |s.handles| && s.handles[p] != NONE }

  /** The first free handle, or the number of handles. */
  function FirstFree(pipes: seq<int>): (h: nat)
    ensures h <= |pipes|
    ensures h < |pipes| ==> pipes[h] == NONE
    ensures forall i | 0 <= i < h :: pipes[i] != NONE
  {
    if pipes == [] then 0 else if pipes[0] == NONE then 0 else 1 + FirstFree(pipes[1..])
  }

  function Taken(s: State, p: nat): State
    requires p < |s.handles| && FirstFree(s.pipes) < |s.pipes|
  {
    var h := FirstFree(s.pipes);
    s.(pipes := s.pipes[h := p], handles := s.handles[p := h])
  }

  function Started(s: State, p: nat): State
    requires p < |s.handles| && FirstFree(s.pipes) < |s.pipes|
  {
    Taken(s, p).(openCount := s.openCount + 1)
  }

  function Dropped(s: State, p: nat): State
    requires Holds(s, p) && 0 <= s.handles[p] < |s.pipes|
  {
    s.(pipes := s.pipes[s.handles[p] := NONE], handles := s.handles[p := NONE])
  }

  function Stopped(s: State, p: nat): State
    requires Holds(s, p) && 0 <= s.handles[p] < |s.pipes|
  {
    Dropped(s, p).(openCount := s.openCount - 1)
  }

  lemma {:induction false} OccupiedUpdate(pipes: seq<int>, h: nat, p: int)
    requires h < |pipes|
    ensures Occupied(pipes[h := p]) + One(pipes[h] != NONE) == Occupied(pipes) + One(p != NONE)
  {
    var n := |pipes| - 1;
    if h == n {
      assert pipes[h := p][..n] == pipes[..n];
    } else {
      OccupiedUpdate(pipes[..n], h, p);
      assert pipes[h := p][..n] == pipes[..n][h := p];
    }
  }

  lemma {:induction false} OccupiedBound(pipes: seq<int>)
    ensures Occupied(pipes) <= |pipes|
    ensures Occupied(pipes) == |pipes| <==> NONE !in pipes
  {
    if pipes != [] {
      var n := |pipes| - 1;
      OccupiedBound(pipes[..n]);
      assert pipes == pipes[..n] + [pipes[n]];
    }
  }

  /** A handle is free exactly while fewer than all are held. */
  lemma FreeWhileFewer(s: State)
    requires Sound(s)
    ensures FirstFree(s.pipes) < MAX_STREAMS <==> s.openCount < MAX_STREAMS
    ensures s.openCount <= MAX_STREAMS
  {
    OccupiedBound(s.pipes);
    if NONE in s.pipes {
      var i :| 0 <= i < |s.pipes| && s.pipes[i] == NONE;
      assert FirstFree(s.pipes) <= i;
    }
  }

  lemma StartedSound(s: State, p: nat)
    requires Sound(s) && p < |s.handles| && !Holds(s, p) && FirstFree(s.pipes) < MAX_STREAMS
    ensures Sound(Started(s, p)) && Holds(Started(s, p), p)
    ensures forall q | 0 <= q < |s.handles| && q != p :: Started(s, p).handles[q] == s.handles[q]
  {
    OccupiedUpdate(s.pipes, FirstFree(s.pipes), p);
  }

  lemma StoppedSound(s: State, p: nat)
    requires Sound(s) && Holds(s, p)
    ensures Sound(Stopped(s, p)) && !Holds(Stopped(s, p), p)
  {
    OccupiedUpdate(s.pipes, s.handles[p], NONE);
  }

  /** A stop undoes the start before it. */
  lemma StopUndoesStart(s: State, p: nat)
    requires Sound(s) && p < |s.handles| && !Holds(s, p) && FirstFree(s.pipes) < MAX_STREAMS
    ensures Stopped(Started(s, p), p) == s
  {
    var h := FirstFree(s.pipes);
    assert s.pipes[h := p][h := NONE] == s.pipes;
    assert s.handles[p := h][p := NONE] == s.handles;
  }

  // ---------------------------------------------------------------- any sequence of starts and stops

  /** A start that succeeded or failed, or a stop. */
  datatype Op = Start(pipeline: nat, ok: bool) | Stop(pipeline: nat)

  /** A pipeline is started only while it is stopped and stopped only while it is
      started; a start can succeed only if a handle is free. */
  predicate Allowed(s: State, op: Op) {
    match op
    case Start(p, ok) => p < |s.handles| && !Holds(s, p) && (ok ==> FirstFree(s.pipes) < |s.pipes|)
    case Stop(p) => Holds(s, p) && 0 <= s.handles[p] < |s.pipes|
  }

  function Apply(s: State, op: Op): State
    requires Allowed(s, op)
  {
    match op
    case Start(p, ok) => if ok then Started(s, p) else s
    case Stop(p) => Stopped(s, p)
  }

  ghost predicate AllAllowed(s: State, ops: seq<Op>)
    decreases |ops|
  {
    ops == [] || (Allowed(s, ops[0]) && AllAllowed(Apply(s, ops[0]), ops[1..]))
  }

  ghost function Run(s: State, ops: seq<Op>): State
    requires AllAllowed(s, ops)
    decreases |ops|
  {
    if ops == [] then s else Run(Apply(s, ops[0]), ops[1..])
  }

  /** Over any sequence of starts and stops, failed ones included: the count of
      opened streams is the number of handles in use, at most 8, no handle is shared
      and no pipeline holds two. */
  lemma {:induction false} RunSound(s: State, ops: seq<Op>)
    requires Sound(s) && AllAllowed(s, ops)
    ensures Sound(Run(s, ops))
    ensures Run(s, ops).openCount <= MAX_STREAMS
    decreases |ops|
  {
    if ops == [] {
      OccupiedBound(s.pipes);
    } else {
      match ops[0] {
        case Start(p, ok) => if ok { StartedSound(s, p); }
        case Stop(p) => StoppedSound(s, p);
      }
      hide Sound;
      RunSound(Apply(s, ops[0]), ops[1..]);
    }
  }

  lemma HandlesUnshared(s: State, g: nat, h: nat, p: nat, q: nat)
    requires Sound(s)
    ensures g < h < MAX_STREAMS && s.pipes[g] != NONE ==> s.pipes[g] != s.pipes[h]
    ensures p < q < |s.handles| && s.handles[p] != NONE ==> s.handles[p] != s.handles[q]
  {}

  // ---------------------------------------------------------------- what is asked, and what is answered

  datatype Cmd = Open | Begin | Halt | Close

  /** A call to the outside.  A firmware command has three steps: it is sent, it is
      acknowledged in time, and the acknowledgement carries no error. */
  datatype What =
    | Walk | On(sd: nat) | Off(sd: nat) | Setup | Message | Command(cmd: Cmd, step: nat) | Receiver | Sensor(on: bool)

  datatype Told = Told(what: What, answer: Answer)

  function Whats(log: seq<Told>): (r: seq<What>)
    ensures |r| == |log|
  {
    seq(|log|, i requires 0 <= i < |log| => log[i].what)
  }

  /** Only a sub-device may not support what it is asked. */
  predicate Good(t: Told) { t.answer == Fine || (t.what.On? && t.answer == Unsupported) }

  predicate AllGood(log: seq<Told>) { forall k | 0 <= k < |log| :: Good(log[k]) }

  /** The calls of a plan were made, all of them, and none was refused. */
  predicate Well(log: seq<Told>, plan: seq<What>) { |log| == |plan| && AllGood(log) }

  /** The calls of a plan are made in order up to the first that is refused. */
  predicate Ran(log: seq<Told>, plan: seq<What>) {
    && |log| <= |plan| && Whats(log) == plan[..|log|]
    && (forall k | 0 <= k < |log| - 1 :: Good(log[k]))
    && (Well(log, plan) || (log != [] && !Good(log[|log| - 1])))
  }

  function Steps(c: Cmd): seq<What> { [Command(c, 0), Command(c, 1), Command(c, 2)] }

  lemma RanNone()
    ensures Ran([], []) && Well([], [])
  {
    var none: seq<Told> := [];
    assert Whats(none) == [];
  }

  lemma RanMore(log: seq<Told>, plan: seq<What>, what: What, answer: Answer)
    requires Ran(log, plan) && Well(log, plan)
    ensures Ran(log + [Told(what, answer)], plan + [what])
    ensures Well(log + [Told(what, answer)], plan + [what]) <==> Good(Told(what, answer))
  {
    var more := log + [Told(what, answer)];
    assert Whats(more) == Whats(log) + [what];
    assert plan[..|log|] == plan;
    assert more[|log|] == Told(what, answer);
    if Good(Told(what, answer)) {
      forall k | 0 <= k < |more| ensures Good(more[k]) { if k < |log| { assert more[k] == log[k]; } }
    }
  }

  lemma RanShort(log: seq<Told>, plan: seq<What>, rest: seq<What>)
    requires Ran(log, plan) && !Well(log, plan)
    ensures Ran(log, plan + rest) && !Well(log, plan + rest)
  {
    assert (plan + rest)[..|log|] == plan[..|log|];
  }

  function Ons(walk: seq<nat>): (r: seq<What>)
    ensures |r| == |walk|
  {
    seq(|walk|, i requires 0 <= i < |walk| => On(walk[i]))
  }

  function Offs(walk: seq<nat>): (r: seq<What>)
    ensures |r| == |walk|
  {
    seq(|walk|, i requires 0 <= i < |walk| => Off(walk[i]))
  }

  // ---------------------------------------------------------------- a start, call by call

  /** The calls of start_stream_firmware. */
  datatype Firmware = Firmware(setup: seq<Told>, open: seq<Told>, begin: seq<Told>, close: seq<Told>)

  function FirmwareCalls(f: Firmware): seq<Told> { f.setup + f.open + f.begin + f.close }

  /** A message is needed for a first buffer set. */
  function BeginPlan(list: bool): seq<What> { (if list then [Message] else []) + Steps(Begin) }

  predicate Opened(f: Firmware) { Well(f.open, Steps(Open)) }

  predicate Begun(f: Firmware, list: bool) { Well(f.begin, BeginPlan(list)) }

  predicate CloseFailed(close: seq<Told>) { close != [] && !Well(close, Steps(Close)) }

  /** The stream is opened if the setup went well and a handle was free, begun if it was
      opened, and closed again exactly if it was opened and did not begin. */
  predicate FirmwareRan(f: Firmware, list: bool, free: bool) {
    && Ran(f.setup, [Setup, Setup])
    && (if Well(f.setup, [Setup, Setup]) && free then Ran(f.open, Steps(Open)) else f.open == [])
    && (if Opened(f) then Ran(f.begin, BeginPlan(list)) else f.begin == [])
    && (if Opened(f) && !Begun(f, list) then Ran(f.close, Steps(Close)) else f.close == [])
  }

  /** A firmware stream that has to go is halted, and closed if it halted. */
  predicate FirmwareGone(halt: seq<Told>, close: seq<Told>) {
    Ran(halt, Steps(Halt)) && if Well(halt, Steps(Halt)) then Ran(close, Steps(Close)) else close == []
  }

  predicate HaltFailed(halt: seq<Told>) { halt != [] && !Well(halt, Steps(Halt)) }

  /** A sensor or a sub-device failed to stop. */
  predicate SomeFailing(log: seq<Told>) { exists k :: 0 <= k < |log| && log[k].answer == Failing }

  /** The sensor is started by the pipeline that completes its CSI-2 stream, or always
      without CSI-2; receiver errors count as failures. */
  function SensorPlan(csi2: bool, completes: bool): seq<What> {
    TurnOnPlan(csi2, completes) + if csi2 then [Receiver, Receiver] else []
  }

  function TurnOnPlan(csi2: bool, completes: bool): seq<What> {
    if csi2 then (if completes then [Receiver, Sensor(true)] else []) else [Sensor(true)]
  }

  /** The calls of a start. */
  datatype Calls = Calls(init: seq<Told>, ons: seq<Told>, firmware: Firmware, sensor: seq<Told>, halt: seq<Told>,
                         close: seq<Told>, quiet: seq<Told>, offs: seq<Told>)

  function AllCalls(s: Calls): seq<Told> {
    s.init + s.ons + FirmwareCalls(s.firmware) + s.sensor + s.halt + s.close + s.quiet + s.offs
  }

  const NotAsked := Firmware([], [], [], [])

  /** The sub-devices enabled: all that were told to start, but the one that refused. */
  function Enabled(ons: seq<Told>): nat {
    if ons != [] && !Good(ons[|ons| - 1]) then |ons| - 1 else |ons|
  }

  /** The start went well: everything asked for on the way was granted. */
  predicate Succeeded(s: Calls, list: bool, csi2: bool, completes: bool) {
    Begun(s.firmware, list) && Well(s.sensor, SensorPlan(csi2, completes))
  }

  predicate DevicesRan(init: seq<Told>, ons: seq<Told>, walk: seq<nat>) {
    && Ran(init, [Walk, Walk]) && Enabled(ons) <= |walk|
    && if Well(init, [Walk, Walk]) then Ran(ons, Ons(walk)) else ons == []
  }

  /** A start goes ahead part by part while all goes well.  When something fails, what
      was done is undone: the firmware stream, the sensor if it was asked to start and
      is this pipeline's to stop, and each enabled sub-device, in walk order. */
  predicate StartRan(s: Calls, walk: seq<nat>, list: bool, csi2: bool, completes: bool, last: bool, free: bool) {
    && DevicesRan(s.init, s.ons, walk)
    && (if Well(s.init, [Walk, Walk]) && Well(s.ons, Ons(walk)) then FirmwareRan(s.firmware, list, free) else s.firmware == NotAsked)
    && (if Begun(s.firmware, list) then Ran(s.sensor, SensorPlan(csi2, completes)) else s.sensor == [])
    && (if Begun(s.firmware, list) && !Succeeded(s, list, csi2, completes) then FirmwareGone(s.halt, s.close)
        else s.halt == [] && s.close == [])
    && Whats(s.quiet) == (if !Succeeded(s, list, csi2, completes) && Sensor(true) in Whats(s.sensor) && (!csi2 || last)
                          then [Sensor(false)] else [])
    && Whats(s.offs) == (if Succeeded(s, list, csi2, completes) then [] else Offs(walk[..Enabled(s.ons)]))
  }

  /** Its part about the firmware stream and the sensor. */
  predicate CameraRan(s: Calls, list: bool, csi2: bool, completes: bool, free: bool) {
    && s.init == [] && s.ons == [] && s.quiet == [] && s.offs == []
    && FirmwareRan(s.firmware, list, free)
    && (if Begun(s.firmware, list) then Ran(s.sensor, SensorPlan(csi2, completes)) else s.sensor == [])
    && (if Begun(s.firmware, list) && !Succeeded(s, list, csi2, completes) then FirmwareGone(s.halt, s.close)
        else s.halt == [] && s.close == [])
  }

  /** What a start does to the reset request. */
  predicate StartResets(s: Calls) {
    CloseFailed(s.firmware.close) || HaltFailed(s.halt) || CloseFailed(s.close) || SomeFailing(s.quiet)
  }

  /** A start goes well exactly if a handle was free and none of its calls was refused;
      in a failed one each enabled sub-device is told to stop once, the refusing one not
      at all. */
  lemma StartAnswers(s: Calls, walk: seq<nat>, list: bool, csi2: bool, completes: bool, last: bool, free: bool)
    requires StartRan(s, walk, list, csi2, completes, last, free)
    ensures Succeeded(s, list, csi2, completes) ==> free && AllGood(AllCalls(s))
    ensures !Succeeded(s, list, csi2, completes) && free ==> !AllGood(AllCalls(s))
  {
    AllGoodParts(s);
    assert Well([], []);
  }

  lemma AllGoodJoin(a: seq<Told>, b: seq<Told>)
    ensures AllGood(a + b) <==> AllGood(a) && AllGood(b)
  {
    if AllGood(a + b) {
      forall k | 0 <= k < |a| ensures Good(a[k]) { assert (a + b)[k] == a[k]; }
      forall k | 0 <= k < |b| ensures Good(b[k]) { assert (a + b)[|a| + k] == b[k]; }
    }
  }

  lemma AllGoodParts(s: Calls)
    ensures AllGood(AllCalls(s)) <==>
              && AllGood(s.init) && AllGood(s.ons) && AllGood(FirmwareCalls(s.firmware)) && AllGood(s.sensor)
              && AllGood(s.halt) && AllGood(s.close) && AllGood(s.quiet) && AllGood(s.offs)
    ensures AllGood(FirmwareCalls(s.firmware)) <==>
              && AllGood(s.firmware.setup) && AllGood(s.firmware.open) && AllGood(s.firmware.begin) && AllGood(s.firmware.close)
  {
    hide AllGood, FirmwareCalls;
    var a, f := s.init + s.ons, s.firmware;
    var b := a + FirmwareCalls(f);
    AllGoodJoin(s.init, s.ons);
    AllGoodJoin(a, FirmwareCalls(f));
    AllGoodJoin(b, s.sensor);
    AllGoodJoin(b + s.sensor, s.halt);
    AllGoodJoin(b + s.sensor + s.halt, s.close);
    AllGoodJoin(b + s.sensor + s.halt + s.close, s.quiet);
    AllGoodJoin(b + s.sensor + s.halt + s.close + s.quiet, s.offs);
    FirmwareGood(f);
  }

  lemma FirmwareGood(f: Firmware)
    ensures AllGood(FirmwareCalls(f)) <==> AllGood(f.setup) && AllGood(f.open) && AllGood(f.begin) && AllGood(f.close)
  {
    hide AllGood;
    AllGoodJoin(f.setup, f.open);
    AllGoodJoin(f.setup + f.open, f.begin);
    AllGoodJoin(f.setup + f.open + f.begin, f.close);
  }

  function Times(log: seq<Told>, w: What): nat { multiset(Whats(log))[w] }

  lemma TimesJoin(a: seq<Told>, b: seq<Told>, w: What)
    ensures Times(a + b, w) == Times(a, w) + Times(b, w)
  {
    assert Whats(a + b) == Whats(a) + Whats(b);
  }

  lemma TimesNone(log: seq<Told>, plan: seq<What>, w: What)
    requires Ran(log, plan) && w !in plan
    ensures Times(log, w) == 0
  {
    assert forall x | x in Whats(log) :: x in plan;
  }

  lemma {:induction false} TimesOff(walk: seq<nat>, sd: nat)
    requires Distinct(walk)
    ensures multiset(Offs(walk))[Off(sd)] == One(sd in walk) && multiset(Offs(walk))[On(sd)] == 0
    ensures multiset(Ons(walk))[On(sd)] == One(sd in walk) && multiset(Ons(walk))[Off(sd)] == 0
  {
    if walk != [] {
      var n := |walk| - 1;
      TimesOff(walk[..n], sd);
      assert Offs(walk) == Offs(walk[..n]) + [Off(walk[n])];
      assert Ons(walk) == Ons(walk[..n]) + [On(walk[n])];
      assert walk == walk[..n] + [walk[n]];
      assert walk[n] !in walk[..n];
    }
  }

  lemma FirmwareTimes(f: Firmware, list: bool, free: bool, w: What)
    requires f == NotAsked || FirmwareRan(f, list, free)
    requires w.On? || w.Off?
    ensures Times(FirmwareCalls(f), w) == 0
  {
    hide Times;
    TimesEmpty(w);
    TimesJoin(f.setup, f.open, w);
    TimesJoin(f.setup + f.open, f.begin, w);
    TimesJoin(f.setup + f.open + f.begin, f.close, w);
    if f.setup != [] { TimesNone(f.setup, [Setup, Setup], w); }
    if f.open != [] { TimesNone(f.open, Steps(Open), w); }
    if f.begin != [] { TimesNone(f.begin, BeginPlan(list), w); }
    if f.close != [] { TimesNone(f.close, Steps(Close), w); }
  }

  lemma TimesEmpty(w: What)
    ensures Times([], w) == 0
  {
    var none: seq<Told> := [];
    assert Whats(none) == [];
  }

  lemma TimesAll(s: Calls, w: What)
    ensures Times(AllCalls(s), w) == Times(s.init, w) + Times(s.ons, w) + Times(FirmwareCalls(s.firmware), w) + Times(s.sensor, w)
                                     + Times(s.halt, w) + Times(s.close, w) + Times(s.quiet, w) + Times(s.offs, w)
  {
    hide Times, FirmwareCalls;
    var b := s.init + s.ons + FirmwareCalls(s.firmware);
    TimesJoin(s.init, s.ons, w);
    TimesJoin(s.init + s.ons, FirmwareCalls(s.firmware), w);
    TimesJoin(b, s.sensor, w);
    TimesJoin(b + s.sensor, s.halt, w);
    TimesJoin(b + s.sensor + s.halt, s.close, w);
    TimesJoin(b + s.sensor + s.halt + s.close, s.quiet, w);
    TimesJoin(b + s.sensor + s.halt + s.close + s.quiet, s.offs, w);
  }

  /** A failed start tells each enabled sub-device to stop exactly once, and no other. */
  lemma StoppedOnce(s: Calls, walk: seq<nat>, list: bool, csi2: bool, completes: bool, last: bool, free: bool, sd: nat)
    requires StartRan(s, walk, list, csi2, completes, last, free) && Distinct(walk)
    requires !Succeeded(s, list, csi2, completes)
    ensures Enabled(s.ons) <= |s.ons| <= |walk|
    ensures Times(AllCalls(s), Off(sd)) == One(sd in walk[..Enabled(s.ons)])
    ensures Times(AllCalls(s), On(sd)) == One(sd in walk[..|s.ons|])
  {
    OnsOffs(s, walk, list, csi2, completes, last, free);
    OthersNever(s, walk, list, csi2, completes, last, free, Off(sd));
    OthersNever(s, walk, list, csi2, completes, last, free, On(sd));
    hide StartRan, AllCalls, Succeeded, Enabled, Times, Ons, Offs, OnlyDevices, Distinct;
    StoppedTimes(s, walk, Enabled(s.ons), |s.ons|, sd);
  }

  /** Nothing but the walks over the sub-devices asks for `w`. */
  predicate OnlyDevices(s: Calls, w: What) {
    && Times(s.init, w) == 0 && Times(s.sensor, w) == 0 && Times(s.halt, w) == 0 && Times(s.close, w) == 0
    && Times(s.quiet, w) == 0 && Times(FirmwareCalls(s.firmware), w) == 0
  }

  lemma StoppedTimes(s: Calls, walk: seq<nat>, k: nat, n: nat, sd: nat)
    requires Distinct(walk) && k <= n <= |walk| && Whats(s.ons) == Ons(walk[..n]) && Whats(s.offs) == Offs(walk[..k])
    requires OnlyDevices(s, Off(sd)) && OnlyDevices(s, On(sd))
    ensures Times(AllCalls(s), Off(sd)) == One(sd in walk[..k])
    ensures Times(AllCalls(s), On(sd)) == One(sd in walk[..n])
  {
    hide AllCalls, Times, Ons, Offs, Whats, FirmwareCalls;
    TimesAll(s, Off(sd));
    TimesAll(s, On(sd));
    TimesOff(walk[..k], sd);
    TimesOff(walk[..n], sd);
    TimesOf(s.ons, Ons(walk[..n]), On(sd));
    TimesOf(s.ons, Ons(walk[..n]), Off(sd));
    TimesOf(s.offs, Offs(walk[..k]), On(sd));
    TimesOf(s.offs, Offs(walk[..k]), Off(sd));
  }

  lemma TimesOf(log: seq<Told>, whats: seq<What>, w: What)
    requires Whats(log) == whats
    ensures Times(log, w) == multiset(whats)[w]
  {}

  lemma OnsOffs(s: Calls, walk: seq<nat>, list: bool, csi2: bool, completes: bool, last: bool, free: bool)
    requires StartRan(s, walk, list, csi2, completes, last, free) && !Succeeded(s, list, csi2, completes)
    ensures Enabled(s.ons) <= |s.ons| <= |walk| && Whats(s.ons) == Ons(walk[..|s.ons|]) && Whats(s.offs) == Offs(walk[..Enabled(s.ons)])
  {
    OnsTold(s.ons, walk);
    hide FirmwareRan, FirmwareGone;
  }

  lemma OnsTold(ons: seq<Told>, walk: seq<nat>)
    requires ons == [] || Ran(ons, Ons(walk))
    ensures |ons| <= |walk| && Whats(ons) == Ons(walk[..|ons|])
  {}

  lemma NoDevice(csi2: bool, completes: bool, w: What)
    requires w.On? || w.Off?
    ensures w !in SensorPlan(csi2, completes) && w !in Steps(Halt) && w !in Steps(Close)
  {}

  lemma OthersNever(s: Calls, walk: seq<nat>, list: bool, csi2: bool, completes: bool, last: bool, free: bool, w: What)
    requires StartRan(s, walk, list, csi2, completes, last, free) && (w.On? || w.Off?)
    ensures OnlyDevices(s, w)
  {
    hide Times, Ran, Well, FirmwareRan, FirmwareCalls, Begun, Succeeded, BeginPlan, SensorPlan, TurnOnPlan, Steps, Ons, Offs, Enabled;
    NoDevice(csi2, completes, w);
    TimesEmpty(w);
    TimesNone(s.init, [Walk, Walk], w);
    if s.sensor != [] { TimesNone(s.sensor, SensorPlan(csi2, completes), w); }
    if s.halt != [] { TimesNone(s.halt, Steps(Halt), w); }
    if s.close != [] { TimesNone(s.close, Steps(Close), w); }
    FirmwareTimes(s.firmware, list, free, w);
    TimesOf(s.quiet, Whats(s.quiet), w);
  }

  // ---------------------------------------------------------------- the object

  class Isys {
    const world: nat -> Answer
    var calls: nat
    var pipes: seq<int>
    var openCount: int
    var handles: seq<int>
    var resetNeeded: bool
    ghost var told: seq<Told>

    function View(): State
      reads this
    {
      State(pipes, openCount, handles)
    }

    /** `told` is every call made, with its answer. */
    ghost predicate Recorded()
      reads this
    {
      |told| == calls && forall k | 0 <= k < calls :: told[k].answer == world(k)
    }

    constructor (world: nat -> Answer, pipelines: nat)
      ensures Sound(View()) && |handles| == pipelines && openCount == 0 && told == [] && this.world == world && Recorded()
    {
      this.world, calls, openCount, resetNeeded, told := world, 0, 0, false, [];
      pipes := [NONE, NONE, NONE, NONE, NONE, NONE, NONE, NONE];
      handles := seq(pipelines, i => NONE);
      new;
      NoneOccupied(pipes);
    }

    method Ask(ghost what: What) returns (a: Answer)
      requires Recorded()
      modifies this`calls, this`told
      ensures Recorded() && told == old(told) + [Told(what, a)]
    {
      a := world(calls);
      calls := calls + 1;
      told := told + [Told(what, a)];
    }

    /** Two answers in a row, the second asked for only after a good first one. */
    method AskTwice(ghost what: What) returns (ok: bool, ghost log: seq<Told>)
      requires Recorded() && !what.On?
      modifies this`calls, this`told
      ensures Recorded() && told == old(told) + log && Ran(log, [what, what]) && (ok <==> Well(log, [what, what]))
    {
      RanNone();
      var a := Ask(what);
      log := [Told(what, a)];
      RanMore([], [], what, a);
      assert [] + [what] == [what] && [] + log == log;
      if a != Fine {
        RanShort(log, [what], [what]);
        assert [what] + [what] == [what, what];
        return false, log;
      }
      var b := Ask(what);
      RanMore(log, [what], what, b);
      assert [what] + [what] == [what, what];
      log := log + [Told(what, b)];
      ok := b == Fine;
    }

    /** get_stream_handle. */
    method GetHandle(p: nat) returns (ok: bool)
      requires p < |handles|
      modifies this`pipes, this`handles
      ensures ok <==> FirstFree(old(pipes)) < |old(pipes)|
      ensures View() == if ok then Taken(old(View()), p) else old(View())
    {
      var h := 0;
      while h < |pipes|
        invariant h <= |pipes| && FirstFree(pipes) == h + FirstFree(pipes[h..])
        invariant View() == old(View())
      {
        if pipes[h] == NONE {
          pipes := pipes[h := p];
          handles := handles[p := h];
          return true;
        }
        h := h + 1;
      }
      ok := false;
    }

    /** put_stream_handle. */
    method PutHandle(p: nat)
      requires Holds(View(), p) && 0 <= handles[p] < |pipes|
      modifies this`pipes, this`handles
      ensures View() == Dropped(old(View()), p)
    {
      pipes := pipes[handles[p] := NONE];
      handles := handles[p := NONE];
    }

    /** A firmware command: sent, acknowledged in time, and without an error. */
    method Issue(ghost c: Cmd) returns (sent: bool, done: bool, ghost log: seq<Told>)
      requires Recorded()
      modifies this`calls, this`told
      ensures Recorded() && told == old(told) + log && Ran(log, Steps(c))
      ensures (done <==> Well(log, Steps(c))) && (sent <==> |log| > 1)
    {
      var a := Ask(Command(c, 0));
      log := [Told(Command(c, 0), a)];
      CommandRan(c, log);
      if a != Fine { return false, false, log; }
      a := Ask(Command(c, 1));
      log := log + [Told(Command(c, 1), a)];
      CommandRan(c, log);
      if a != Fine { return true, false, log; }
      a := Ask(Command(c, 2));
      log := log + [Told(Command(c, 2), a)];
      CommandRan(c, log);
      return true, a == Fine, log;
    }

    /** The start command, with a message for a first buffer set if there is one. */
    method BeginStream(list: bool) returns (ok: bool, ghost log: seq<Told>)
      requires Recorded()
      modifies this`calls, this`told
      ensures Recorded() && told == old(told) + log && Ran(log, BeginPlan(list)) && (ok <==> Well(log, BeginPlan(list)))
    {
      log := [];
      RanNone();
      if list {
        var a := Ask(Message);
        log := [Told(Message, a)];
        RanMore([], [], Message, a);
        assert [] + [Message] == [Message] && [] + log == log;
        if a != Fine {
          RanShort(log, [Message], Steps(Begin));
          return false, log;
        }
      }
      var sent;
      ghost var rest;
      sent, ok, rest := Issue(Begin);
      RanJoin(log, if list then [Message] else [], rest, Steps(Begin));
      log := log + rest;
    }

    /** The part of start_stream_firmware after a handle was taken: the stream is open
        and begun, or the handle is given back. */
    method OpenStream(p: nat, list: bool) returns (ok: bool, ghost open: seq<Told>, ghost begin: seq<Told>, ghost close: seq<Told>)
      requires Recorded() && Holds(View(), p) && 0 <= handles[p] < |pipes|
      modifies this`calls, this`told, this`pipes, this`openCount, this`handles, this`resetNeeded
      ensures Recorded() && told == old(told) + open + begin + close && Ran(open, Steps(Open))
      ensures if Well(open, Steps(Open)) then Ran(begin, BeginPlan(list)) else begin == []
      ensures if Well(open, Steps(Open)) && !ok then Ran(close, Steps(Close)) else close == []
      ensures ok <==> Well(begin, BeginPlan(list))
      ensures View() == if ok then old(View()).(openCount := old(openCount) + 1) else Dropped(old(View()), p)
      ensures resetNeeded <==> old(resetNeeded) || CloseFailed(close)
    {
      hide Ran;
      begin, close := [], [];
      NeverWell(list);
      var sent, acked;
      sent, acked, open := Issue(Open);
      if !sent {
        PutHandle(p);
        return false, open, [], [];
      }
      openCount := openCount + 1;
      if !acked {
        openCount := openCount - 1;
        PutHandle(p);
        return false, open, [], [];
      }
      ok, begin := BeginStream(list);
      if ok { return; }
      var closeSent, closed;
      closeSent, closed, close := Issue(Close);
      RanSome(close, Close);
      if !closed { resetNeeded := true; }
      openCount := openCount - 1;
      PutHandle(p);
    }

    /** start_stream_firmware: a handle and an open stream, or neither.  It succeeds
        exactly if a handle was free and nothing it asked for was refused. */
    method StartFirmware(p: nat, list: bool) returns (ok: bool, ghost f: Firmware)
      requires Sound(View()) && Recorded() && p < |handles| && !Holds(View(), p)
      modifies this`calls, this`told, this`pipes, this`openCount, this`handles, this`resetNeeded
      ensures Recorded() && told == old(told) + FirmwareCalls(f)
      ensures FirmwareRan(f, list, FirstFree(old(pipes)) < MAX_STREAMS) && (ok <==> Begun(f, list))
      ensures ok ==> FirstFree(old(pipes)) < MAX_STREAMS && View() == Started(old(View()), p)
      ensures !ok ==> View() == old(View())
      ensures resetNeeded <==> old(resetNeeded) || CloseFailed(f.close)
      ensures ok ==> forall c | old(calls) <= c < calls :: world(c) == Fine
      ensures !ok ==> FirstFree(old(pipes)) == |old(pipes)| || exists c :: old(calls) <= c < calls && world(c) != Fine
    {
      hide Sound, Ran, Well, Steps, AllGood, BeginPlan, Whats, Good, FirstFree;
      SoundParts(View());
      NeverWell(list);
      ghost var free := FirstFree(pipes) < MAX_STREAMS;
      var ready;
      f, ok := NotAsked, false;
      ghost var setup;
      ready, setup := AskTwice(Setup);
      f := f.(setup := setup);
      if ready {
        var got := GetHandle(p);
        if got {
          TakenHolds(old(View()), p);
          DroppedTaken(old(View()), p);
          ghost var open, begin, close;
          ok, open, begin, close := OpenStream(p, list);
          f := Firmware(setup, open, begin, close);
        }
      }
      assert told == old(told) + FirmwareCalls(f);
      FirmwareAnswers(f, list, free);
      AnswersWorld(old(told), FirmwareCalls(f));
    }

    /** What calls were answered is what the world said at their numbers. */
    lemma AnswersWorld(before: seq<Told>, log: seq<Told>)
      requires Recorded() && told == before + log
      ensures (forall k | 0 <= k < |log| :: log[k].answer == Fine) ==> forall c | |before| <= c < calls :: world(c) == Fine
      ensures (exists k :: 0 <= k < |log| && log[k].answer != Fine) ==> exists c :: |before| <= c < calls && world(c) != Fine
    {
      forall k | 0 <= k < |log| ensures log[k].answer == world(|before| + k) { assert told[|before| + k] == log[k]; }
      if forall k | 0 <= k < |log| :: log[k].answer == Fine {
        forall c | |before| <= c < calls ensures world(c) == Fine { assert log[c - |before|].answer == Fine; }
      }
      if exists k :: 0 <= k < |log| && log[k].answer != Fine {
        var k :| 0 <= k < |log| && log[k].answer != Fine;
        assert world(|before| + k) != Fine;
      }
    }

    /** stop_streaming_firmware. */
    method StopFirmware() returns (ok: bool, ghost log: seq<Told>)
      requires Recorded()
      modifies this`calls, this`told, this`resetNeeded
      ensures Recorded() && told == old(told) + log && Ran(log, Steps(Halt)) && (ok <==> Well(log, Steps(Halt)))
      ensures resetNeeded <==> old(resetNeeded) || !ok
    {
      var sent;
      sent, ok, log := Issue(Halt);
      if !ok { resetNeeded := true; }
    }

    /** release_streaming_firmware. */
    method ReleaseFirmware(p: nat)
      requires Holds(View(), p) && 0 <= handles[p] < |pipes|
      modifies this`pipes, this`openCount, this`handles
      ensures View() == Stopped(old(View()), p)
    {
      openCount := openCount - 1;
      PutHandle(p);
    }

    /** close_streaming_firmware: whatever the firmware answers, the handle is given
        up. */
    method CloseFirmware(p: nat) returns (ok: bool, ghost log: seq<Told>)
      requires Recorded() && Holds(View(), p) && 0 <= handles[p] < |pipes|
      modifies this`calls, this`told, this`pipes, this`openCount, this`handles, this`resetNeeded
      ensures Recorded() && told == old(told) + log && Ran(log, Steps(Close)) && (ok <==> Well(log, Steps(Close)))
      ensures View() == Stopped(old(View()), p)
      ensures resetNeeded <==> old(resetNeeded) || !ok
    {
      var sent;
      sent, ok, log := Issue(Close);
      if !ok { resetNeeded := true; }
      openCount := openCount - 1;
      PutHandle(p);
    }

    /** stop_external_sensor: `owner` is whether this pipeline is the one to do it. */
    method StopSensor(owner: bool) returns (ok: bool, ghost log: seq<Told>)
      requires Recorded()
      modifies this`calls, this`told, this`resetNeeded
      ensures Recorded() && told == old(told) + log && Whats(log) == if owner then [Sensor(false)] else []
      ensures ok <==> !SomeFailing(log)
      ensures resetNeeded <==> old(resetNeeded) || !ok
    {
      log := [];
      assert Whats(log) == [];
      if !owner { return true, []; }
      var a := Ask(Sensor(false));
      log := [Told(Sensor(false), a)];
      assert Whats(log) == [Sensor(false)];
      assert log[0].answer == a;
      if a == Failing { resetNeeded := true; }
      ok := a != Failing;
    }

    /** Enables the sub-devices along the pipeline, up to the first that refuses. */
    method EnableAll(walk: seq<nat>) returns (ok: bool, enabled: seq<nat>, ghost log: seq<Told>)
      requires Recorded()
      modifies this`calls, this`told
      ensures Recorded() && told == old(told) + log && Ran(log, Ons(walk)) && (ok <==> Well(log, Ons(walk)))
      ensures Enabled(log) <= |walk| && enabled == walk[..Enabled(log)]
    {
      var tried := 0;
      enabled, log := [], [];
      RanNone();
      assert Ons(walk[..0]) == [];
      while tried < |walk|
        invariant Recorded() && told == old(told) + log && tried == |enabled| == |log| <= |walk| && enabled == walk[..tried]
        invariant Ran(log, Ons(walk[..tried])) && Well(log, Ons(walk[..tried]))
      {
        var a := Ask(On(walk[tried]));
        OnsNext(walk, tried);
        RanMore(log, Ons(walk[..tried]), On(walk[tried]), a);
        log := log + [Told(On(walk[tried]), a)];
        tried := tried + 1;
        if a == Failing {
          RanShort(log, Ons(walk[..tried]), Ons(walk[tried..]));
          OnsJoin(walk, tried);
          return false, enabled, log;
        }
        enabled := enabled + [walk[tried - 1]];
      }
      assert walk[..tried] == walk;
      ok := true;
    }

    /** Walks the pipeline again and stops every sub-device in `which`; what they
        answer only counts for the result. */
    method DisableEach(walk: seq<nat>, which: seq<nat>) returns (ok: bool, ghost log: seq<Told>)
      requires Recorded() && Distinct(walk) && which <= walk
      modifies this`calls, this`told
      ensures Recorded() && told == old(told) + log && Whats(log) == Offs(which)
      ensures ok <==> !SomeFailing(log)
    {
      ok, log := true, [];
      var i := 0;
      assert Offs(walk[..0]) == [] && Whats(log) == [];
      while i < |walk|
        invariant i <= |walk| && Recorded() && told == old(told) + log
        invariant Whats(log) == Offs(walk[..if i < |which| then i else |which|])
        invariant ok <==> !SomeFailing(log)
      {
        PrefixHas(walk, which, i);
        if walk[i] in which {
          var a := Ask(Off(walk[i]));
          OffsNext(walk, i);
          FailingMore(log, Told(Off(walk[i]), a));
          if a == Failing { ok := false; }
          log := log + [Told(Off(walk[i]), a)];
        }
        i := i + 1;
      }
    }

    /** The sensor told to start, if it is this pipeline's to start. */
    method TurnOn(csi2: bool, completes: bool) returns (ok: bool, attempted: bool, ghost log: seq<Told>)
      requires Recorded()
      modifies this`calls, this`told
      ensures Recorded() && told == old(told) + log
      ensures Ran(log, TurnOnPlan(csi2, completes)) && (ok <==> Well(log, TurnOnPlan(csi2, completes)))
      ensures attempted <==> Sensor(true) in Whats(log)
      ensures !csi2 ==> TurnOnPlan(csi2, completes) != []
    {
      RanNone();
      log, attempted, ok := [], false, true;
      if csi2 && !completes { return; }
      ghost var plan: seq<What> := [];
      if csi2 {
        var a := Ask(Receiver);
        RanMore(log, plan, Receiver, a);
        log, plan := [Told(Receiver, a)], [Receiver];
        if a != Fine {
          RanPrefix(log, plan, TurnOnPlan(csi2, completes));
          return false, false, log;
        }
      }
      attempted := true;
      var a := Ask(Sensor(true));
      RanMore(log, plan, Sensor(true), a);
      log := log + [Told(Sensor(true), a)];
      assert Whats(log)[|log| - 1] == Sensor(true);
      ok := a == Fine;
    }

    /** The sensor of a start: a receiver error before it, refused, or reported after it
        fails the start. */
    method StartSensor(csi2: bool, completes: bool) returns (ok: bool, attempted: bool, ghost log: seq<Told>)
      requires Recorded()
      modifies this`calls, this`told
      ensures Recorded() && told == old(told) + log
      ensures Ran(log, SensorPlan(csi2, completes)) && (ok <==> Well(log, SensorPlan(csi2, completes)))
      ensures log != [] && (attempted <==> Sensor(true) in Whats(log))
    {
      hide Ran, Well, Whats, TurnOnPlan;
      ok, attempted, log := TurnOn(csi2, completes);
      ghost var on, twice := TurnOnPlan(csi2, completes), [Receiver, Receiver];
      if !ok {
        RanFrom(log, on);
        RanPrefix(log, on, SensorPlan(csi2, completes));
        return;
      }
      assert on + [] == on;
      if csi2 {
        ghost var rest;
        ok, rest := AskTwice(Receiver);
        RanFrom(rest, twice);
        RanJoin(log, on, rest, twice);
        WhatsJoin(log, rest);
        log := log + rest;
      } else {
        RanFrom(log, on);
      }
    }

    /** Takes down a firmware stream: halted and closed, or only given up. */
    method GiveUp(p: nat) returns (halted: bool, closed: bool, ghost halt: seq<Told>, ghost close: seq<Told>)
      requires Recorded() && Holds(View(), p) && 0 <= handles[p] < |pipes|
      modifies this`calls, this`told, this`pipes, this`openCount, this`handles, this`resetNeeded
      ensures Recorded() && told == old(told) + halt + close && FirmwareGone(halt, close) && halt != []
      ensures View() == Stopped(old(View()), p)
      ensures resetNeeded <==> old(resetNeeded) || HaltFailed(halt) || CloseFailed(close)
    {
      close, closed := [], true;
      halted, halt := StopFirmware();
      RanSome(halt, Halt);
      if halted {
        closed, close := CloseFirmware(p);
        RanSome(close, Close);
      } else {
        ReleaseFirmware(p);
      }
    }

    /** The firmware stream and the sensor of a start: both, or neither. */
    method StartCamera(p: nat, list: bool, csi2: bool, completes: bool) returns (ok: bool, attempted: bool, ghost s: Calls)
      requires Sound(View()) && Recorded() && p < |handles| && !Holds(View(), p)
      modifies this`calls, this`told, this`pipes, this`openCount, this`handles, this`resetNeeded
      ensures Sound(View()) && Recorded() && told == old(told) + AllCalls(s)
      ensures s.init == [] && s.ons == [] && s.quiet == [] && s.offs == []
      ensures CameraRan(s, list, csi2, completes, FirstFree(old(pipes)) < MAX_STREAMS)
      ensures ok <==> Succeeded(s, list, csi2, completes)
      ensures attempted <==> Sensor(true) in Whats(s.sensor)
      ensures ok ==> FirstFree(old(pipes)) < MAX_STREAMS && View() == Started(old(View()), p)
      ensures !ok ==> View() == old(View())
      ensures resetNeeded <==> old(resetNeeded) || StartResets(s)
    {
      hide Sound, Holds, Ran, Well, FirmwareRan, FirmwareGone, CloseFailed, HaltFailed, CameraRan, AllCalls, Whats, SensorPlan, TurnOnPlan;
      hide Succeeded, StartResets;
      ghost var free := FirstFree(pipes) < MAX_STREAMS;
      attempted := false;
      NothingFailed();
      ghost var f, sensor, halt, close := NotAsked, [], [], [];
      ok, f := StartFirmware(p, list);
      s := Calls([], [], f, [], [], [], [], []);
      CameraParts(s, list, csi2, completes, free);
      if !ok { return; }
      StartedSound(old(View()), p);
      SoundHandle(View(), p);
      ok, attempted, sensor := StartSensor(csi2, completes);
      s := Calls([], [], f, sensor, [], [], [], []);
      CameraParts(s, list, csi2, completes, free);
      if ok { return; }
      StopUndoesStart(old(View()), p);
      var halted, closed;
      halted, closed, halt, close := GiveUp(p);
      s := Calls([], [], f, sensor, halt, close, [], []);
      CameraParts(s, list, csi2, completes, free);
    }

    /** The sub-devices of a start: all of them, or none beyond the first that refuses. */
    method StartDevices(walk: seq<nat>) returns (ok: bool, enabled: seq<nat>, ghost init: seq<Told>, ghost ons: seq<Told>)
      requires Recorded()
      modifies this`calls, this`told
      ensures Recorded() && told == old(told) + init + ons && DevicesRan(init, ons, walk)
      ensures ok <==> Well(init, [Walk, Walk]) && Well(ons, Ons(walk))
      ensures enabled == walk[..Enabled(ons)]
    {
      enabled, ons := [], [];
      ok, init := AskTwice(Walk);
      if ok { ok, enabled, ons := EnableAll(walk); }
    }

    /** The end of a failed start: the sensor, if it was asked to start, and every enabled
        sub-device are told to stop. */
    method StopDevices(attempted: bool, owner: bool, walk: seq<nat>, enabled: seq<nat>)
        returns (ghost quiet: seq<Told>, ghost offs: seq<Told>)
      requires Recorded() && Distinct(walk) && enabled <= walk
      modifies this`calls, this`told, this`resetNeeded
      ensures Recorded() && told == old(told) + quiet + offs
      ensures Whats(quiet) == (if attempted && owner then [Sensor(false)] else []) && Whats(offs) == Offs(enabled)
      ensures resetNeeded <==> old(resetNeeded) || SomeFailing(quiet)
    {
      quiet := [];
      assert Whats(quiet) == [];
      if attempted {
        var calm;
        calm, quiet := StopSensor(owner);
      }
      var all;
      all, offs := DisableEach(walk, enabled);
    }

    /** ipu_isys_video_set_streaming(1): the pipeline streams with a handle of its own
        and every sub-device enabled, or nothing it took is left.  It succeeds exactly if
        a handle was free and none of its calls was refused. */
    method StartStreaming(p: nat, walk: seq<nat>, list: bool, csi2: bool, completes: bool, last: bool)
      returns (ok: bool, ghost s: Calls)
      requires Sound(View()) && Recorded() && p < |handles| && !Holds(View(), p) && Distinct(walk)
      modifies this
      ensures Sound(View()) && Recorded() && told == old(told) + AllCalls(s)
      ensures StartRan(s, walk, list, csi2, completes, last, FirstFree(old(pipes)) < MAX_STREAMS)
      ensures ok <==> Succeeded(s, list, csi2, completes)
      ensures ok ==> View() == Started(old(View()), p) && AllGood(AllCalls(s))
      ensures !ok ==> View() == old(View()) && (old(openCount) == MAX_STREAMS || !AllGood(AllCalls(s)))
      ensures old(openCount) == MAX_STREAMS ==> !ok
      ensures resetNeeded <==> old(resetNeeded) || StartResets(s)
    {
      hide Sound, Holds, Distinct, Ran, Well, FirmwareRan, FirmwareGone, StartResets, StartRan, DevicesRan, CameraRan, Succeeded, AllCalls;
      hide AllGood, Whats, Ons, Offs, SomeFailing;
      FreeWhileFewer(View());
      ghost var free := FirstFree(pipes) < MAX_STREAMS;
      ghost var camera := Calls([], [], NotAsked, [], [], [], [], []);
      ghost var init, ons, quiet, offs := [], [], [], [];
      NothingAsked(list, csi2, completes, walk);
      var attempted := false;
      var ready, enabled;
      ready, enabled, init, ons := StartDevices(walk);
      ok := false;
      if ready { ok, attempted, camera := StartCamera(p, list, csi2, completes); }
      if !ok { quiet, offs := StopDevices(attempted, !csi2 || last, walk, enabled); }
      s := camera.(init := init, ons := ons, quiet := quiet, offs := offs);
      CallsJoin(camera, s);
      ToldJoin(old(told), init, ons, AllCalls(camera), quiet, offs);
      assert old(told) + init + ons + [] == old(told) + init + ons;
      StartParts(camera, s, walk, list, csi2, completes, last, free);
      StartAnswers(s, walk, list, csi2, completes, last, free);
    }

    /** ipu_isys_video_set_streaming(0): the firmware stream is halted and closed, the
        handle given up, the sensor and every sub-device told to stop once, whatever
        fails; it succeeds exactly if nothing did. */
    method StopStreaming(p: nat, walk: seq<nat>, csi2: bool, last: bool)
        returns (ok: bool, ghost halt: seq<Told>, ghost quiet: seq<Told>, ghost offs: seq<Told>, ghost close: seq<Told>)
      requires Sound(View()) && Recorded() && Holds(View(), p) && Distinct(walk)
      modifies this
      ensures Sound(View()) && Holds(old(View()), p) && View() == Stopped(old(View()), p)
      ensures Recorded() && told == old(told) + halt + quiet + offs + close
      ensures FirmwareGone(halt, close)
      ensures Whats(quiet) == (if !csi2 || last then [Sensor(false)] else []) && Whats(offs) == Offs(walk)
      ensures ok <==> !HaltFailed(halt) && !CloseFailed(close) && !SomeFailing(quiet) && !SomeFailing(offs)
      ensures resetNeeded <==> old(resetNeeded) || HaltFailed(halt) || CloseFailed(close) || SomeFailing(quiet)
    {
      hide Sound, Distinct, SomeFailing, Ran, Well;
      SoundHandle(View(), p);
      StoppedSound(View(), p);
      ok, close := true, [];
      var closing := true;
      var stopped;
      stopped, halt := StopFirmware();
      RanSome(halt, Halt);
      if !stopped {
        ok := false;
        ReleaseFirmware(p);
        closing := false;
      }
      var sensor, all;
      sensor, quiet := StopSensor(!csi2 || last);
      if !sensor { ok := false; }
      assert walk[..|walk|] == walk;
      all, offs := DisableEach(walk, walk);
      if !all { ok := false; }
      if closing {
        var closed;
        closed, close := CloseFirmware(p);
        RanSome(close, Close);
        if !closed { ok := false; }
      }
    }
  }

  lemma CameraParts(s: Calls, list: bool, csi2: bool, completes: bool, free: bool)
    requires s.init == [] && s.ons == [] && s.quiet == [] && s.offs == [] && FirmwareRan(s.firmware, list, free)
    requires if Begun(s.firmware, list) then s.sensor == [] || Ran(s.sensor, SensorPlan(csi2, completes)) else s.sensor == []
    requires if s.halt == [] then s.close == []
             else Begun(s.firmware, list) && !Well(s.sensor, SensorPlan(csi2, completes)) && FirmwareGone(s.halt, s.close)
    ensures AllCalls(s) == FirmwareCalls(s.firmware) + s.sensor + s.halt + s.close
    ensures s.sensor == [] ==> Sensor(true) !in Whats(s.sensor)
    ensures StartResets(s) <==> CloseFailed(s.firmware.close) || HaltFailed(s.halt) || CloseFailed(s.close)
    ensures Succeeded(s, list, csi2, completes) <==> Begun(s.firmware, list) && Well(s.sensor, SensorPlan(csi2, completes))
    ensures !Well([], SensorPlan(csi2, completes))
    ensures CameraRan(s, list, csi2, completes, free) <==>
              && (Begun(s.firmware, list) ==> s.sensor != [])
              && (Begun(s.firmware, list) && !Succeeded(s, list, csi2, completes) ==> s.halt != [])
  {
    hide FirmwareRan, FirmwareCalls, AllCalls, SensorPlan, Steps, Ran, Well, Whats, Begun;
    CameraCalls(s);
    PlanSome(csi2, completes);
    NothingFailed();
  }

  lemma CameraCalls(s: Calls)
    requires s.init == [] && s.ons == [] && s.quiet == [] && s.offs == []
    ensures AllCalls(s) == FirmwareCalls(s.firmware) + s.sensor + s.halt + s.close
  {
    hide FirmwareCalls;
  }

  lemma PlanSome(csi2: bool, completes: bool)
    ensures !Well([], SensorPlan(csi2, completes)) && !Ran([], SensorPlan(csi2, completes)) && !Ran([], Steps(Halt))
    ensures Whats([]) == []
  {}

  lemma CommandRan(c: Cmd, log: seq<Told>)
    requires 1 <= |log| <= 3 && (forall k | 0 <= k < |log| :: log[k].what == Command(c, k))
    requires forall k | 0 <= k < |log| - 1 :: log[k].answer == Fine
    ensures (|log| == 3 || log[|log| - 1].answer != Fine) ==> Ran(log, Steps(c))
    ensures Well(log, Steps(c)) <==> |log| == 3 && log[2].answer == Fine
  {
    assert Whats(log) == Steps(c)[..|log|];
  }

  /** Calls for which nothing was asked did not go well, unless there was nothing to ask. */
  lemma NeverWell(list: bool)
    ensures !Well([], [Setup, Setup]) && !Well([], [Walk, Walk]) && !Well([], Steps(Open)) && !Well([], BeginPlan(list))
    ensures !CloseFailed([]) && !HaltFailed([]) && !SomeFailing([])
  {}

  lemma NothingFailed()
    ensures !CloseFailed([]) && !HaltFailed([]) && !SomeFailing([])
    ensures !StartResets(Calls([], [], NotAsked, [], [], [], [], []))
  {
    hide Steps;
  }

  lemma RanSome(log: seq<Told>, c: Cmd)
    requires Ran(log, Steps(c))
    ensures log != []
  {}

  lemma RanJoin(a: seq<Told>, p: seq<What>, b: seq<Told>, q: seq<What>)
    requires Ran(a, p) && Well(a, p) && Ran(b, q)
    ensures Ran(a + b, p + q) && (Well(a + b, p + q) <==> Well(b, q))
  {
    assert Whats(a + b) == Whats(a) + Whats(b);
    assert p[..|a|] == p && (p + q)[..|a| + |b|] == p + q[..|b|];
    AllGoodJoin(a, b);
    if b != [] { assert (a + b)[|a + b| - 1] == b[|b| - 1]; }
  }

  lemma RanFrom(log: seq<Told>, plan: seq<What>)
    requires Ran(log, plan)
    ensures plan != [] || !Well(log, plan) ==> log != []
    ensures forall w | w in Whats(log) :: w in plan
  {}

  lemma WhatsJoin(a: seq<Told>, b: seq<Told>)
    ensures forall w :: w in Whats(a + b) <==> w in Whats(a) || w in Whats(b)
  {
    assert Whats(a + b) == Whats(a) + Whats(b);
  }

  lemma RanPrefix(log: seq<Told>, plan: seq<What>, whole: seq<What>)
    requires Ran(log, plan) && !Well(log, plan) && plan <= whole
    ensures Ran(log, whole) && !Well(log, whole)
  {
    RanShort(log, plan, whole[|plan|..]);
    assert plan + whole[|plan|..] == whole;
  }

  lemma FailingMore(log: seq<Told>, t: Told)
    ensures SomeFailing(log + [t]) <==> SomeFailing(log) || t.answer == Failing
    ensures Whats(log + [t]) == Whats(log) + [t.what]
  {
    var more := log + [t];
    if SomeFailing(log) {
      var k :| 0 <= k < |log| && log[k].answer == Failing;
      assert more[k].answer == Failing;
    }
    assert more[|log|] == t;
  }

  /** A firmware start goes well exactly if a handle was free and every answer was good. */
  lemma FirmwareAnswers(f: Firmware, list: bool, free: bool)
    requires FirmwareRan(f, list, free)
    ensures Begun(f, list) ==> free && forall k | 0 <= k < |FirmwareCalls(f)| :: FirmwareCalls(f)[k].answer == Fine
    ensures !Begun(f, list) && free ==> exists k :: 0 <= k < |FirmwareCalls(f)| && FirmwareCalls(f)[k].answer != Fine
  {
    var log := FirmwareCalls(f);
    FirmwareGood(f);
    if Begun(f, list) {
      assert AllGood(f.close);
      forall k | 0 <= k < |log| ensures log[k].answer == Fine { FirmwareNoOn(f, list, free, k); }
    } else if free {
      var k :| 0 <= k < |log| && !Good(log[k]);
      assert log[k].answer != Fine;
    }
  }

  lemma FirmwareNoOn(f: Firmware, list: bool, free: bool, k: nat)
    requires FirmwareRan(f, list, free) && k < |FirmwareCalls(f)|
    ensures !FirmwareCalls(f)[k].what.On?
  {
    hide FirmwareRan;
    var w := FirmwareCalls(f)[k].what;
    assert Whats(FirmwareCalls(f))[k] == w;
    assert w in multiset(Whats(FirmwareCalls(f)));
    if w.On? { FirmwareTimes(f, list, free, w); }
  }

  /** Before anything was asked. */
  lemma NothingAsked(list: bool, csi2: bool, completes: bool, walk: seq<nat>)
    ensures var s := Calls([], [], NotAsked, [], [], [], [], []);
            && AllCalls(s) == [] && !Succeeded(s, list, csi2, completes) && !StartResets(s)
    ensures Whats([]) == [] && Sensor(true) !in Whats([]) && !SomeFailing([])
    ensures Enabled([]) == 0 && walk[..0] == [] && Offs([]) == []
  {
    NothingFailed();
    NoCalls();
    hide AllCalls, StartResets;
    assert !Begun(NotAsked, list);
  }

  lemma NoCalls()
    ensures AllCalls(Calls([], [], NotAsked, [], [], [], [], [])) == []
  {
    var none: seq<Told> := [];
    assert none + none == none;
    assert FirmwareCalls(NotAsked) == none;
  }

  lemma CallsJoin(camera: Calls, s: Calls)
    requires camera.init == [] && camera.ons == [] && camera.quiet == [] && camera.offs == []
    requires s == camera.(init := s.init, ons := s.ons, quiet := s.quiet, offs := s.offs)
    ensures AllCalls(s) == s.init + s.ons + AllCalls(camera) + s.quiet + s.offs
    ensures StartResets(s) <==> StartResets(camera) || SomeFailing(s.quiet)
  {}

  lemma StartParts(camera: Calls, s: Calls, walk: seq<nat>, list: bool, csi2: bool, completes: bool, last: bool, free: bool)
    requires Enabled(s.ons) <= |walk|
    requires Whats(s.offs) == if Succeeded(camera, list, csi2, completes) then [] else Offs(walk[..Enabled(s.ons)])
    requires s == camera.(init := s.init, ons := s.ons, quiet := s.quiet, offs := s.offs)
    requires DevicesRan(s.init, s.ons, walk)
    requires if Well(s.init, [Walk, Walk]) && Well(s.ons, Ons(walk)) then CameraRan(camera, list, csi2, completes, free)
             else camera == Calls([], [], NotAsked, [], [], [], [], [])
    requires Whats(s.quiet) == if !Succeeded(camera, list, csi2, completes) && Sensor(true) in Whats(camera.sensor) && (!csi2 || last)
                               then [Sensor(false)] else []
    ensures StartRan(s, walk, list, csi2, completes, last, free)
    ensures Succeeded(s, list, csi2, completes) <==> Succeeded(camera, list, csi2, completes)
  {
    hide FirmwareRan, FirmwareGone, DevicesRan, Ran, Well, BeginPlan, SensorPlan, TurnOnPlan, Steps, Whats, Ons, Offs, Enabled, Succeeded;
    SameEnd(camera, s, list, csi2, completes);
    NeverWell(list);
    assert !Begun(NotAsked, list);
  }

  lemma SameEnd(camera: Calls, s: Calls, list: bool, csi2: bool, completes: bool)
    requires s == camera.(init := s.init, ons := s.ons, quiet := s.quiet, offs := s.offs)
    ensures Succeeded(s, list, csi2, completes) <==> Succeeded(camera, list, csi2, completes)
    ensures camera.firmware == NotAsked ==> !Succeeded(camera, list, csi2, completes)
  {
    NeverWell(list);
    hide Well;
  }

  lemma ToldJoin(before: seq<Told>, init: seq<Told>, ons: seq<Told>, camera: seq<Told>, quiet: seq<Told>, offs: seq<Told>)
    ensures before + (init + ons + camera + quiet + offs) == (((before + init + ons) + camera) + quiet) + offs
  {}

  lemma OnsJoin(walk: seq<nat>, i: nat)
    requires i <= |walk|
    ensures Ons(walk[..i]) + Ons(walk[i..]) == Ons(walk)
  {}

  lemma {:induction false} NoneOccupied(pipes: seq<int>)
    requires forall h | 0 <= h < |pipes| :: pipes[h] == NONE
    ensures Occupied(pipes) == 0
  {
    if pipes != [] { NoneOccupied(pipes[..|pipes| - 1]); }
  }

  lemma SoundParts(s: State)
    requires Sound(s)
    ensures |s.pipes| == MAX_STREAMS
  {}

  lemma SoundHandle(s: State, p: nat)
    requires Sound(s) && Holds(s, p)
    ensures |s.pipes| == MAX_STREAMS && 0 <= s.handles[p] < MAX_STREAMS
  {}

  lemma TakenHolds(s: State, p: nat)
    requires p < |s.handles| && FirstFree(s.pipes) < |s.pipes|
    ensures Holds(Taken(s, p), p) && 0 <= Taken(s, p).handles[p] < |Taken(s, p).pipes|
  {}

  lemma DroppedTaken(s: State, p: nat)
    requires p < |s.handles| && FirstFree(s.pipes) < |s.pipes| && s.handles[p] == NONE
    ensures Holds(Taken(s, p), p) && Dropped(Taken(s, p), p) == s
  {
    var h := FirstFree(s.pipes);
    assert s.pipes[h := p][h := NONE] == s.pipes;
    assert s.handles[p := h][p := NONE] == s.handles;
  }

  lemma OnsNext(walk: seq<nat>, i: nat)
    requires i < |walk|
    ensures Ons(walk[..i + 1]) == Ons(walk[..i]) + [On(walk[i])]
  {}

  lemma OffsNext(walk: seq<nat>, i: nat)
    requires i < |walk|
    ensures Offs(walk[..i + 1]) == Offs(walk[..i]) + [Off(walk[i])]
  {}

  lemma PrefixHas(walk: seq<nat>, which: seq<nat>, i: nat)
    requires Distinct(walk) && which <= walk && i < |walk|
    ensures walk[i] in which <==> i < |which|
  {}
}
