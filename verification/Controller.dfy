/** The camera controller of cbridge/controller.c: one capture, one filler per
    camera, WirePlumber ownership, debounce, close grace and retry backoff.

    Every operation of the operations table is a call to the outside, answered
    by an arbitrary `World`.  The n-th call gets reply `w(n)`, so a statement for
    every `World` is a statement for every pattern of failures and clock values.
    `Env` records what the outside can observe of those calls.
 */
module Controller {
  import opened Common

  const OPEN_DEBOUNCE_MS := 450
  const CLOSE_GRACE_MS := 1500
  const RETRY_BASE_MS := 2000
  const RETRY_MAX_MS := 30000

  datatype Camera = Front | Rear

  /** A camera, or CAMERA_NONE. */
  datatype CameraKey = Nobody | Key(camera: Camera)

  datatype State = Idle | Starting | Streaming | Stopping | RetryWait

  /** A running pipeline as backend_start handed it out; `id` is the call that made it. */
  datatype Handle = Handle(id: nat, camera: Camera, filler: bool)

  datatype Slot = Empty | Holding(handle: Handle)

  datatype Fillers = Fillers(front: Slot, rear: Slot) {
    function At(c: Camera): Slot { if c.Front? then front else rear }
    function With(c: Camera, v: Slot): Fillers { if c.Front? then Fillers(v, rear) else Fillers(front, v) }
  }

  datatype Times = Times(front: nat, rear: nat) {
    function At(c: Camera): nat { if c.Front? then front else rear }
    function With(c: Camera, v: nat): Times { if c.Front? then Times(v, rear) else Times(front, v) }
  }

  datatype Counts = Counts(front: int, rear: int) {
    function At(c: Camera): int { if c.Front? then front else rear }
    function With(c: Camera, v: int): Counts { if c.Front? then Counts(v, rear) else Counts(front, v) }
  }

  datatype WpStop = AlreadyInactive | Stopped | StopFailed

  datatype Reply = Reply(now: nat, ok: bool, poll: int, front: bool, rear: bool, wp: WpStop)

  type World = nat -> Reply

  /** One reading of the consumer mask.  `time` is the clock value the tick works
      with, `active` the camera streaming when the mask was read. */
  datatype Sample = Sample(time: nat, front: bool, rear: bool, active: CameraKey) {
    predicate Wants(c: Camera) { if c.Front? then front else rear }
  }

  /** What the operations table has seen: how many pipelines are started and not
      yet freed on each camera, call counts, whether a pipeline was ever started on a
      camera that already had one, and whether a restart of WirePlumber has been
      refused since it was last stopped. */
  datatype Env = Env(
    calls: nat,
    live: Counts,
    starts: nat,
    frees: nat,
    wpStops: nat,
    wpRestarts: nat,
    captureStops: seq<Handle>,
    captureStarts: seq<Camera>,
    producerFailures: nat,
    samples: seq<Sample>,
    overlap: bool,
    restartRefused: bool)

  datatype Model = Model(
    state: State,
    active: CameraKey,
    candidate: CameraKey,
    pending: CameraKey,
    candidateSince: nat,
    idleSince: nat,
    captureRetryAfter: Times,
    fillerRetryAfter: Times,
    captureRetryExponent: Times,
    fillerRetryExponent: Times,
    capture: Slot,
    filler: Fillers,
    wireplumberStopped: bool,
    env: Env)

  datatype Outcome = Outcome(m: Model, ok: bool)
  datatype Opened = Opened(m: Model, slot: Slot)
  datatype Asked = Asked(m: Model, requested: CameraKey)

  // ---------------------------------------------------------------- calls

  function Called(m: Model): Model { m.(env := m.env.(calls := m.env.calls + 1)) }

  function Answer(m: Model, w: World): Reply { w(m.env.calls) }

  function Other(c: Camera): Camera { if c.Front? then Rear else Front }

  /** backend_start. */
  function BackendStart(m: Model, c: Camera, filler: bool, w: World): Opened {
    var e := m.env.(overlap := m.env.overlap || m.env.live.At(c) > 0,
                    captureStarts := if filler then m.env.captureStarts else m.env.captureStarts + [c],
                    calls := m.env.calls + 1);
    if Answer(m, w).ok
    then Opened(m.(env := e.(live := e.live.With(c, e.live.At(c) + 1), starts := e.starts + 1)),
          Holding(Handle(m.env.calls, c, filler)))
    else Opened(m.(env := e), Empty)
  }

  /** backend_stop, then backend_free when the stop succeeded. */
  function BackendStopFree(m: Model, h: Handle, w: World): Outcome {
    var e := m.env.(captureStops := if h.filler then m.env.captureStops else m.env.captureStops + [h],
                    calls := m.env.calls + 1);
    if Answer(m, w).ok
    then Outcome(m.(env := e.(live := e.live.With(h.camera, e.live.At(h.camera) - 1), frees := e.frees + 1)), true)
    else Outcome(m.(env := e), false)
  }

  // ---------------------------------------------------------------- retry bookkeeping

  function RetryDelay(exponent: nat): nat {
    var shift := if exponent > 4 then 4 else exponent;
    var delay := RETRY_BASE_MS * [1, 2, 4, 8, 16][shift];
    if delay > RETRY_MAX_MS then RETRY_MAX_MS else delay
  }

  function NextExponent(exponent: nat): nat { if exponent < 5 then exponent + 1 else exponent }

  function ScheduleCaptureRetry(m: Model, c: Camera, w: World): Model {
    Called(m).(captureRetryAfter := m.captureRetryAfter.With(c, Answer(m, w).now + RetryDelay(m.captureRetryExponent.At(c))),
               captureRetryExponent := m.captureRetryExponent.With(c, NextExponent(m.captureRetryExponent.At(c))))
  }

  function ScheduleFillerRetry(m: Model, c: Camera, w: World): Model {
    Called(m).(fillerRetryAfter := m.fillerRetryAfter.With(c, Answer(m, w).now + RetryDelay(m.fillerRetryExponent.At(c))),
               fillerRetryExponent := m.fillerRetryExponent.With(c, NextExponent(m.fillerRetryExponent.At(c))))
  }

  function ClearCaptureRetry(m: Model, c: Camera): Model {
    m.(captureRetryAfter := m.captureRetryAfter.With(c, 0),
       captureRetryExponent := m.captureRetryExponent.With(c, 0))
  }

  function ClearFillerRetry(m: Model, c: Camera): Model {
    m.(fillerRetryAfter := m.fillerRetryAfter.With(c, 0),
       fillerRetryExponent := m.fillerRetryExponent.With(c, 0))
  }

  // ---------------------------------------------------------------- controller operations

  function StopFiller(m: Model, c: Camera, w: World): Outcome {
    if m.filler.At(c).Empty? then Outcome(m, true)
    else
      var Outcome(m1, ok) := BackendStopFree(m, m.filler.At(c).handle, w);
      if ok then Outcome(m1.(filler := m1.filler.With(c, Empty)), true) else Outcome(m1, false)
  }

  function StopCaptureHandle(m: Model, w: World): Outcome {
    if m.capture.Empty? then Outcome(m, true)
    else
      var Outcome(m1, ok) := BackendStopFree(m, m.capture.handle, w);
      if ok then Outcome(m1.(capture := Empty), true) else Outcome(m1, false)
  }

  function StartFiller(m: Model, c: Camera, w: World): Model {
    if m.filler.At(c).Holding? then m
    else if Answer(m, w).now < m.fillerRetryAfter.At(c) then Called(m)
    else
      var Opened(m1, h) := BackendStart(Called(Called(m)), c, true, w);
      if h.Empty? then ScheduleFillerRetry(m1, c, w)
      else ClearFillerRetry(m1.(filler := m1.filler.With(c, h)), c)
  }

  function PollFiller(m: Model, c: Camera, w: World): Model {
    if m.filler.At(c).Empty? then m
    else if Answer(m, w).poll == 0 then Called(m)
    else ScheduleFillerRetry(StopFiller(Called(m), c, w).m, c, w)
  }

  function RestoreWireplumber(m: Model, w: World): Outcome {
    if !m.wireplumberStopped then Outcome(m, true)
    else if !Answer(m, w).ok then Outcome(Called(m).(env := Called(m).env.(restartRefused := true)), false)
    else
      var m1 := Called(m);
      Outcome(m1.(wireplumberStopped := false, env := m1.env.(wpRestarts := m1.env.wpRestarts + 1)), true)
  }

  function StopWireplumber(m: Model, w: World): Outcome {
    var m1 := Called(m);
    match Answer(m, w).wp
    case StopFailed => Outcome(m1, false)
    case AlreadyInactive => Outcome(m1.(wireplumberStopped := false), true)
    case Stopped => Outcome(m1.(wireplumberStopped := true, env := m1.env.(wpStops := m1.env.wpStops + 1, restartRefused := false)), true)
  }

  function StopCapture(m: Model, retry: Camera, w: World): Outcome {
    var Outcome(m1, ok) := StopCaptureHandle(m, w);
    if ok then Outcome(m1, true) else Outcome(ScheduleCaptureRetry(m1, retry, w), false)
  }

  /** The exits of start_capture that leave the camera to its filler. */
  function GiveUpStart(m: Model, c: Camera, w: World): Model {
    StartFiller(m, c, w).(state := RetryWait)
  }

  /** The same after WirePlumber had been taken. */
  function AbandonStart(m: Model, c: Camera, w: World): Model {
    GiveUpStart(RestoreWireplumber(ScheduleCaptureRetry(m, c, w), w).m, c, w)
  }

  function OpenCapture(m: Model, c: Camera, w: World): Outcome {
    var queried := Called(m);
    if !Answer(m, w).ok
    then Outcome(AbandonStart(queried, c, w), false)
    else
      var Opened(m1, h) := BackendStart(queried, c, false, w);
      if h.Empty?
      then Outcome(AbandonStart(m1, c, w), false)
      else Outcome(ClearCaptureRetry(m1.(capture := h, active := Key(c), pending := Nobody, state := Streaming), c), true)
  }

  function TakeWireplumber(m: Model, c: Camera, w: World): Outcome {
    var Outcome(m1, taken) := StopWireplumber(m, w);
    if !taken then Outcome(GiveUpStart(ScheduleCaptureRetry(m1, c, w), c, w), false)
    else OpenCapture(m1, c, w)
  }

  function RenewWireplumber(m: Model, c: Camera, w: World): Outcome {
    var Outcome(m1, restored) := RestoreWireplumber(m, w);
    if !restored then Outcome(GiveUpStart(ScheduleCaptureRetry(m1, c, w), c, w), false)
    else TakeWireplumber(m1, c, w)
  }

  function StartCapture(m: Model, c: Camera, w: World): Outcome {
    var Outcome(m1, stopped) := StopFiller(m.(state := Starting), c, w);
    if !stopped then Outcome(ScheduleCaptureRetry(m1, c, w).(state := RetryWait), false)
    else RenewWireplumber(m1, c, w)
  }

  function Requested(active: CameraKey, front: bool, rear: bool): CameraKey {
    if active.Key? && (if active.camera.Front? then front else rear) then active
    else if rear then Key(Rear)
    else if front then Key(Front)
    else Nobody
  }

  /** Difference of two 64-bit clock readings, as unsigned subtraction gives it. */
  function Elapsed(now: nat, since: nat): int {
    if now >= since then now - since else now - since + 0x1_0000_0000_0000_0000
  }

  function FinishTransition(m: Model, target: CameraKey, w: World): Outcome {
    if target.Nobody? then Outcome(m.(pending := Nobody, state := Idle), true)
    else StartCapture(m, target.camera, w)
  }

  /** The part of a transition after the old capture is gone. */
  function Resume(m: Model, target: CameraKey, retry: Camera, w: World): Outcome {
    var Outcome(m1, restored) := RestoreWireplumber(m, w);
    if !restored then Outcome(ScheduleCaptureRetry(m1, retry, w).(state := RetryWait), false)
    else FinishTransition(m1, target, w)
  }

  function Transition(m: Model, target: CameraKey, w: World): Outcome {
    var m0 := m.(state := Stopping, pending := target);
    if m.active.Nobody? then FinishTransition(m0, target, w)
    else
      var was := m.active.camera;
      var retry := if target.Key? then target.camera else was;
      var Outcome(m1, stopped) := StopCapture(m0, retry, w);
      if !stopped then Outcome(m1.(state := RetryWait), false)
      else Resume(StartFiller(ClearCaptureRetry(m1.(active := Nobody), was), was, w), target, retry, w)
  }

  function CaptureFailed(m: Model, w: World): Model
    requires m.active.Key?
  {
    var failed := m.active.camera;
    var Outcome(m1, stopped) := StopCapture(m, failed, w);
    if !stopped then m1.(state := RetryWait)
    else
      var m2 := StartFiller(m1.(active := Nobody), failed, w);
      ScheduleCaptureRetry(RestoreWireplumber(m2, w).m, failed, w).(state := RetryWait)
  }

  function TendFiller(m: Model, c: Camera, w: World): Model {
    var m1 := PollFiller(m, c, w);
    if m1.active == Key(c) then m1 else StartFiller(m1, c, w)
  }

  /** The part of a tick after the consumer mask has been read. */
  function Decide(m: Model, requested: CameraKey, current: nat, w: World): Outcome {
    if requested.Nobody? then
      var m1 := m.(candidate := Nobody);
      if m1.active.Nobody? then
        var m2 := m1.(idleSince := 0);
        if m2.state == RetryWait && m2.pending.Key? then Outcome(m2, true) else Outcome(m2.(state := Idle), true)
      else
        var m2 := if m1.idleSince == 0 then m1.(idleSince := current) else m1;
        if Elapsed(current, m2.idleSince) >= CLOSE_GRACE_MS && (m2.state == Streaming || m2.state == RetryWait)
        then Transition(m2, Nobody, w)
        else Outcome(m2, true)
    else
      var m1 := m.(idleSince := 0);
      var m2 := if requested != m1.candidate then m1.(candidate := requested, candidateSince := current) else m1;
      if requested == m2.active && m2.state == Streaming then Outcome(m2, true)
      else if current < m2.captureRetryAfter.At(requested.camera) then Outcome(m2, true)
      else if requested != m2.active && Elapsed(current, m2.candidateSince) < OPEN_DEBOUNCE_MS then Outcome(m2, true)
      else Transition(m2, requested, w)
  }

  function ReadMask(m: Model, current: nat, w: World): Asked {
    var r := Answer(m, w);
    var m1 := Called(m);
    Asked(m1.(env := m1.env.(samples := m1.env.samples + [Sample(current, r.front, r.rear, m.active)])),
          Requested(m.active, r.front, r.rear))
  }

  function SampleAndDecide(m: Model, current: nat, w: World): Outcome {
    var Asked(m1, requested) := ReadMask(m, current, w);
    Decide(m1, requested, current, w)
  }

  /** camera_controller_tick; the flag says whether it returned 0.  A live
      capture always has an active camera (see `Ledger`), so the last test of the
      first guard is only there to make the function total. */
  function Tick(m: Model, w: World): Outcome {
    var current := Answer(m, w).now;
    var m1 := TendFiller(TendFiller(Called(m), Front, w), Rear, w);
    if m1.capture.Holding? && m1.state == Streaming && m1.active.Key? then
      var result := Answer(m1, w).poll;
      var m2 := Called(m1);
      if result != 0
      then Outcome(CaptureFailed(m2.(env := m2.env.(producerFailures := m2.env.producerFailures + 1)), w), result > 0)
      else SampleAndDecide(m2, current, w)
    else SampleAndDecide(m1, current, w)
  }

  const Boot: Model :=
    Model(Idle, Nobody, Nobody, Nobody, 0, 0, Times(0, 0), Times(0, 0), Times(0, 0), Times(0, 0),
          Empty, Fillers(Empty, Empty), false,
          Env(0, Counts(0, 0), 0, 0, 0, 0, [], [], 0, [], false, false))

  function New(w: World): Model { StartFiller(StartFiller(Boot, Front, w), Rear, w) }

  function Shutdown(m: Model, w: World): Outcome {
    var Outcome(m1, a) := StopCaptureHandle(m, w);
    var Outcome(m2, b) := StopFiller(m1, Front, w);
    var Outcome(m3, c) := StopFiller(m2, Rear, w);
    var Outcome(m4, d) := RestoreWireplumber(m3, w);
    Outcome(m4.(active := Nobody, state := Idle), a && b && c && d)
  }

  // ---------------------------------------------------------------- conservation

  function Running(m: Model, c: Camera): nat {
    One(m.filler.At(c).Holding?) + One(m.capture.Holding? && m.active == Key(c))
  }

  /** Books that hold after every single operation: the handles the controller
      holds are exactly the running pipelines, one per camera at most. */
  ghost predicate Ledger(m: Model) {
    && m.env.live == Counts(Running(m, Front), Running(m, Rear))
    && (m.capture.Holding? ==>
          && m.active == Key(m.capture.handle.camera) && !m.capture.handle.filler
          && m.filler.At(m.capture.handle.camera).Empty?)
    && (m.filler.front.Holding? ==> m.filler.front.handle.filler && m.filler.front.handle.camera == Front)
    && (m.filler.rear.Holding? ==> m.filler.rear.handle.filler && m.filler.rear.handle.camera == Rear)
    && !m.env.overlap
    && m.env.starts == m.env.frees + Running(m, Front) + Running(m, Rear)
    && m.env.wpStops == m.env.wpRestarts + One(m.wireplumberStopped)
  }
}
