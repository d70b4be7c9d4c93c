/** The controller as the object it is: fields updated in place, step by step.
    Every method is proved to do to the fields what the function of the same name
    in `Controller` does to a `Model`, so what `ControllerProofs` proves of runs
    of that function holds of every sequence of `Tick` calls; the operations made
    between ticks say so themselves, in terms of `Conserved`.
 */
module ControllerObject {
  import opened Controller
  import opened ControllerProofs

  class CameraController {
    const world: World
    var state: State
    var active: CameraKey
    var candidate: CameraKey
    var pending: CameraKey
    var candidateSince: nat
    var idleSince: nat
    var captureRetryAfter: Times
    var fillerRetryAfter: Times
    var captureRetryExponent: Times
    var fillerRetryExponent: Times
    var capture: Slot
    var filler: Fillers
    var wireplumberStopped: bool
    var env: Env

    function View(): Model
      reads this
    {
      Model(state, active, candidate, pending, candidateSince, idleSince,
            captureRetryAfter, fillerRetryAfter, captureRetryExponent, fillerRetryExponent,
            capture, filler, wireplumberStopped, env)
    }

    /** The books are right: one pipeline per camera at most, every handle accounted
        for, WirePlumber owed at most one restart. */
    ghost predicate Conserved()
      reads this
    {
      Inv(View())
    }

    constructor (w: World)
      ensures world == w && View() == New(w) && Conserved()
    {
      world := w;
      state, active, candidate, pending := Idle, Nobody, Nobody, Nobody;
      candidateSince, idleSince := 0, 0;
      captureRetryAfter, fillerRetryAfter := Times(0, 0), Times(0, 0);
      captureRetryExponent, fillerRetryExponent := Times(0, 0), Times(0, 0);
      capture, filler, wireplumberStopped := Empty, Fillers(Empty, Empty), false;
      env := Boot.env;
      new;
      hide Controller.StartFiller;
      StartFiller(Front);
      StartFiller(Rear);
      NewLedger(w);
    }

    method NowMs() returns (now: nat)
      modifies this`env
      ensures now == Answer(old(View()), world).now
      ensures View() == Called(old(View()))
    {
      now := world(env.calls).now;
      env := env.(calls := env.calls + 1);
    }

    method BackendStart(c: Camera, isFiller: bool) returns (h: Slot)
      modifies this`env
      ensures Opened(View(), h) == Controller.BackendStart(old(View()), c, isFiller, world)
    {
      var n := env.calls;
      env := env.(calls := n + 1, overlap := env.overlap || env.live.At(c) > 0,
                  captureStarts := if isFiller then env.captureStarts else env.captureStarts + [c]);
      if !world(n).ok { return Empty; }
      h := Holding(Handle(n, c, isFiller));
      env := env.(live := env.live.With(c, env.live.At(c) + 1), starts := env.starts + 1);
    }

    method BackendStopFree(h: Handle) returns (ok: bool)
      modifies this`env
      ensures Outcome(View(), ok) == Controller.BackendStopFree(old(View()), h, world)
      ensures ok == world(old(env.calls)).ok
    {
      ok := world(env.calls).ok;
      if !h.filler { env := env.(captureStops := env.captureStops + [h]); }
      if ok {
        env := env.(live := env.live.With(h.camera, env.live.At(h.camera) - 1), frees := env.frees + 1);
      }
      env := env.(calls := env.calls + 1);
    }

    method ScheduleCaptureRetry(c: Camera)
      modifies this`env, this`captureRetryAfter, this`captureRetryExponent
      ensures View() == Controller.ScheduleCaptureRetry(old(View()), c, world)
    {
      var delay := RetryDelay(captureRetryExponent.At(c));
      captureRetryExponent := captureRetryExponent.With(c, NextExponent(captureRetryExponent.At(c)));
      var now := NowMs();
      captureRetryAfter := captureRetryAfter.With(c, now + delay);
    }

    method ScheduleFillerRetry(c: Camera)
      modifies this`env, this`fillerRetryAfter, this`fillerRetryExponent
      ensures View() == Controller.ScheduleFillerRetry(old(View()), c, world)
    {
      var delay := RetryDelay(fillerRetryExponent.At(c));
      fillerRetryExponent := fillerRetryExponent.With(c, NextExponent(fillerRetryExponent.At(c)));
      var now := NowMs();
      fillerRetryAfter := fillerRetryAfter.With(c, now + delay);
    }

    method StopFiller(c: Camera) returns (ok: bool)
      modifies this`env, this`filler
      ensures Outcome(View(), ok) == Controller.StopFiller(old(View()), c, world)
    {
      hide Controller.BackendStopFree;
      if filler.At(c).Empty? { return true; }
      ok := BackendStopFree(filler.At(c).handle);
      if ok { filler := filler.With(c, Empty); }
    }

    method StopCaptureHandle() returns (ok: bool)
      modifies this`env, this`capture
      ensures Outcome(View(), ok) == Controller.StopCaptureHandle(old(View()), world)
      ensures ok <==> old(capture).Empty? || world(old(env.calls)).ok
      ensures capture == if ok then Empty else old(capture)
    {
      hide Controller.BackendStopFree;
      if capture.Empty? { return true; }
      ok := BackendStopFree(capture.handle);
      if ok { capture := Empty; }
    }

    method StartFiller(c: Camera)
      modifies this`env, this`filler, this`fillerRetryAfter, this`fillerRetryExponent
      ensures View() == Controller.StartFiller(old(View()), c, world)
      ensures FillerTried(old(View()), View(), c, world)
    {
      hide Controller.BackendStart, FillerTried;
      StartFillerTries(View(), c, world);
      if filler.At(c).Holding? { return; }
      var now := NowMs();
      if now < fillerRetryAfter.At(c) { return; }
      env := env.(calls := env.calls + 1);  // query_format, whose failure only selects YUYV
      var h := BackendStart(c, true);
      if h.Empty? {
        ScheduleFillerRetry(c);
      } else {
        filler := filler.With(c, h);
        fillerRetryAfter := fillerRetryAfter.With(c, 0);
        fillerRetryExponent := fillerRetryExponent.With(c, 0);
      }
    }

    method PollFiller(c: Camera)
      modifies this`env, this`filler, this`fillerRetryAfter, this`fillerRetryExponent
      ensures View() == Controller.PollFiller(old(View()), c, world)
      ensures FillerPolled(old(View()), View(), c, world)
    {
      hide Controller.StopFiller, FillerPolled;
      PollFillerPolls(View(), c, world);
      if filler.At(c).Empty? { return; }
      var result := world(env.calls).poll;
      env := env.(calls := env.calls + 1);
      if result == 0 { return; }
      var _ := StopFiller(c);
      ScheduleFillerRetry(c);
    }

    method RestoreWireplumber() returns (ok: bool)
      modifies this`env, this`wireplumberStopped
      ensures Outcome(View(), ok) == Controller.RestoreWireplumber(old(View()), world)
      ensures ok <==> !old(wireplumberStopped) || world(old(env.calls)).ok
      ensures wireplumberStopped <==> !ok
    {
      if !wireplumberStopped { return true; }
      ok := world(env.calls).ok;
      env := env.(calls := env.calls + 1);
      if ok {
        wireplumberStopped := false;
        env := env.(wpRestarts := env.wpRestarts + 1);
      } else {
        env := env.(restartRefused := true);
      }
    }

    method StopWireplumber() returns (ok: bool)
      modifies this`env, this`wireplumberStopped
      ensures Outcome(View(), ok) == Controller.StopWireplumber(old(View()), world)
    {
      var result := world(env.calls).wp;
      env := env.(calls := env.calls + 1);
      if result == StopFailed { return false; }
      wireplumberStopped := result == Stopped;
      if wireplumberStopped { env := env.(wpStops := env.wpStops + 1, restartRefused := false); }
      return true;
    }

    method StopCapture(retry: Camera) returns (ok: bool)
      modifies this`env, this`capture, this`captureRetryAfter, this`captureRetryExponent
      ensures Outcome(View(), ok) == Controller.StopCapture(old(View()), retry, world)
      ensures ok <==> old(capture).Empty? || world(old(env.calls)).ok
      ensures capture == if ok then Empty else old(capture)
    {
      hide Controller.StopCaptureHandle;
      ok := StopCaptureHandle();
      if !ok { ScheduleCaptureRetry(retry); }
    }

    method GiveUpStart(c: Camera)
      modifies this
      ensures View() == Controller.GiveUpStart(old(View()), c, world)
    {
      hide Controller.StartFiller;
      StartFiller(c);
      state := RetryWait;
    }

    method TakeWireplumber(c: Camera) returns (ok: bool)
      modifies this
      ensures Outcome(View(), ok) == Controller.TakeWireplumber(old(View()), c, world)
    {
      hide Controller.StopWireplumber, Controller.GiveUpStart, Controller.ScheduleCaptureRetry, Controller.OpenCapture;
      ok := StopWireplumber();
      if !ok {
        ScheduleCaptureRetry(c);
        GiveUpStart(c);
        return;
      }
      ok := OpenCapture(c);
    }

    method RenewWireplumber(c: Camera) returns (ok: bool)
      modifies this
      ensures Outcome(View(), ok) == Controller.RenewWireplumber(old(View()), c, world)
    {
      hide Controller.RestoreWireplumber, Controller.GiveUpStart, Controller.ScheduleCaptureRetry, Controller.TakeWireplumber;
      ok := RestoreWireplumber();
      if !ok {
        ScheduleCaptureRetry(c);
        GiveUpStart(c);
        return;
      }
      ok := TakeWireplumber(c);
    }

    method StartCapture(c: Camera) returns (ok: bool)
      modifies this
      ensures Outcome(View(), ok) == Controller.StartCapture(old(View()), c, world)
      ensures old(Conserved() && active.Nobody?) ==> Started(old(View()), c, View(), ok, world)
    {
      hide Controller.StopFiller, Controller.ScheduleCaptureRetry, Controller.RenewWireplumber, Ledger, Started, Renewed;
      if Conserved() && active.Nobody? { StartCaptureLedger(View(), c, world); }
      state := Starting;
      ok := StopFiller(c);
      if !ok {
        ScheduleCaptureRetry(c);
        state := RetryWait;
        return;
      }
      ok := RenewWireplumber(c);
    }

    method OpenCapture(c: Camera) returns (ok: bool)
      modifies this
      ensures Outcome(View(), ok) == Controller.OpenCapture(old(View()), c, world)
    {
      hide Controller.ClearCaptureRetry, Controller.BackendStart, Controller.AbandonStart, Controller.GiveUpStart;
      ok := world(env.calls).ok;
      env := env.(calls := env.calls + 1);  // query_format
      if ok {
        var h := BackendStart(c, false);
        if h.Holding? {
          capture, active, pending, state := h, Key(c), Nobody, Streaming;
          ClearCaptureRetry(c);
          return;
        }
        ok := false;
      }
      AbandonStart(c);
    }

    method ClearCaptureRetry(c: Camera)
      modifies this`captureRetryAfter, this`captureRetryExponent
      ensures View() == Controller.ClearCaptureRetry(old(View()), c)
    {
      captureRetryAfter := captureRetryAfter.With(c, 0);
      captureRetryExponent := captureRetryExponent.With(c, 0);
    }

    method AbandonStart(c: Camera)
      modifies this
      ensures View() == Controller.AbandonStart(old(View()), c, world)
    {
      hide Controller.RestoreWireplumber, Controller.GiveUpStart, Controller.ScheduleCaptureRetry;
      ScheduleCaptureRetry(c);
      var _ := RestoreWireplumber();
      GiveUpStart(c);
    }

    method Transition(target: CameraKey) returns (ok: bool)
      modifies this
      ensures Outcome(View(), ok) == Controller.Transition(old(View()), target, world)
      ensures old(Conserved()) ==> Conserved() && Moved(old(View()), target, View(), ok, world)
      ensures old(Conserved()) && ok && target.Nobody? && old(active).Key? ==> !wireplumberStopped
      ensures old(Conserved()) && old(active).Key? && old(wireplumberStopped) && env.captureStarts != old(env.captureStarts) ==>
                env.wpRestarts > old(env.wpRestarts)
    {
      hide Inv, Moved, Controller.StopCapture, Controller.StartFiller, Controller.Resume, Controller.FinishTransition;
      if Conserved() {
        TransitionLedger(View(), target, world);
        MovedGivesBack(View(), target, Controller.Transition(View(), target, world).m, Controller.Transition(View(), target, world).ok, world);
      }
      var was := active;
      state := Stopping;
      pending := target;
      if was.Nobody? {
        ok := FinishTransition(target);
        return;
      }
      var retry := if target.Key? then target.camera else was.camera;
      ok := StopCapture(retry);
      if !ok {
        state := RetryWait;
        return;
      }
      active := Nobody;
      ClearCaptureRetry(was.camera);
      StartFiller(was.camera);
      ok := Resume(target, retry);
    }

    method Resume(target: CameraKey, retry: Camera) returns (ok: bool)
      modifies this
      ensures Outcome(View(), ok) == Controller.Resume(old(View()), target, retry, world)
    {
      hide Controller.RestoreWireplumber, Controller.ScheduleCaptureRetry, Controller.FinishTransition;
      ok := RestoreWireplumber();
      if !ok {
        ScheduleCaptureRetry(retry);
        state := RetryWait;
        return;
      }
      ok := FinishTransition(target);
    }

    method FinishTransition(target: CameraKey) returns (ok: bool)
      modifies this
      ensures Outcome(View(), ok) == Controller.FinishTransition(old(View()), target, world)
    {
      hide Controller.StartCapture;
      if target.Nobody? {
        pending, state := Nobody, Idle;
        return true;
      }
      ok := StartCapture(target.camera);
    }

    method CaptureFailed()
      requires active.Key?
      modifies this
      ensures View() == Controller.CaptureFailed(old(View()), world)
      ensures old(Conserved()) ==> Conserved() && Dropped(old(View()), old(active).camera, View(), world)
    {
      hide Inv, Dropped, Controller.StopCapture, Controller.StartFiller, Controller.RestoreWireplumber, Controller.ScheduleCaptureRetry;
      if Conserved() {
        CaptureFailedLedger(View(), world);
        DroppedInv(View(), active.camera, Controller.CaptureFailed(View(), world), world);
      }
      var failed := active.camera;
      var ok := StopCapture(failed);
      if !ok {
        state := RetryWait;
        return;
      }
      active := Nobody;
      StartFiller(failed);
      ok := RestoreWireplumber();
      ScheduleCaptureRetry(failed);
      state := RetryWait;
    }

    method TendFiller(c: Camera)
      modifies this
      ensures View() == Controller.TendFiller(old(View()), c, world)
    {
      hide Controller.PollFiller, Controller.StartFiller;
      PollFiller(c);
      if active != Key(c) { StartFiller(c); }
    }

    method Tick() returns (ok: bool)
      modifies this
      ensures Outcome(View(), ok) == Controller.Tick(old(View()), world)
      ensures old(Conserved()) ==>
                && Conserved() && old(env.calls) < env.calls
                && forall c | active != Key(c) :: Cared(old(env.calls), View(), c, world)
    {
      hide Controller.TendFiller, Controller.CaptureFailed, Controller.SampleAndDecide, Inv, Cared, Dropped;
      if Conserved() {
        TickLedger(View(), world);
        TickCared(View(), world);
      }
      var current := NowMs();
      TendFiller(Front);
      TendFiller(Rear);
      if capture.Holding? && state == Streaming && active.Key? {
        var result := world(env.calls).poll;
        env := env.(calls := env.calls + 1);
        if result != 0 {
          env := env.(producerFailures := env.producerFailures + 1);
          CaptureFailed();
          return result > 0;
        }
      }
      ok := SampleAndDecide(current);
    }

    method SampleAndDecide(current: nat) returns (ok: bool)
      modifies this
      ensures Outcome(View(), ok) == Controller.SampleAndDecide(old(View()), current, world)
    {
      hide Controller.Decide;
      var mask := world(env.calls);
      env := env.(calls := env.calls + 1, samples := env.samples + [Sample(current, mask.front, mask.rear, active)]);
      ok := Decide(Requested(active, mask.front, mask.rear), current);
    }

    method Decide(requested: CameraKey, current: nat) returns (ok: bool)
      modifies this
      ensures Outcome(View(), ok) == Controller.Decide(old(View()), requested, current, world)
    {
      hide Controller.Transition;
      if requested.Nobody? {
        candidate := Nobody;
        if active.Nobody? {
          idleSince := 0;
          if !(state == RetryWait && pending.Key?) { state := Idle; }
          return true;
        }
        if idleSince == 0 { idleSince := current; }
        if Elapsed(current, idleSince) >= CLOSE_GRACE_MS && (state == Streaming || state == RetryWait) {
          ok := Transition(Nobody);
          return;
        }
        return true;
      }
      idleSince := 0;
      if requested != candidate { candidate, candidateSince := requested, current; }
      if requested == active && state == Streaming { return true; }
      if current < captureRetryAfter.At(requested.camera) { return true; }
      if requested != active && Elapsed(current, candidateSince) < OPEN_DEBOUNCE_MS { return true; }
      ok := Transition(requested);
    }

    method Shutdown() returns (ok: bool)
      modifies this
      ensures Outcome(View(), ok) == Controller.Shutdown(old(View()), world)
      ensures old(Conserved()) ==> (Conserved() <==> (old(capture).Holding? ==> world(old(env.calls)).ok))
      ensures old(Conserved()) && ok ==> env.starts == env.frees && env.wpStops == env.wpRestarts
      ensures ok <==> AllOk(world, old(env.calls), env.calls)
    {
      hide Controller.StopCaptureHandle, Controller.StopFiller, Controller.RestoreWireplumber, Inv, AllOk;
      ShutdownReports(View(), world);
      if Conserved() { ShutdownKeepsInvIffCaptureStopped(View(), world); }
      var a := StopCaptureHandle();
      var b := StopFiller(Front);
      var c := StopFiller(Rear);
      var d := RestoreWireplumber();
      active, state := Nobody, Idle;
      return a && b && c && d;
    }
  }
}
