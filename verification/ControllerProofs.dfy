/** Properties of the camera controller over every run, clock and failure pattern. */
module ControllerProofs {
  import opened Common
  import opened Controller

  // ---------------------------------------------------------------- conservation

  /** Between ticks: a capture is live exactly when a camera is active, only then is
      the controller streaming or waiting to stop it again, and while none is active
      WirePlumber has been given back. */
  ghost predicate Inv(m: Model) {
    && Ledger(m)
    && (m.capture.Holding? <==> m.active.Key?)
    && m.state in {Idle, Streaming, RetryWait}
    && (m.active.Key? ==> m.state in {Streaming, RetryWait})
    && (m.state == Streaming ==> m.active.Key?)
    && (m.active.Nobody? ==> GivenBack(m))
  }

  /** WirePlumber is running, unless it has refused to restart since it was stopped. */
  ghost predicate GivenBack(m: Model) { m.wireplumberStopped ==> m.env.restartRefused }

  /** What filler and WirePlumber work leaves alone. */
  ghost predicate Untouched(m: Model, r: Model) {
    && r.state == m.state && r.active == m.active && r.capture == m.capture
    && r.candidate == m.candidate && r.candidateSince == m.candidateSince
    && r.idleSince == m.idleSince && r.pending == m.pending
    && r.env.samples == m.env.samples && r.env.captureStops == m.env.captureStops
    && r.env.captureStarts == m.env.captureStarts && r.env.producerFailures == m.env.producerFailures
    && m.env.calls <= r.env.calls
  }

  ghost predicate SameRetries(m: Model, r: Model) {
    r.captureRetryAfter == m.captureRetryAfter && r.captureRetryExponent == m.captureRetryExponent
  }

  ghost predicate SameWireplumber(m: Model, r: Model) {
    && r.wireplumberStopped == m.wireplumberStopped && r.env.restartRefused == m.env.restartRefused
    && r.env.wpRestarts == m.env.wpRestarts
  }

  ghost predicate SameFiller(m: Model, r: Model, c: Camera) {
    r.filler.At(c) == m.filler.At(c) && r.fillerRetryAfter.At(c) == m.fillerRetryAfter.At(c)
  }

  /** A camera has its filler, or a clock reading since call `from` fell short of the
      time its filler may be tried again. */
  ghost predicate Cared(from: nat, r: Model, c: Camera, w: World) {
    r.filler.At(c).Holding? || exists j :: from <= j < r.env.calls && w(j).now < r.fillerRetryAfter.At(c)
  }

  lemma CaredLater(from: nat, r: Model, since: nat, s: Model, c: Camera, w: World)
    requires Cared(since, r, c, w) && from <= since && r.env.calls <= s.env.calls && SameFiller(r, s, c)
    ensures Cared(from, s, c, w)
  {}

  /** The retry of a capture on `c` was put off, to a clock reading plus the delay its
      failures so far call for, and nothing else about retries changed. */
  ghost predicate Deferred(m: Model, r: Model, c: Camera, w: World) {
    && r.captureRetryExponent == m.captureRetryExponent.With(c, NextExponent(m.captureRetryExponent.At(c)))
    && exists j :: DeferredAt(m, r, c, w, j)
  }

  ghost predicate DeferredAt(m: Model, r: Model, c: Camera, w: World, j: nat) {
    && m.env.calls <= j < r.env.calls
    && r.captureRetryAfter == m.captureRetryAfter.With(c, w(j).now + RetryDelay(m.captureRetryExponent.At(c)))
  }

  lemma DeferredWithin(m0: Model, m: Model, r: Model, r1: Model, c: Camera, w: World)
    requires Deferred(m, r, c, w) && SameRetries(m0, m) && m0.env.calls <= m.env.calls
    requires SameRetries(r, r1) && r.env.calls <= r1.env.calls
    ensures Deferred(m0, r1, c, w)
  {
    var j :| DeferredAt(m, r, c, w, j);
    assert DeferredAt(m0, r1, c, w, j);
  }

  predicate Refused(reply: Reply) { !reply.ok || reply.wp == StopFailed }

  ghost predicate Refusal(from: nat, to: nat, w: World) { exists k :: from <= k < to && Refused(w(k)) }

  lemma RefusalAt(from: nat, k: nat, to: nat, w: World)
    requires from <= k < to && Refused(w(k))
    ensures Refusal(from, to, w)
  {}

  lemma RefusalWithin(from: nat, a: nat, b: nat, to: nat, w: World)
    requires Refusal(a, b, w) && from <= a && b <= to
    ensures Refusal(from, to, w)
  {}

  lemma ScheduleLedger(m: Model, c: Camera, w: World)
    requires Ledger(m)
    ensures var r := ScheduleCaptureRetry(m, c, w);
            && Ledger(r) && Untouched(m, r) && SameWireplumber(m, r) && SameFiller(m, r, Front) && SameFiller(m, r, Rear)
            && Deferred(m, r, c, w)
    ensures var r := ScheduleFillerRetry(m, c, w);
            && Ledger(r) && Untouched(m, r) && SameWireplumber(m, r) && SameRetries(m, r) && SameFiller(m, r, Other(c))
            && r.filler == m.filler
  {
    hide NextExponent, RetryDelay;
    assert DeferredAt(m, ScheduleCaptureRetry(m, c, w), c, w, m.env.calls);
  }

  lemma StopFillerFrame(m: Model, c: Camera, w: World)
    requires m.filler.At(c).Holding? ==> m.filler.At(c).handle.filler
    ensures var Outcome(r, ok) := StopFiller(m, c, w);
            Untouched(m, r) && SameWireplumber(m, r) && SameRetries(m, r)
            && (ok ==> r.filler.At(c).Empty?) && SameFiller(m, r, Other(c))
            && r.fillerRetryAfter == m.fillerRetryAfter
            && (!ok ==> r.filler == m.filler && r.filler.At(c).Holding? && Refusal(m.env.calls, r.env.calls, w))
  {
    if !StopFiller(m, c, w).ok { RefusalAt(m.env.calls, m.env.calls, m.env.calls + 1, w); }
  }

  lemma FreedFiller(m: Model, c: Camera, w: World)
    requires Ledger(m) && m.filler.At(c).Holding? && Answer(m, w).ok
    ensures var m1 := BackendStopFree(m, m.filler.At(c).handle, w).m;
            Ledger(m1.(filler := m1.filler.With(c, Empty)))
  {}

  lemma KeptFiller(m: Model, h: Handle, w: World)
    requires Ledger(m) && h.filler && !Answer(m, w).ok
    ensures Ledger(BackendStopFree(m, h, w).m)
  {}

  lemma StopFillerBooks(m: Model, c: Camera, w: World)
    requires Ledger(m)
    ensures Ledger(StopFiller(m, c, w).m)
  {
    if m.filler.At(c).Holding? {
      FilledBy(m, c);
      hide Ledger;
      if Answer(m, w).ok { FreedFiller(m, c, w); } else { KeptFiller(m, m.filler.At(c).handle, w); }
    }
  }

  lemma FilledBy(m: Model, c: Camera)
    requires Ledger(m) && m.filler.At(c).Holding?
    ensures m.filler.At(c).handle.filler && m.filler.At(c).handle.camera == c
  {}

  lemma StopFillerLedger(m: Model, c: Camera, w: World)
    requires Ledger(m)
    ensures var Outcome(r, ok) := StopFiller(m, c, w);
            Ledger(r) && Untouched(m, r) && SameWireplumber(m, r) && SameRetries(m, r)
            && (ok ==> r.filler.At(c).Empty?) && SameFiller(m, r, Other(c))
            && r.fillerRetryAfter == m.fillerRetryAfter
            && (!ok ==> r.filler == m.filler && r.filler.At(c).Holding? && Refusal(m.env.calls, r.env.calls, w))
  {
    hide StopFiller, Untouched, Refusal;
    StopFillerBooks(m, c, w);
    StopFillerFrame(m, c, w);
  }

  lemma StartFillerFrame(m: Model, c: Camera, w: World)
    ensures var r := StartFiller(m, c, w);
            Untouched(m, r) && SameWireplumber(m, r) && SameRetries(m, r) && SameFiller(m, r, Other(c))
            && Cared(m.env.calls, r, c, w)
  {
    hide Untouched, NextExponent;
    RetryBounds(m.fillerRetryExponent.At(c));
    if m.filler.At(c).Holding? {
      UntouchedSelf(m);
    } else if Answer(m, w).now < m.fillerRetryAfter.At(c) {
      UntouchedCalled(m);
      assert w(m.env.calls).now < Called(m).fillerRetryAfter.At(c);
    } else {
      OpenedUntouched(m, c, w);
      hide RetryDelay;
      var m1 := BackendStart(Called(Called(m)), c, true, w).m;
      assert w(m1.env.calls).now < ScheduleFillerRetry(m1, c, w).fillerRetryAfter.At(c);
    }
  }

  /** A retry is put off by 2 to 30 seconds. */
  lemma RetryBounds(exponent: nat)
    ensures 2000 <= RetryDelay(exponent) <= 30000
  {}

  lemma UntouchedSelf(m: Model)
    ensures Untouched(m, m)
  {}

  lemma UntouchedCalled(m: Model)
    ensures Untouched(m, Called(m))
  {}

  lemma OpenedUntouched(m: Model, c: Camera, w: World)
    ensures var Opened(m1, h) := BackendStart(Called(Called(m)), c, true, w);
            && Untouched(m, ScheduleFillerRetry(m1, c, w))
            && Untouched(m, ClearFillerRetry(m1.(filler := m1.filler.With(c, h)), c))
  {}

  lemma StartFillerBooks(m: Model, c: Camera, w: World)
    requires Ledger(m)
    requires m.capture.Holding? ==> m.active != Key(c)
    ensures Ledger(StartFiller(m, c, w))
  {
    if m.filler.At(c).Empty? && Answer(m, w).now >= m.fillerRetryAfter.At(c) {
      var Opened(m1, h) := BackendStart(Called(Called(m)), c, true, w);
      if h.Empty? {
        ScheduleLedger(m1, c, w);
      } else {
        OpenedFiller(m, c, w);
      }
    }
  }

  lemma OpenedFiller(m: Model, c: Camera, w: World)
    requires Ledger(m) && (m.capture.Holding? ==> m.active != Key(c)) && m.filler.At(c).Empty?
    requires BackendStart(Called(Called(m)), c, true, w).slot.Holding?
    ensures var Opened(m1, h) := BackendStart(Called(Called(m)), c, true, w);
            Ledger(ClearFillerRetry(m1.(filler := m1.filler.With(c, h)), c))
  {}

  lemma StartFillerLedger(m: Model, c: Camera, w: World)
    requires Ledger(m)
    requires m.capture.Holding? ==> m.active != Key(c)
    ensures var r := StartFiller(m, c, w);
            Ledger(r) && Untouched(m, r) && SameWireplumber(m, r) && SameRetries(m, r) && SameFiller(m, r, Other(c))
            && Cared(m.env.calls, r, c, w)
  {
    hide StartFiller, Cared;
    StartFillerBooks(m, c, w);
    StartFillerFrame(m, c, w);
  }

  /** What start_filler does, call by call: a camera that has its filler is left alone,
      as is one whose filler is not to be tried yet; else it is started, or tried again
      after the delay its failures so far call for. */
  ghost predicate FillerTried(m: Model, r: Model, c: Camera, w: World) {
    var n := m.env.calls;
    if m.filler.At(c).Holding? then r == m
    else if w(n).now < m.fillerRetryAfter.At(c) then r.filler == m.filler && r.fillerRetryAfter == m.fillerRetryAfter
    else if w(n + 2).ok then
      && r.filler.At(c) == Holding(Handle(n + 2, c, true))
      && r.fillerRetryAfter.At(c) == 0 && r.fillerRetryExponent.At(c) == 0
    else
      && r.filler.At(c).Empty?
      && r.fillerRetryAfter.At(c) == w(n + 3).now + RetryDelay(m.fillerRetryExponent.At(c))
      && r.fillerRetryExponent.At(c) == NextExponent(m.fillerRetryExponent.At(c))
  }

  lemma StartFillerTries(m: Model, c: Camera, w: World)
    ensures FillerTried(m, StartFiller(m, c, w), c, w)
  {
    hide RetryDelay, NextExponent;
  }

  /** What poll_filler does: a filler that polls well is left alone, any other is told to
      stop, kept if it refuses, and not tried again before its delay. */
  ghost predicate FillerPolled(m: Model, r: Model, c: Camera, w: World) {
    var n := m.env.calls;
    m.filler.At(c).Holding? ==>
      if w(n).poll == 0 then r.filler == m.filler && r.fillerRetryAfter == m.fillerRetryAfter
      else
        && r.filler.At(c) == (if w(n + 1).ok then Empty else m.filler.At(c))
        && r.fillerRetryAfter.At(c) == w(n + 2).now + RetryDelay(m.fillerRetryExponent.At(c))
        && r.fillerRetryExponent.At(c) == NextExponent(m.fillerRetryExponent.At(c))
  }

  lemma PollFillerPolls(m: Model, c: Camera, w: World)
    ensures FillerPolled(m, PollFiller(m, c, w), c, w)
  {
    hide RetryDelay, NextExponent;
  }

  /** A filler that polls well, or refuses to stop, stays; any other goes, and what the
      camera has then, if anything, was started since. */
  ghost predicate Polled(m: Model, r: Model, c: Camera, w: World, k: nat) {
    if w(k).poll == 0 || !w(k + 1).ok then r.filler.At(c) == m.filler.At(c)
    else r.filler.At(c).Holding? ==> r.filler.At(c).handle.id > k
  }

  lemma TendFillerPolled(m: Model, c: Camera, w: World)
    ensures m.filler.At(c).Holding? ==> Polled(m, TendFiller(m, c, w), c, w, m.env.calls)
  {
    hide RetryDelay, NextExponent;
  }

  lemma TendFillerLedger(m: Model, c: Camera, w: World)
    requires Ledger(m)
    ensures var r := TendFiller(m, c, w);
            && Ledger(r) && Untouched(m, r) && SameWireplumber(m, r) && SameRetries(m, r) && SameFiller(m, r, Other(c))
            && (m.active != Key(c) ==> Cared(m.env.calls, r, c, w))
            && (m.filler.At(c).Holding? ==> Polled(m, r, c, w, m.env.calls))
  {
    TendFillerPolled(m, c, w);
    hide StopFiller, StartFiller, Cared, Refusal, Polled, Deferred;
    if m.filler.At(c).Holding? {
      StopFillerLedger(Called(m), c, w);
      ScheduleLedger(StopFiller(Called(m), c, w).m, c, w);
    }
    var m1 := PollFiller(m, c, w);
    if m1.active != Key(c) {
      StartFillerLedger(m1, c, w);
      CaredFrom(m.env.calls, m1.env.calls, TendFiller(m, c, w), c, w);
    }
  }

  lemma CaredFrom(from: nat, since: nat, r: Model, c: Camera, w: World)
    requires Cared(since, r, c, w) && from <= since
    ensures Cared(from, r, c, w)
  {}

  lemma StopWireplumberLedger(m: Model, w: World)
    requires Ledger(m) && !m.wireplumberStopped
    ensures var Outcome(r, ok) := StopWireplumber(m, w);
            && Ledger(r) && Untouched(m, r) && SameRetries(m, r) && r.filler == m.filler && r.fillerRetryAfter == m.fillerRetryAfter
            && r.env.calls == m.env.calls + 1 && r.env.wpRestarts == m.env.wpRestarts
            && (ok <==> w(m.env.calls).wp != StopFailed) && (r.wireplumberStopped <==> w(m.env.calls).wp == Stopped)
  {}

  lemma RestoreLedger(m: Model, w: World)
    requires Ledger(m)
    ensures var Outcome(r, ok) := RestoreWireplumber(m, w);
            && Ledger(r) && Untouched(m, r) && SameRetries(m, r) && r.filler == m.filler && r.fillerRetryAfter == m.fillerRetryAfter
            && GivenBack(r) && (ok ==> !r.wireplumberStopped)
            && (!ok ==> Refusal(m.env.calls, r.env.calls, w))
            && m.env.wpRestarts <= r.env.wpRestarts && (ok && m.wireplumberStopped ==> m.env.wpRestarts < r.env.wpRestarts)
  {
    if !RestoreWireplumber(m, w).ok { RefusalAt(m.env.calls, m.env.calls, m.env.calls + 1, w); }
  }

  lemma StopHandleLedger(m: Model, w: World)
    requires Ledger(m)
    ensures var Outcome(r, ok) := StopCaptureHandle(m, w);
            && Ledger(r) && (ok ==> r.capture.Empty?) && (!ok ==> r.capture == m.capture)
            && r.env.calls == m.env.calls + One(m.capture.Holding?) && (ok <==> m.capture.Empty? || w(m.env.calls).ok)
  {}

  lemma StopCaptureFrame(m: Model, retry: Camera, w: World)
    ensures var Outcome(r, ok) := StopCapture(m, retry, w);
            && r.active == m.active && r.state == m.state && r.candidate == m.candidate && r.pending == m.pending
            && r.candidateSince == m.candidateSince && r.idleSince == m.idleSince
            && r.env.samples == m.env.samples && r.env.producerFailures == m.env.producerFailures
            && r.env.captureStarts == m.env.captureStarts && m.env.calls <= r.env.calls
            && SameWireplumber(m, r) && SameFiller(m, r, Front) && SameFiller(m, r, Rear)
            && (if ok then SameRetries(m, r) else Deferred(m, r, retry, w) && Refusal(m.env.calls, r.env.calls, w))
  {
    hide RetryDelay, NextExponent;
    var Outcome(m1, ok) := StopCaptureHandle(m, w);
    if !ok {
      assert DeferredAt(m, StopCapture(m, retry, w).m, retry, w, m1.env.calls);
      RefusalAt(m.env.calls, m.env.calls, m1.env.calls, w);
    }
  }

  lemma StopCaptureLedger(m: Model, retry: Camera, w: World)
    requires Ledger(m)
    ensures var Outcome(r, ok) := StopCapture(m, retry, w);
            && Ledger(r) && (ok ==> r.capture.Empty?) && (!ok ==> r.capture == m.capture)
            && r.active == m.active && r.state == m.state && r.candidate == m.candidate && r.pending == m.pending
            && r.candidateSince == m.candidateSince && r.idleSince == m.idleSince
            && r.env.samples == m.env.samples && r.env.producerFailures == m.env.producerFailures
            && r.env.captureStarts == m.env.captureStarts && m.env.calls <= r.env.calls
            && SameWireplumber(m, r) && SameFiller(m, r, Front) && SameFiller(m, r, Rear)
            && (if ok then SameRetries(m, r) else Deferred(m, r, retry, w) && Refusal(m.env.calls, r.env.calls, w))
            && (ok <==> m.capture.Empty? || w(m.env.calls).ok)
  {
    StopCaptureFrame(m, retry, w);
    hide StopCaptureHandle, Ledger, Deferred, Refusal;
    StopHandleLedger(m, w);
    ScheduleLedger(StopCaptureHandle(m, w).m, retry, w);
  }

  /** What start_capture leaves behind, whatever fails in it. */
  ghost predicate Started(m: Model, c: Camera, r: Model, ok: bool, w: World) {
    && StartFrame(m, c, r)
    && (ok ==> r.state == Streaming && r.active == Key(c) && r.env.captureStarts == m.env.captureStarts + [c] && Took(m, c, r, w))
    && (!ok ==> LeftOff(m, c, r, w) && Refusal(m.env.calls, r.env.calls, w))
  }

  ghost predicate StartFrame(m: Model, c: Camera, r: Model) {
    && Ledger(r)
    && r.candidate == m.candidate && r.candidateSince == m.candidateSince && r.idleSince == m.idleSince
    && r.env.samples == m.env.samples && r.env.captureStops == m.env.captureStops
    && r.env.producerFailures == m.env.producerFailures
    && (r.env.captureStarts == m.env.captureStarts || r.env.captureStarts == m.env.captureStarts + [c])
    && m.env.calls <= r.env.calls && m.env.wpRestarts <= r.env.wpRestarts
    && SameFiller(m, r, Other(c))
  }

  /** A start that succeeded: its last three calls stopped WirePlumber, or found it
      inactive, asked for the format and started the capture it holds; the camera's
      backoff is over. */
  ghost predicate Took(m: Model, c: Camera, r: Model, w: World) {
    var n := r.env.calls;
    && m.env.calls + 3 <= n
    && w(n - 3).wp != StopFailed && (r.wireplumberStopped <==> w(n - 3).wp == Stopped)
    && w(n - 2).ok && w(n - 1).ok && r.capture == Holding(Handle(n - 1, c, false))
    && r.pending.Nobody?
    && r.captureRetryAfter == m.captureRetryAfter.With(c, 0) && r.captureRetryExponent == m.captureRetryExponent.With(c, 0)
  }

  /** A start that failed: the camera is to be tried again after its delay and is left
      to its filler, and WirePlumber is given back. */
  ghost predicate LeftOff(m: Model, c: Camera, r: Model, w: World) {
    && r.state == RetryWait && r.active.Nobody? && r.capture.Empty? && r.pending == m.pending
    && Deferred(m, r, c, w) && Cared(m.env.calls, r, c, w) && GivenBack(r)
  }

  /** A later state of the same start. */
  ghost predicate Near(m0: Model, m: Model, c: Camera) {
    && m.candidate == m0.candidate && m.candidateSince == m0.candidateSince && m.idleSince == m0.idleSince
    && m.pending == m0.pending
    && m.env.samples == m0.env.samples && m.env.captureStops == m0.env.captureStops
    && m.env.producerFailures == m0.env.producerFailures
    && m0.env.calls <= m.env.calls && m0.env.wpRestarts <= m.env.wpRestarts
    && SameRetries(m0, m) && SameFiller(m0, m, Other(c))
  }

  lemma LeftOffFrom(m0: Model, m: Model, c: Camera, r: Model, w: World)
    requires LeftOff(m, c, r, w) && Near(m0, m, c)
    ensures LeftOff(m0, c, r, w)
  {
    DeferredWithin(m0, m, r, r, c, w);
    CaredFrom(m0.env.calls, m.env.calls, r, c, w);
  }

  lemma FailedFrom(m0: Model, m: Model, c: Camera, r: Model, w: World)
    requires StartFrame(m, c, r) && LeftOff(m, c, r, w) && r.env.captureStarts == m.env.captureStarts
    requires Near(m0, m, c) && Refusal(m0.env.calls, m.env.calls, w)
    requires m.env.captureStarts == m0.env.captureStarts || m.env.captureStarts == m0.env.captureStarts + [c]
    ensures Started(m0, c, r, false, w)
  {
    hide Ledger, LeftOff, Refusal;
    LeftOffFrom(m0, m, c, r, w);
    RefusalWithin(m0.env.calls, m0.env.calls, m.env.calls, r.env.calls, w);
  }

  lemma StartedFrom(m0: Model, m: Model, c: Camera, r: Model, ok: bool, w: World)
    requires Started(m, c, r, ok, w) && Near(m0, m, c) && m.env.captureStarts == m0.env.captureStarts
    ensures Started(m0, c, r, ok, w)
  {
    hide Ledger, LeftOff, Refusal;
    if !ok {
      LeftOffFrom(m0, m, c, r, w);
      RefusalWithin(m0.env.calls, m.env.calls, r.env.calls, r.env.calls, w);
    }
  }

  lemma GiveUpLedger(m: Model, c: Camera, w: World)
    requires Ledger(m) && m.capture.Empty? && m.active.Nobody?
    ensures var r := GiveUpStart(m, c, w);
            && Ledger(r) && r.state == RetryWait && r.active.Nobody? && r.capture.Empty? && Near(m, r, c)
            && r.env.captureStarts == m.env.captureStarts && SameWireplumber(m, r) && Cared(m.env.calls, r, c, w)
  {
    hide StartFiller, Cared;
    StartFillerLedger(m, c, w);
    CaredLater(m.env.calls, StartFiller(m, c, w), m.env.calls, GiveUpStart(m, c, w), c, w);
  }

  /** The exits of a start: a retry is scheduled and the camera left to its filler. */
  lemma GiveUpScheduled(m: Model, c: Camera, w: World)
    requires Ledger(m) && m.capture.Empty? && m.active.Nobody? && GivenBack(m)
    ensures var r := GiveUpStart(ScheduleCaptureRetry(m, c, w), c, w);
            StartFrame(m, c, r) && LeftOff(m, c, r, w) && r.env.captureStarts == m.env.captureStarts
  {
    hide GiveUpStart, ScheduleCaptureRetry, Deferred, Cared, Ledger;
    var m1 := ScheduleCaptureRetry(m, c, w);
    ScheduleLedger(m, c, w);
    GiveUpLedger(m1, c, w);
    var r := GiveUpStart(m1, c, w);
    DeferredWithin(m, m, m1, r, c, w);
    CaredFrom(m.env.calls, m1.env.calls, r, c, w);
  }

  lemma AbandonLedger(m: Model, c: Camera, w: World)
    requires Ledger(m) && m.capture.Empty? && m.active.Nobody?
    ensures var r := AbandonStart(m, c, w);
            StartFrame(m, c, r) && LeftOff(m, c, r, w) && r.env.captureStarts == m.env.captureStarts
  {
    hide RestoreWireplumber, GiveUpStart, ScheduleCaptureRetry, Deferred, Cared, Refusal, Ledger;
    var m1 := ScheduleCaptureRetry(m, c, w);
    ScheduleLedger(m, c, w);
    RestoreLedger(m1, w);
    var m2 := RestoreWireplumber(m1, w).m;
    GiveUpLedger(m2, c, w);
    var r := GiveUpStart(m2, c, w);
    DeferredWithin(m, m, m1, r, c, w);
    CaredFrom(m.env.calls, m2.env.calls, r, c, w);
  }

  lemma CalledLedger(m: Model)
    requires Ledger(m)
    ensures Ledger(Called(m))
  {}

  lemma OpenedLedger(m: Model, c: Camera, w: World)
    requires Ledger(m) && m.capture.Empty? && m.active.Nobody? && m.filler.At(c).Empty?
    ensures var Opened(r, h) := BackendStart(m, c, false, w);
            if h.Empty? then Ledger(r)
            else Ledger(ClearCaptureRetry(r.(capture := h, active := Key(c), pending := Nobody, state := Streaming), c))
  {}

  /** The format query and the start itself, when both succeed. */
  ghost predicate Opening(m: Model, c: Camera, r: Model, w: World) {
    && StartFrame(m, c, r) && r.env.captureStarts == m.env.captureStarts + [c]
    && r.state == Streaming && r.active == Key(c) && r.pending.Nobody? && SameWireplumber(m, r)
    && r.env.calls == m.env.calls + 2 && w(m.env.calls).ok && w(m.env.calls + 1).ok
    && r.capture == Holding(Handle(m.env.calls + 1, c, false))
    && r.captureRetryAfter == m.captureRetryAfter.With(c, 0) && r.captureRetryExponent == m.captureRetryExponent.With(c, 0)
  }

  lemma OpenCaptureLedger(m: Model, c: Camera, w: World)
    requires Ledger(m) && m.capture.Empty? && m.active.Nobody? && m.filler.At(c).Empty?
    ensures var Outcome(r, ok) := OpenCapture(m, c, w);
            if ok then Opening(m, c, r, w) else Started(m, c, r, false, w)
  {
    hide AbandonStart, Ledger, Refusal, LeftOff, StartFrame;
    var queried := Called(m);
    CalledLedger(m);
    if !Answer(m, w).ok {
      RefusalAt(m.env.calls, m.env.calls, queried.env.calls, w);
      AbandonLedger(queried, c, w);
      FailedFrom(m, queried, c, AbandonStart(queried, c, w), w);
    } else {
      var Opened(m1, h) := BackendStart(queried, c, false, w);
      OpenedLedger(queried, c, w);
      if h.Empty? {
        RefusalAt(m.env.calls, m.env.calls + 1, m1.env.calls, w);
        AbandonLedger(m1, c, w);
        FailedFrom(m, m1, c, AbandonStart(m1, c, w), w);
      } else {
        OpeningFrame(m, c, w);
      }
    }
  }

  lemma OpeningFrame(m: Model, c: Camera, w: World)
    requires OpenCapture(m, c, w).ok && Ledger(OpenCapture(m, c, w).m)
    ensures StartFrame(m, c, OpenCapture(m, c, w).m)
  {
    hide Ledger, AbandonStart;
  }

  lemma TakeLedger(m: Model, c: Camera, w: World)
    requires Ledger(m) && m.capture.Empty? && m.active.Nobody? && m.filler.At(c).Empty? && !m.wireplumberStopped
    ensures var Outcome(r, ok) := TakeWireplumber(m, c, w); Started(m, c, r, ok, w)
  {
    hide StopWireplumber, OpenCapture, GiveUpStart, ScheduleCaptureRetry, Ledger, Refusal, LeftOff;
    StopWireplumberLedger(m, w);
    var Outcome(m1, taken) := StopWireplumber(m, w);
    if taken {
      OpenCaptureLedger(m1, c, w);
      var Outcome(r, ok) := OpenCapture(m1, c, w);
      if !ok { StartedFrom(m, m1, c, r, false, w); }
    } else {
      RefusalAt(m.env.calls, m.env.calls, m1.env.calls, w);
      GiveUpScheduled(m1, c, w);
      FailedFrom(m, m1, c, TakeWireplumber(m, c, w).m, w);
    }
  }

  /** WirePlumber, if it was still stopped, is restarted before a start. */
  ghost predicate Renewed(m: Model, r: Model) {
    m.wireplumberStopped && r.env.captureStarts != m.env.captureStarts ==> m.env.wpRestarts < r.env.wpRestarts
  }

  lemma RenewLedger(m: Model, c: Camera, w: World)
    requires Ledger(m) && m.capture.Empty? && m.active.Nobody? && m.filler.At(c).Empty?
    ensures var Outcome(r, ok) := RenewWireplumber(m, c, w); Started(m, c, r, ok, w) && Renewed(m, r)
  {
    hide RestoreWireplumber, TakeWireplumber, GiveUpStart, ScheduleCaptureRetry, Ledger, Refusal, LeftOff, Took;
    RestoreLedger(m, w);
    var Outcome(m1, restored) := RestoreWireplumber(m, w);
    if restored {
      TakeLedger(m1, c, w);
      var Outcome(r, ok) := TakeWireplumber(m1, c, w);
      StartedFrom(m, m1, c, r, ok, w);
    } else {
      GiveUpScheduled(m1, c, w);
      FailedFrom(m, m1, c, RenewWireplumber(m, c, w).m, w);
    }
  }

  lemma StartCaptureLedger(m: Model, c: Camera, w: World)
    requires Ledger(m) && m.capture.Empty? && m.active.Nobody? && GivenBack(m)
    ensures var Outcome(r, ok) := StartCapture(m, c, w); Started(m, c, r, ok, w) && Renewed(m, r)
  {
    hide StopFiller, RenewWireplumber, Ledger, Refusal, Took, ScheduleCaptureRetry, Deferred, Cared;
    var m0 := m.(state := Starting);
    StateLedger(m, Starting);
    StopFillerLedger(m0, c, w);
    var Outcome(m1, stopped) := StopFiller(m0, c, w);
    if stopped {
      hide LeftOff;
      RenewLedger(m1, c, w);
      var Outcome(r, ok) := RenewWireplumber(m1, c, w);
      StartedFrom(m, m1, c, r, ok, w);
    } else {
      var m2 := ScheduleCaptureRetry(m1, c, w);
      ScheduleLedger(m1, c, w);
      StateLedger(m2, RetryWait);
      var r := m2.(state := RetryWait);
      DeferredWithin(m, m1, m2, r, c, w);
      CaredHolding(m.env.calls, r, c, w);
      RefusalWithin(m.env.calls, m.env.calls, m1.env.calls, r.env.calls, w);
    }
  }

  lemma CaredHolding(from: nat, r: Model, c: Camera, w: World)
    requires r.filler.At(c).Holding?
    ensures Cared(from, r, c, w)
  {}

  lemma StateLedger(m: Model, s: State)
    requires Ledger(m)
    ensures Ledger(m.(state := s))
  {}

  /** What a transition to `target` leaves behind. */
  ghost predicate Moved(m: Model, target: CameraKey, r: Model, ok: bool, w: World) {
    && MoveFrame(m, target, r)
    && (ok ==> Reached(m, target, r, w))
    && (!ok ==> Stuck(m, target, r, w))
    && (m.active.Key? ==> (!w(m.env.calls).ok <==> !ok && r.active.Key?))
    && Renewed(m, r) && FillersLeft(m, r, w)
  }

  ghost predicate MoveFrame(m: Model, target: CameraKey, r: Model) {
    && Inv(r)
    && (|| r.active == m.active || r.active.Nobody?
        || (r.active == target && r.env.captureStarts == m.env.captureStarts + [target.camera]))
    && r.candidate == m.candidate && r.candidateSince == m.candidateSince && r.idleSince == m.idleSince
    && r.env.samples == m.env.samples && r.env.producerFailures == m.env.producerFailures
    && (r.env.captureStarts == m.env.captureStarts
        || (target.Key? && r.env.captureStarts == m.env.captureStarts + [target.camera]))
    && m.env.calls <= r.env.calls && m.env.wpRestarts <= r.env.wpRestarts
  }

  /** The retry times and counts once the old capture is gone. */
  function Freed(m: Model): Model { if m.active.Key? then ClearCaptureRetry(m, m.active.camera) else m }

  lemma FreedRetries(m: Model)
    requires m.active.Key?
    ensures var c, r := m.active.camera, Freed(m);
            && r.env == m.env && r.captureRetryAfter == m.captureRetryAfter.With(c, 0)
            && r.captureRetryExponent == m.captureRetryExponent.With(c, 0)
  {}

  /** A transition that succeeded. */
  ghost predicate Reached(m: Model, target: CameraKey, r: Model, w: World) {
    if target.Key? then r.state == Streaming && r.active == target && Took(Freed(m), target.camera, r, w)
    else
      && r.state == Idle && r.active.Nobody? && r.pending.Nobody? && SameRetries(Freed(m), r)
      && if m.active.Key? then !r.wireplumberStopped else SameWireplumber(m, r)
  }

  /** One that failed: some call was refused, and the camera to be opened, or closed,
      is to be tried again after its delay. */
  ghost predicate Stuck(m: Model, target: CameraKey, r: Model, w: World) {
    && r.state == RetryWait && r.pending == target && Refusal(m.env.calls, r.env.calls, w)
    && (target.Key? || m.active.Key?)
    && Deferred(if r.active.Nobody? then Freed(m) else m, r, if target.Key? then target.camera else m.active.camera, w)
  }

  /** A camera without a capture has been seen to, or was not in play. */
  ghost predicate FillersLeft(m: Model, r: Model, w: World) {
    forall c | Key(c) != r.active :: Cared(m.env.calls, r, c, w) || (Key(c) != m.active && SameFiller(m, r, c))
  }

  /** The end of a transition, from when no capture is left. */
  ghost predicate Ended(m: Model, target: CameraKey, retry: Camera, r: Model, ok: bool, w: World) {
    && MoveFrame(m, target, r)
    && (ok ==> if target.Key? then r.state == Streaming && r.active == target && Took(m, target.camera, r, w)
               else r.state == Idle && r.active.Nobody? && r.pending.Nobody? && SameRetries(m, r))
    && (!ok ==>
          && r.state == RetryWait && r.active.Nobody? && r.pending == m.pending
          && Refusal(m.env.calls, r.env.calls, w) && Deferred(m, r, retry, w))
    && Renewed(m, r) && FillersLeft(m, r, w)
  }

  lemma FinishLedger(m: Model, target: CameraKey, retry: Camera, w: World)
    requires Ledger(m) && m.capture.Empty? && m.active.Nobody? && GivenBack(m)
    requires target.Key? ==> retry == target.camera
    ensures var Outcome(r, ok) := FinishTransition(m, target, w);
            Ended(m, target, retry, r, ok, w) && (target.Nobody? ==> ok && SameWireplumber(m, r))
  {
    hide StartCapture, Ledger, Deferred, Refusal, Cared, Took;
    if target.Key? {
      StartCaptureLedger(m, target.camera, w);
      var Outcome(r, ok) := StartCapture(m, target.camera, w);
      StartedHolds(m, target.camera, r, ok, w);
      StartedFillers(m, target.camera, r, ok, w);
    } else {
      StateLedger(m, Idle);
      PendingLedger(m.(state := Idle), Nobody);
    }
  }

  lemma PendingLedger(m: Model, p: CameraKey)
    requires Ledger(m)
    ensures Ledger(m.(pending := p))
  {}

  lemma StartedHolds(m: Model, c: Camera, r: Model, ok: bool, w: World)
    requires Started(m, c, r, ok, w)
    ensures ok ==> r.capture.Holding? && r.active.Key?
  {}

  lemma StartedFillers(m: Model, c: Camera, r: Model, ok: bool, w: World)
    requires Started(m, c, r, ok, w) && m.active.Nobody?
    ensures FillersLeft(m, r, w)
  {
    hide Ledger, Cared, Deferred, Refusal, Took;
    forall d | Key(d) != r.active ensures Cared(m.env.calls, r, d, w) || (Key(d) != m.active && SameFiller(m, r, d)) {
      if d != c { assert d == Other(c); }
    }
  }

  lemma ResumeLedger(m: Model, target: CameraKey, retry: Camera, w: World)
    requires Ledger(m) && m.capture.Empty? && m.active.Nobody?
    requires target.Key? ==> retry == target.camera
    ensures var Outcome(r, ok) := Resume(m, target, retry, w);
            Ended(m, target, retry, r, ok, w) && (ok && target.Nobody? ==> !r.wireplumberStopped)
  {
    hide RestoreWireplumber, FinishTransition, ScheduleCaptureRetry, Ledger, Deferred, Refusal, Cared;
    RestoreLedger(m, w);
    var Outcome(m1, restored) := RestoreWireplumber(m, w);
    if restored {
      FinishLedger(m1, target, retry, w);
      var Outcome(r, ok) := FinishTransition(m1, target, w);
      EndedFrom(m, m1, target, retry, r, ok, w);
    } else {
      var m2 := ScheduleCaptureRetry(m1, retry, w);
      ScheduleLedger(m1, retry, w);
      StateLedger(m2, RetryWait);
      var r := m2.(state := RetryWait);
      DeferredWithin(m, m1, m2, r, retry, w);
      RefusalWithin(m.env.calls, m.env.calls, m1.env.calls, r.env.calls, w);
    }
  }

  lemma EndedFrom(m0: Model, m: Model, target: CameraKey, retry: Camera, r: Model, ok: bool, w: World)
    requires Ended(m, target, retry, r, ok, w) && Untouched(m0, m) && SameRetries(m0, m)
    requires SameFiller(m0, m, Front) && SameFiller(m0, m, Rear) && !m.wireplumberStopped && m0.env.wpRestarts <= m.env.wpRestarts
    requires m0.wireplumberStopped ==> m0.env.wpRestarts < m.env.wpRestarts
    ensures Ended(m0, target, retry, r, ok, w)
  {
    hide Inv, Deferred, Refusal, Cared;
    if !ok {
      DeferredWithin(m0, m, r, r, retry, w);
      RefusalWithin(m0.env.calls, m.env.calls, r.env.calls, r.env.calls, w);
    }
    forall c | Key(c) != r.active ensures Cared(m0.env.calls, r, c, w) || (Key(c) != m0.active && SameFiller(m0, r, c)) {
      if Cared(m.env.calls, r, c, w) { CaredFrom(m0.env.calls, m.env.calls, r, c, w); }
    }
  }

  lemma TransitionLedger(m: Model, target: CameraKey, w: World)
    requires Inv(m)
    ensures var Outcome(r, ok) := Transition(m, target, w); Moved(m, target, r, ok, w)
  {
    hide StopCapture, StartFiller, Resume, FinishTransition, Ledger, Deferred, Refusal, Cared, ClearCaptureRetry, Took;
    var m0 := m.(state := Stopping, pending := target);
    StateLedger(m, Stopping);
    PendingLedger(m.(state := Stopping), target);
    var retry := if target.Key? then target.camera else if m.active.Key? then m.active.camera else Front;
    if m.active.Nobody? {
      FinishLedger(m0, target, retry, w);
      var Outcome(r, ok) := FinishTransition(m0, target, w);
      EndedFree(m, target, retry, r, ok, w);
      return;
    }
    var was := m.active.camera;
    StopCaptureLedger(m0, retry, w);
    var Outcome(m1, stopped) := StopCapture(m0, retry, w);
    if !stopped {
      StateLedger(m1, RetryWait);
      StayedActive(m, m1, target, retry, w);
      return;
    }
    var cleared := ClearCaptureRetry(m1.(active := Nobody), was);
    ClearedLedger(m1, was);
    StartFillerLedger(cleared, was, w);
    var m2 := StartFiller(cleared, was, w);
    FreedRetries(m);
    CaredFrom(m.env.calls, cleared.env.calls, m2, was, w);
    ResumeLedger(m2, target, retry, w);
    var Outcome(r, ok) := Resume(m2, target, retry, w);
    EndedFreed(m, m2, target, retry, r, ok, w);
  }

  lemma ClearedLedger(m: Model, c: Camera)
    requires Ledger(m) && m.capture.Empty?
    ensures var r := ClearCaptureRetry(m.(active := Nobody), c);
            && Ledger(r)
            && r.captureRetryAfter == m.captureRetryAfter.With(c, 0) && r.captureRetryExponent == m.captureRetryExponent.With(c, 0)
            && Untouched(m.(active := Nobody), r) && SameWireplumber(m, r) && SameFiller(m, r, Front) && SameFiller(m, r, Rear)
  {}

  /** A transition while no camera was active. */
  lemma EndedFree(m: Model, target: CameraKey, retry: Camera, r: Model, ok: bool, w: World)
    requires m.active.Nobody? && Ended(m.(state := Stopping, pending := target), target, retry, r, ok, w)
    requires if target.Key? then retry == target.camera else ok && SameWireplumber(m, r)
    ensures Moved(m, target, r, ok, w)
  {
    hide Inv, Refusal, Cared;
    var m0 := m.(state := Stopping, pending := target);
    if !ok { DeferredWithin(m, m0, r, r, retry, w); }
    forall c | Key(c) != r.active ensures Cared(m.env.calls, r, c, w) || (Key(c) != m.active && SameFiller(m, r, c)) {
      assert Cared(m0.env.calls, r, c, w) || SameFiller(m0, r, c);
    }
  }

  /** One whose old capture refused to stop. */
  lemma StayedActive(m: Model, m1: Model, target: CameraKey, retry: Camera, w: World)
    requires Inv(m) && m.active.Key? && Ledger(m1.(state := RetryWait)) && m1.capture == m.capture && m1.pending == target
    requires retry == if target.Key? then target.camera else m.active.camera
    requires !w(m.env.calls).ok && Untouched(m, m1.(state := m.state, pending := m.pending, env := m1.env.(captureStops := m.env.captureStops)))
    requires SameWireplumber(m, m1) && SameFiller(m, m1, Front) && SameFiller(m, m1, Rear)
    requires Deferred(m.(state := Stopping, pending := target), m1, retry, w) && Refusal(m.env.calls, m1.env.calls, w)
    ensures Moved(m, target, m1.(state := RetryWait), false, w)
  {
    hide Ledger, Refusal, Cared;
    DeferredWithin(m, m.(state := Stopping, pending := target), m1, m1.(state := RetryWait), retry, w);
  }

  /** One whose old capture was stopped. */
  lemma EndedFreed(m: Model, m2: Model, target: CameraKey, retry: Camera, r: Model, ok: bool, w: World)
    requires Inv(m) && m.active.Key? && w(m.env.calls).ok && Ended(m2, target, retry, r, ok, w)
    requires retry == if target.Key? then target.camera else m.active.camera
    requires SameRetries(Freed(m), m2) && m2.pending == target && m2.active.Nobody?
    requires m2.candidate == m.candidate && m2.candidateSince == m.candidateSince && m2.idleSince == m.idleSince
    requires m2.env.samples == m.env.samples && m2.env.producerFailures == m.env.producerFailures
    requires m2.env.captureStarts == m.env.captureStarts && m.env.calls <= m2.env.calls
    requires SameWireplumber(m, m2) && SameFiller(m, m2, Other(m.active.camera)) && Cared(m.env.calls, m2, m.active.camera, w)
    requires ok && target.Nobody? ==> !r.wireplumberStopped
    ensures Moved(m, target, r, ok, w)
  {
    hide Ledger, Refusal, Cared, ClearCaptureRetry;
    var was := m.active.camera;
    FreedRetries(m);
    if !ok {
      DeferredWithin(Freed(m), m2, r, r, retry, w);
      RefusalWithin(m.env.calls, m2.env.calls, r.env.calls, r.env.calls, w);
    }
    forall c | Key(c) != r.active ensures Cared(m.env.calls, r, c, w) || (Key(c) != m.active && SameFiller(m, r, c)) {
      if Cared(m2.env.calls, r, c, w) {
        CaredFrom(m.env.calls, m2.env.calls, r, c, w);
      } else if c == was {
        CaredLater(m.env.calls, m2, m.env.calls, r, c, w);
      }
    }
  }

  /** Closing gives WirePlumber back, and no capture is started before that. */
  lemma MovedGivesBack(m: Model, target: CameraKey, r: Model, ok: bool, w: World)
    requires Moved(m, target, r, ok, w)
    ensures Inv(r)
    ensures ok && target.Nobody? && m.active.Key? ==> !r.wireplumberStopped
    ensures m.wireplumberStopped && r.env.captureStarts != m.env.captureStarts ==> r.env.wpRestarts > m.env.wpRestarts
  {
    hide Ledger, FillersLeft, Stuck;
  }

  lemma DroppedInv(m: Model, failed: Camera, r: Model, w: World)
    requires Dropped(m, failed, r, w)
    ensures Inv(r)
  {}

  /** What the handling of a dead producer leaves behind. */
  ghost predicate Dropped(m: Model, failed: Camera, r: Model, w: World) {
    && Inv(r) && r.state == RetryWait && r.pending == m.pending
    && (if w(m.env.calls).ok then r.active.Nobody? && Cared(m.env.calls, r, failed, w) else r.active == m.active)
    && Deferred(m, r, failed, w) && SameFiller(m, r, Other(failed))
    && r.candidate == m.candidate && r.candidateSince == m.candidateSince && r.idleSince == m.idleSince
    && r.env.samples == m.env.samples && r.env.captureStarts == m.env.captureStarts
    && r.env.producerFailures == m.env.producerFailures && m.env.calls <= r.env.calls
  }

  lemma CaptureFailedLedger(m: Model, w: World)
    requires Inv(m) && m.active.Key?
    ensures Dropped(m, m.active.camera, CaptureFailed(m, w), w)
  {
    hide StopCapture, StartFiller, RestoreWireplumber, ScheduleCaptureRetry, Ledger, Deferred, Cared, Refusal;
    var failed := m.active.camera;
    StopCaptureLedger(m, failed, w);
    var Outcome(m1, stopped) := StopCapture(m, failed, w);
    if !stopped {
      StateLedger(m1, RetryWait);
      DeferredWithin(m, m, m1, m1.(state := RetryWait), failed, w);
      return;
    }
    var m2 := m1.(active := Nobody);
    NobodyLedger(m1);
    StartFillerLedger(m2, failed, w);
    var m3 := StartFiller(m2, failed, w);
    RestoreLedger(m3, w);
    var m4 := RestoreWireplumber(m3, w).m;
    ScheduleLedger(m4, failed, w);
    var m5 := ScheduleCaptureRetry(m4, failed, w);
    StateLedger(m5, RetryWait);
    DeferredWithin(m, m4, m5, m5.(state := RetryWait), failed, w);
    CaredLater(m.env.calls, m3, m2.env.calls, m5.(state := RetryWait), failed, w);
  }

  lemma NobodyLedger(m: Model)
    requires Ledger(m) && m.capture.Empty?
    ensures Ledger(m.(active := Nobody))
  {}

  // ---------------------------------------------------------------- ticks and runs

  /** When a decision changes camera: nothing asked for during the close grace, or a
      camera asked for that is not streaming, past its retry time and, unless it is
      only to be started again, past the debounce. */
  predicate Due(m: Model, requested: CameraKey, current: nat, r: Model) {
    if requested.Nobody? then m.active.Key? && Elapsed(current, r.idleSince) >= 1500
    else
      && (requested == m.active ==> m.state != Streaming)
      && current >= m.captureRetryAfter.At(requested.camera)
      && (requested != m.active ==> Elapsed(current, r.candidateSince) >= 450)
  }

  /** The debounce and idle clocks as the decision leaves them. */
  function Marked(m: Model, r: Model): Model {
    m.(candidate := r.candidate, candidateSince := r.candidateSince, idleSince := r.idleSince)
  }

  /** What a decision comes to: the transition that is due, or the clocks alone. */
  ghost predicate Decided(m: Model, requested: CameraKey, current: nat, r: Model, ok: bool, w: World) {
    && Inv(r)
    && r.candidate == requested
    && r.candidateSince == (if requested.Nobody? || requested == m.candidate then m.candidateSince else current)
    && r.idleSince == (if requested.Key? || m.active.Nobody? then 0 else if m.idleSince == 0 then current else m.idleSince)
    && (Due(m, requested, current, r) ==> Moved(Marked(m, r), requested, r, ok, w))
    && (!Due(m, requested, current, r) ==>
          && ok && r == Marked(m, r).(state := r.state)
          && (requested.Key? || m.active.Key? ==> r.state == m.state)
          && (requested.Nobody? && m.active.Nobody? ==>
                r.state == if m.state == RetryWait && m.pending.Key? then RetryWait else Idle))
  }

  lemma DecideLedger(m: Model, requested: CameraKey, current: nat, w: World)
    requires Inv(m)
    ensures var Outcome(r, ok) := Decide(m, requested, current, w); Decided(m, requested, current, r, ok, w)
  {
    hide Transition, Ledger, Reached, Stuck, FillersLeft, GivenBack;
    if requested.Nobody? {
      var m1 := m.(candidate := Nobody);
      var m2 := if m1.idleSince == 0 then m1.(idleSince := current) else m1;
      KeepsInv(m, m2);
      KeepsInv(m, m1.(idleSince := 0));
      KeepsInv(m, m1.(idleSince := 0, state := if m.active.Nobody? then Idle else m.state));
      if m.active.Key? { TransitionLedger(m2, Nobody, w); }
    } else {
      var m1 := m.(idleSince := 0);
      var m2 := if requested != m1.candidate then m1.(candidate := requested, candidateSince := current) else m1;
      KeepsInv(m, m2);
      TransitionLedger(m2, requested, w);
    }
  }

  /** The debounce and idle clocks, and leaving RETRY_WAIT for IDLE, do not touch the books. */
  lemma KeepsInv(m: Model, r: Model)
    requires Inv(m)
    requires r == m.(candidate := r.candidate, candidateSince := r.candidateSince, idleSince := r.idleSince, state := r.state)
    requires r.state == m.state || (m.active.Nobody? && r.state == Idle)
    ensures Inv(r)
  {}

  // ---------------------------------------------------------------- one tick

  /** The state in which a tick reaches its capture poll. */
  function Tended(m: Model, w: World): Model { TendFiller(TendFiller(Called(m), Front, w), Rear, w) }

  lemma TendedLedger(m: Model, w: World)
    requires Inv(m)
    ensures Tending(m, Tended(m, w), w) && m.env.calls + 1 <= Tended(m, w).env.calls
  {
    hide TendFiller, Ledger, Cared, Polled;
    CalledLedger(m);
    var m1 := Called(m);
    var m2 := TendFiller(m1, Front, w);
    TendFillerLedger(m1, Front, w);
    TendFillerLedger(m2, Rear, w);
    var r := Tended(m, w);
    forall c | m.active != Key(c) ensures Cared(m.env.calls, r, c, w) {
      if c == Front { CaredLater(m.env.calls, m2, m1.env.calls, r, c, w); } else { CaredFrom(m.env.calls, m2.env.calls, r, c, w); }
    }
    forall c | m.filler.At(c).Holding? ensures PolledOnce(m, r, c, w) {
      if c == Front { PolledLater(m1, m2, m, r, c, w, m1.env.calls); } else { PolledLater(m2, r, m, r, c, w, m2.env.calls); }
    }
  }

  lemma PolledLater(m: Model, r: Model, m0: Model, r1: Model, c: Camera, w: World, k: nat)
    requires Polled(m, r, c, w, k) && m0.filler.At(c) == m.filler.At(c) && r1.filler.At(c) == r.filler.At(c)
    requires m0.env.calls < k
    ensures PolledOnce(m0, r1, c, w)
  {
    assert Polled(m0, r1, c, w, k);
  }

  ghost predicate PolledOnce(m: Model, r: Model, c: Camera, w: World) {
    exists k: nat :: m.env.calls < k && Polled(m, r, c, w, k)
  }

  /** What a tick has done by the time it polls its capture: every filler was polled,
      and started where there was none, and nothing else was touched. */
  ghost predicate Tending(m: Model, mid: Model, w: World) {
    && Inv(mid) && Untouched(m, mid) && SameWireplumber(m, mid) && SameRetries(m, mid)
    && m.env.calls < mid.env.calls
    && (forall c | m.active != Key(c) :: Cared(m.env.calls, mid, c, w))
    && forall c | m.filler.At(c).Holding? :: PolledOnce(m, mid, c, w)
  }

  /** The clock value a tick from `m` works with. */
  function TickTime(m: Model, w: World): nat { w(m.env.calls).now }

  function Last(m: Model): Sample
    requires |m.env.samples| > 0
  {
    m.env.samples[|m.env.samples| - 1]
  }

  /** A tick whose producer failed: nothing was sampled, nothing chosen, and the dead
      capture was dropped. */
  ghost predicate Failed(m: Model, mid: Model, r: Model, w: World) {
    && Tending(m, mid, w) && m.active.Key? && m.state == Streaming
    && m.env.calls + 1 < mid.env.calls && w(mid.env.calls - 1).poll != 0
    && Dropped(Died(mid), m.active.camera, r, w)
  }

  function Died(m: Model): Model { m.(env := m.env.(producerFailures := m.env.producerFailures + 1)) }

  /** The state in which any other tick makes its decision: one mask reading added, by
      the last call, and before that a live capture polled. */
  ghost predicate Ready(m: Model, mid: Model, s: Sample, w: World) {
    && Inv(mid) && Tending(m, Unread(m, mid), w)
    && mid.env.samples == m.env.samples + [s]
    && s.time == TickTime(m, w) && s.active == m.active
    && var k := mid.env.calls - 1;
       && m.env.calls < k && s.front == w(k).front && s.rear == w(k).rear
       && (m.state == Streaming ==> w(k - 1).poll == 0)
  }

  function Unread(m: Model, mid: Model): Model { mid.(env := mid.env.(samples := m.env.samples)) }

  lemma MaskReady(m: Model, polled: Model, w: World) returns (mid: Model, s: Sample)
    requires Inv(m) && Tending(m, polled, w)
    requires m.state == Streaming ==> w(polled.env.calls - 1).poll == 0
    ensures Ready(m, mid, s, w) && s.time == TickTime(m, w)
    ensures ReadMask(polled, TickTime(m, w), w) == Asked(mid, Requested(m.active, s.front, s.rear))
  {
    hide Cared, PolledOnce;
    var r := Answer(polled, w);
    s := Sample(TickTime(m, w), r.front, r.rear, polled.active);
    mid := ReadMask(polled, TickTime(m, w), w).m;
    forall c | m.active != Key(c) ensures Cared(m.env.calls, Unread(m, mid), c, w) {
      CaredLater(m.env.calls, polled, m.env.calls, Unread(m, mid), c, w);
    }
    forall c | m.filler.At(c).Holding? ensures PolledOnce(m, Unread(m, mid), c, w) { PolledSame(m, polled, Unread(m, mid), c, w); }
  }

  lemma PolledSame(m: Model, r: Model, s: Model, c: Camera, w: World)
    requires PolledOnce(m, r, c, w) && s.filler.At(c) == r.filler.At(c)
    ensures PolledOnce(m, s, c, w)
  {
    var k: nat :| m.env.calls < k && Polled(m, r, c, w, k);
    assert Polled(m, s, c, w, k);
  }

  lemma CalledTending(m: Model, mid: Model, w: World)
    requires Tending(m, mid, w)
    ensures Tending(m, Called(mid), w) && Inv(Died(Called(mid)))
  {
    hide Cared, PolledOnce;
    var r := Called(mid);
    forall c | m.active != Key(c) ensures Cared(m.env.calls, r, c, w) { CaredLater(m.env.calls, mid, m.env.calls, r, c, w); }
    forall c | m.filler.At(c).Holding? ensures PolledOnce(m, r, c, w) { PolledSame(m, mid, r, c, w); }
  }

  lemma TickSteps(m: Model, w: World)
    requires Inv(m)
    ensures var m1, now := Tended(m, w), TickTime(m, w);
            if m1.capture.Holding? && m1.state == Streaming && m1.active.Key? then
              Tick(m, w) == if Answer(m1, w).poll != 0
                            then Outcome(CaptureFailed(Died(Called(m1)), w), Answer(m1, w).poll > 0)
                            else SampleAndDecide(Called(m1), now, w)
            else Tick(m, w) == SampleAndDecide(m1, now, w)
  {
    hide TendFiller, CaptureFailed, SampleAndDecide, Ledger;
  }

  lemma TickCases(m: Model, w: World) returns (failed: bool, mid: Model, s: Sample)
    requires Inv(m)
    ensures failed ==> Failed(m, mid, Tick(m, w).m, w) && (Tick(m, w).ok <==> w(mid.env.calls - 1).poll > 0)
    ensures !failed ==>
              && Ready(m, mid, s, w)
              && Tick(m, w) == Decide(mid, Requested(m.active, s.front, s.rear), s.time, w)
              && Decided(mid, Requested(m.active, s.front, s.rear), s.time, Tick(m, w).m, Tick(m, w).ok, w)
  {
    hide Tick, Tended, CaptureFailed, Decide, Ledger, Cared, PolledOnce, Dropped, Decided, Ready;
    TendedLedger(m, w);
    TickSteps(m, w);
    var m1 := Tended(m, w);
    if m1.capture.Holding? && m1.state == Streaming {
      var m2 := Called(m1);
      CalledTending(m, m1, w);
      failed := Answer(m1, w).poll != 0;
      if failed {
        CaptureFailedLedger(Died(m2), w);
        mid, s := m2, Sample(0, false, false, Nobody);
      } else {
        mid, s := MaskReady(m, m2, w);
        ReadyInv(m, mid, s, w);
        DecideLedger(mid, Requested(m.active, s.front, s.rear), s.time, w);
      }
    } else {
      failed := false;
      mid, s := MaskReady(m, m1, w);
      ReadyInv(m, mid, s, w);
      DecideLedger(mid, Requested(m.active, s.front, s.rear), s.time, w);
    }
  }

  lemma ReadyInv(m: Model, mid: Model, s: Sample, w: World)
    requires Ready(m, mid, s, w)
    ensures Inv(mid)
  {}

  /** What a tick that found its producer dead leaves of the debounce, and what any
      other tick does to it, in terms of its reading. */
  ghost predicate Quiet(m: Model, r: Model) {
    && r.env.samples == m.env.samples && r.env.producerFailures == m.env.producerFailures + 1
    && (r.active == m.active || r.active.Nobody?)
    && r.candidate == m.candidate && r.candidateSince == m.candidateSince && r.idleSince == m.idleSince
    && r.env.captureStarts == m.env.captureStarts
  }

  ghost predicate Chose(m: Model, r: Model, s: Sample, w: World) {
    var requested := Choice(s);
    && r.env.samples == m.env.samples + [s] && s.time == TickTime(m, w) && s.active == m.active
    && r.env.producerFailures == m.env.producerFailures
    && (|| r.active == m.active || r.active.Nobody?
        || (r.active == requested && r.env.captureStarts == m.env.captureStarts + [requested.camera]))
    && r.candidate == requested
    && r.candidateSince == (if requested.Nobody? || requested == m.candidate then m.candidateSince else s.time)
    && r.idleSince == (if requested.Key? || m.active.Nobody? then 0 else if m.idleSince == 0 then s.time else m.idleSince)
    && (|| r.env.captureStarts == m.env.captureStarts
        || (requested.Key? && r.env.captureStarts == m.env.captureStarts + [requested.camera]))
    && (r.env.captureStops != m.env.captureStops || r.env.captureStarts != m.env.captureStarts ==> Due(m, requested, s.time, r))
  }

  function Choice(s: Sample): CameraKey { Requested(s.active, s.front, s.rear) }

  lemma TickFacts(m: Model, w: World) returns (failed: bool, s: Sample)
    requires Inv(m)
    ensures Inv(Tick(m, w).m) && m.env.calls < Tick(m, w).m.env.calls
    ensures if failed then m.state == Streaming && Quiet(m, Tick(m, w).m) else Chose(m, Tick(m, w).m, s, w)
  {
    hide Tick, Decide, Ledger, Cared, PolledOnce, Deferred, Reached, Stuck, FillersLeft, GivenBack;
    var mid;
    failed, mid, s := TickCases(m, w);
  }

  lemma TickLedger(m: Model, w: World)
    requires Inv(m)
    ensures Inv(Tick(m, w).m) && m.env.calls < Tick(m, w).m.env.calls
  {
    hide Tick, Quiet, Chose, Inv;
    var failed, s := TickFacts(m, w);
  }

  /** After every tick, under any failures, each camera that is not active has its
      filler, or its filler is not to be tried yet. */
  lemma TickCared(m: Model, w: World)
    requires Inv(m)
    ensures forall c | Tick(m, w).m.active != Key(c) :: Cared(m.env.calls, Tick(m, w).m, c, w)
  {
    hide Tick, Decide, Ledger, Cared, PolledOnce, Deferred, Reached, Stuck, Polled, Due;
    var failed, mid, s := TickCases(m, w);
    var r := Tick(m, w).m;
    var requested := Requested(m.active, s.front, s.rear);
    forall c | r.active != Key(c) ensures Cared(m.env.calls, r, c, w) {
      if failed {
        if c == m.active.camera { CaredFrom(m.env.calls, mid.env.calls, r, c, w); }
        else { CaredLater(m.env.calls, mid, m.env.calls, r, c, w); }
      } else if Due(mid, requested, s.time, r) && Cared(mid.env.calls, r, c, w) {
        CaredFrom(m.env.calls, mid.env.calls, r, c, w);
      } else {
        CaredLater(m.env.calls, Unread(m, mid), m.env.calls, r, c, w);
      }
    }
  }

  // ---------------------------------------------------------------- runs

  ghost predicate Succ(run: seq<Model>, i: nat, w: World)
    requires i + 1 < |run|
  {
    run[i + 1] == Tick(run[i], w).m
  }

  /** States between ticks, from creation on. */
  ghost predicate IsRun(run: seq<Model>, w: World) {
    && |run| > 0
    && run[0] == New(w)
    && forall i: nat {:trigger Succ(run, i, w)} | i + 1 < |run| :: Succ(run, i, w)
  }

  lemma BootLedger()
    ensures Ledger(Boot)
  {}

  lemma FillBoth(b: Model, w: World)
    requires Ledger(b) && b.capture.Empty?
    ensures var r := StartFiller(StartFiller(b, Front, w), Rear, w);
            && Ledger(r) && Untouched(b, r) && SameWireplumber(b, r)
            && Cared(b.env.calls, r, Front, w) && Cared(b.env.calls, r, Rear, w)
  {
    hide StartFiller, Cared, Ledger;
    StartFillerLedger(b, Front, w);
    var m := StartFiller(b, Front, w);
    StartFillerLedger(m, Rear, w);
    CaredLater(b.env.calls, m, b.env.calls, StartFiller(m, Rear, w), Front, w);
    CaredFrom(b.env.calls, m.env.calls, StartFiller(m, Rear, w), Rear, w);
  }

  lemma NewLedger(w: World)
    ensures Inv(New(w)) && Untouched(Boot, New(w))
  {
    hide StartFiller, Ledger;
    BootLedger();
    FillBoth(Boot, w);
  }

  lemma {:induction false} RunInv(run: seq<Model>, n: nat, w: World)
    requires IsRun(run, w) && n < |run|
    ensures Inv(run[n])
  {
    hide Tick, New;
    if n == 0 {
      NewLedger(w);
    } else {
      RunInv(run, n - 1, w);
      assert Succ(run, n - 1, w);
      TickLedger(run[n - 1], w);
    }
  }

  /** Conservation over every run: no pipeline is started on a camera that has
      one, at most one capture is live, no started pipeline is lost or freed
      twice, and WirePlumber is owed at most one restart, exactly when the
      controller says so. */
  lemma RunConserves(run: seq<Model>, n: nat, w: World)
    requires IsRun(run, w) && n < |run|
    ensures var m := run[n];
            && !m.env.overlap
            && m.env.live.front <= 1 && m.env.live.rear <= 1
            && m.env.starts == m.env.frees + One(m.capture.Holding?) + One(m.filler.front.Holding?) + One(m.filler.rear.Holding?)
            && (m.capture.Holding? <==> m.active.Key?)
            && (m.capture.Holding? ==> m.filler.At(m.capture.handle.camera).Empty?)
            && 0 <= m.env.wpStops - m.env.wpRestarts <= 1
            && (m.wireplumberStopped <==> m.env.wpStops - m.env.wpRestarts == 1)
  {
    RunInv(run, n, w);
  }

  /** Shutdown empties the books, except that it forgets the active camera even
      when that camera's capture could not be stopped. */
  lemma ShutdownKeepsInvIffCaptureStopped(m: Model, w: World)
    requires Inv(m)
    ensures Inv(Shutdown(m, w).m) <==> (m.capture.Holding? ==> Answer(m, w).ok)
    ensures Shutdown(m, w).ok ==>
              var r := Shutdown(m, w).m;
              r.env.starts == r.env.frees && r.env.wpStops == r.env.wpRestarts && !r.wireplumberStopped
  {
    var Outcome(m1, a) := StopCaptureHandle(m, w);
    if a {
      ReleaseRest(m1, w);
    } else {
      assert Shutdown(m, w).m.capture.Holding?;
    }
  }

  ghost predicate AllOk(w: World, from: nat, to: nat) { forall k | from <= k < to :: w(k).ok }

  lemma StopsReport(m: Model, c: Camera, w: World)
    ensures var Outcome(r, ok) := StopCaptureHandle(m, w); m.env.calls <= r.env.calls && (ok <==> AllOk(w, m.env.calls, r.env.calls))
    ensures var Outcome(r, ok) := StopFiller(m, c, w); m.env.calls <= r.env.calls && (ok <==> AllOk(w, m.env.calls, r.env.calls))
    ensures var Outcome(r, ok) := RestoreWireplumber(m, w); m.env.calls <= r.env.calls && (ok <==> AllOk(w, m.env.calls, r.env.calls))
  {}

  /** Shutdown reports success exactly if nothing it asked for was refused. */
  lemma ShutdownReports(m: Model, w: World)
    ensures var Outcome(r, ok) := Shutdown(m, w); ok <==> AllOk(w, m.env.calls, r.env.calls)
  {
    hide StopCaptureHandle, StopFiller, RestoreWireplumber;
    StopsReport(m, Front, w);
    var m1 := StopCaptureHandle(m, w).m;
    StopsReport(m1, Front, w);
    var m2 := StopFiller(m1, Front, w).m;
    StopsReport(m2, Rear, w);
    StopsReport(StopFiller(m2, Rear, w).m, Rear, w);
  }

  lemma ReleaseRest(m1: Model, w: World)
    requires Ledger(m1) && m1.capture.Empty?
    ensures var Outcome(m2, b) := StopFiller(m1, Front, w);
            var Outcome(m3, c) := StopFiller(m2, Rear, w);
            var Outcome(m4, d) := RestoreWireplumber(m3, w);
            && Inv(m4.(active := Nobody, state := Idle))
            && (b && c && d ==> m4.filler.front.Empty? && m4.filler.rear.Empty? && !m4.wireplumberStopped)
  {
    hide StopFiller, RestoreWireplumber;
    StopFillerLedger(m1, Front, w);
    var m2 := StopFiller(m1, Front, w).m;
    StopFillerLedger(m2, Rear, w);
    RestoreLedger(StopFiller(m2, Rear, w).m, w);
  }

  // ---------------------------------------------------------------- debounce and close grace

  ghost predicate Monotone(w: World) { forall i: nat, j: nat :: i <= j ==> w(i).now <= w(j).now }

  /** From sample `k` on, every reading asked for the debounced camera, and
      nothing but that camera became active meanwhile. */
  ghost predicate CandidateWindow(m: Model, k: nat) {
    && k < |m.env.samples|
    && m.env.samples[k].time == m.candidateSince
    && forall i | k <= i < |m.env.samples| ::
         && Choice(m.env.samples[i]) == m.candidate
         && (m.active.Nobody? || m.active == m.candidate || m.env.samples[i].active == m.active)
  }

  /** From sample `k` on, nobody wanted any camera. */
  ghost predicate IdleWindow(m: Model, k: nat) {
    && k < |m.env.samples|
    && m.env.samples[k].time == m.idleSince
    && forall i | k <= i < |m.env.samples| :: !m.env.samples[i].front && !m.env.samples[i].rear
  }

  ghost predicate History(m: Model, w: World) {
    && (m.candidate.Key? ==> exists k :: CandidateWindow(m, k))
    && (m.idleSince != 0 ==> exists k :: IdleWindow(m, k))
    && m.candidateSince <= TickTime(m, w) && m.idleSince <= TickTime(m, w)
  }

  lemma TickHistory(m: Model, w: World)
    requires Inv(m) && History(m, w) && Monotone(w)
    ensures History(Tick(m, w).m, w)
  {
    hide Tick, Ledger;
    var r := Tick(m, w).m;
    var failed, s := TickFacts(m, w);
    assert TickTime(m, w) <= TickTime(r, w);
    var last := |m.env.samples|;
    if failed {
      if m.candidate.Key? {
        var k: nat :| CandidateWindow(m, k);
        assert CandidateWindow(r, k);
      }
      if m.idleSince != 0 {
        var k: nat :| IdleWindow(m, k);
        assert IdleWindow(r, k);
      }
      return;
    }
    if r.candidate.Key? {
      if r.candidate == m.candidate {
        var k: nat :| CandidateWindow(m, k);
        assert CandidateWindow(r, k);
      } else {
        assert CandidateWindow(r, last);
      }
    }
    if r.idleSince != 0 {
      if m.idleSince != 0 {
        var k: nat :| IdleWindow(m, k);
        assert IdleWindow(r, k);
      } else {
        assert IdleWindow(r, last);
      }
    }
  }

  lemma {:induction false} RunHistory(run: seq<Model>, n: nat, w: World)
    requires IsRun(run, w) && n < |run| && Monotone(w)
    ensures History(run[n], w)
  {
    hide Tick, New, Ledger;
    if n == 0 {
      NewLedger(w);
      BootHistory(run[0], w);
    } else {
      RunInv(run, n - 1, w);
      RunHistory(run, n - 1, w);
      assert Succ(run, n - 1, w);
      TickHistory(run[n - 1], w);
    }
  }

  lemma BootHistory(r: Model, w: World)
    requires Untouched(Boot, r)
    ensures History(r, w)
  {}

  /** Debounce and close grace over every run with a monotone clock: a tick that
      stops a streaming capture whose producer is healthy either saw, at every
      reading over at least 450 ms, another camera asked for and this one not
      asked for, or saw nothing asked for over at least 1500 ms. */
  lemma HealthyCaptureStops(run: seq<Model>, n: nat, w: World)
    requires IsRun(run, w) && n + 1 < |run| && Monotone(w)
    requires var m, r := run[n], run[n + 1];
             && m.state == Streaming
             && r.env.producerFailures == m.env.producerFailures
             && r.env.captureStops != m.env.captureStops
    ensures var m, r := run[n], run[n + 1];
            && m.active.Key? && |r.env.samples| > 0
            && exists k :: 0 <= k < |r.env.samples|
                 && (if Choice(Last(r)).Key? then
                       && Last(r).time - r.env.samples[k].time >= 450
                       && forall i | k <= i < |r.env.samples| ::
                            Choice(r.env.samples[i]) == Choice(Last(r)) && !r.env.samples[i].Wants(m.active.camera)
                     else
                       && Last(r).time - r.env.samples[k].time >= 1500
                       && forall i | k <= i < |r.env.samples| :: !r.env.samples[i].front && !r.env.samples[i].rear)
  {
    hide Tick, Ledger;
    var m, r := run[n], run[n + 1];
    RunInv(run, n, w);
    RunHistory(run, n, w);
    RunHistory(run, n + 1, w);
    assert Succ(run, n, w);
    var failed, s := TickFacts(m, w);
    if Choice(s).Key? { DecisionWindow(m, r, s, w); } else { ClosingWindow(m, r, s, w); }
  }

  /** A camera closed because nothing was asked for: its window asked for nothing. */
  lemma ClosingWindow(m: Model, r: Model, s: Sample, w: World)
    requires Inv(m) && History(m, w) && History(r, w) && Chose(m, r, s, w) && Choice(s).Nobody?
    requires r.env.captureStops != m.env.captureStops
    ensures exists k :: 0 <= k < |r.env.samples|
                        && s.time - r.env.samples[k].time >= 1500
                        && forall i | k <= i < |r.env.samples| :: !r.env.samples[i].front && !r.env.samples[i].rear
  {
    hide Ledger;
    var k: nat :| IdleWindow(r, k);
  }

  /** A candidate that outlasted the debounce against the active camera: its
      window never asked for the active one. */
  lemma DecisionWindow(m: Model, r: Model, s: Sample, w: World)
    requires Inv(m) && History(m, w) && History(r, w) && Chose(m, r, s, w)
    requires Choice(s).Key? && Choice(s) != m.active
    requires r.env.captureStops != m.env.captureStops || r.env.captureStarts != m.env.captureStarts
    ensures exists k :: 0 <= k < |r.env.samples|
                        && s.time - r.env.samples[k].time >= 450
                        && forall i | k <= i < |r.env.samples| ::
                             && Choice(r.env.samples[i]) == Choice(s)
                             && (m.active.Key? ==> !r.env.samples[i].Wants(m.active.camera))
  {
    hide Ledger;
    var last := |m.env.samples|;
    assert r.env.samples[last] == s;
    if m.candidate == Choice(s) {
      var k: nat :| CandidateWindow(m, k);
      forall i: nat | k <= i < |r.env.samples|
        ensures Choice(r.env.samples[i]) == Choice(s)
        ensures m.active.Key? ==> !r.env.samples[i].Wants(m.active.camera)
      {
        if i < last { assert r.env.samples[i] == m.env.samples[i]; }
      }
      assert r.env.samples[k] == m.env.samples[k];
    }
  }

  /** Over every run with a monotone clock: a capture is only started on a
      camera other than the active one after at least 450 ms of readings that
      all asked for it, and never before its retry time. */
  lemma CaptureStartsDebounced(run: seq<Model>, n: nat, w: World)
    requires IsRun(run, w) && n + 1 < |run| && Monotone(w)
    requires run[n + 1].env.captureStarts != run[n].env.captureStarts
    ensures var m, r := run[n], run[n + 1];
            && |r.env.samples| > 0 && Choice(Last(r)).Key?
            && r.env.captureStarts == m.env.captureStarts + [Choice(Last(r)).camera]
            && Last(r).time >= m.captureRetryAfter.At(Choice(Last(r)).camera)
            && (Choice(Last(r)) == m.active ==> m.state == RetryWait)
            && (Choice(Last(r)) != m.active ==>
                  exists k :: 0 <= k < |r.env.samples|
                    && Last(r).time - r.env.samples[k].time >= 450
                    && forall i | k <= i < |r.env.samples| :: Choice(r.env.samples[i]) == Choice(Last(r)))
  {
    hide Tick, Ledger;
    var m, r := run[n], run[n + 1];
    RunInv(run, n, w);
    RunHistory(run, n, w);
    RunHistory(run, n + 1, w);
    assert Succ(run, n, w);
    var failed, s := TickFacts(m, w);
    if Choice(s) != m.active { DecisionWindow(m, r, s, w); }
  }

  /** A camera is active only once the clock has passed the first debounce. */
  lemma {:induction false} ActiveAfterDebounce(run: seq<Model>, n: nat, w: World)
    requires IsRun(run, w) && n < |run| && Monotone(w)
    ensures run[n].active.Key? ==> TickTime(run[n], w) >= 450
  {
    hide Tick, New, Ledger;
    if n == 0 {
      NewLedger(w);
    } else {
      var m, r := run[n - 1], run[n];
      RunInv(run, n - 1, w);
      assert Succ(run, n - 1, w);
      TickLedger(m, w);
      assert TickTime(m, w) <= TickTime(r, w);
      ActiveAfterDebounce(run, n - 1, w);
      if m.active.Nobody? && r.active.Key? {
        var failed, s := TickFacts(m, w);
        CaptureStartsDebounced(run, n - 1, w);
        assert Last(r) == s;
      }
    }
  }

  // ---------------------------------------------------------------- retries and fillers

  /** A tick puts the retry of a camera that is not active off by 2 s or more, and only
      once it was due, or leaves it. */
  lemma DeadlineKept(m: Model, w: World, c: Camera)
    requires Inv(m) && Monotone(w)
    ensures var r := Tick(m, w).m;
            m.active != Key(c) && r.active != Key(c) ==>
              || r.captureRetryAfter.At(c) == m.captureRetryAfter.At(c)
              || (m.captureRetryAfter.At(c) <= TickTime(m, w) && r.captureRetryAfter.At(c) >= TickTime(m, w) + 2000)
    ensures var r := Tick(m, w).m;
            r.active != Key(c) && r.env.captureStarts == m.env.captureStarts + [c] ==>
              r.captureRetryAfter.At(c) >= TickTime(m, w) + 2000
  {
    hide Tick, Decide, Ledger, Cared, PolledOnce, Refusal, FillersLeft, GivenBack, Polled, RetryDelay, NextExponent, Deferred;
    var failed, mid, s := TickCases(m, w);
    var r := Tick(m, w).m;
    var requested := Requested(m.active, s.front, s.rear);
    assert TickTime(m, w) <= w(mid.env.calls).now;
    if r.env.captureStarts == m.env.captureStarts + [c] {
      assert r.env.captureStarts[|m.env.captureStarts|] == c && |r.env.captureStarts| == |m.env.captureStarts| + 1;
    }
    if failed {
      DeferredFor(Died(mid), r, m.active.camera, w);
    } else if Due(mid, requested, s.time, r) && !Tick(m, w).ok {
      var base := Marked(mid, r);
      var retry := if requested.Key? then requested.camera else m.active.camera;
      if base.active.Key? { FreedRetries(base); }
      DeferredFor(if r.active.Nobody? then Freed(base) else base, r, retry, w);
    } else if Due(mid, requested, s.time, r) {
      var base := Marked(mid, r);
      if base.active.Key? { FreedRetries(base); }
    }
  }

  lemma DeferredFor(m: Model, r: Model, c: Camera, w: World)
    requires Deferred(m, r, c, w) && Monotone(w)
    ensures r.captureRetryAfter.At(c) >= w(m.env.calls).now + 2000
    ensures r.captureRetryAfter.At(Other(c)) == m.captureRetryAfter.At(Other(c))
  {
    RetryBounds(m.captureRetryExponent.At(c));
    hide RetryDelay;
    var j :| DeferredAt(m, r, c, w, j);
    assert w(m.env.calls).now <= w(j).now;
  }

  lemma {:induction false} StaysDeferred(run: seq<Model>, p: nat, n: nat, c: Camera, w: World)
    requires IsRun(run, w) && p < n < |run| && Monotone(w)
    requires run[p + 1].env.captureStarts == run[p].env.captureStarts + [c]
    requires forall i | p < i <= n :: run[i].active != Key(c)
    ensures run[n].captureRetryAfter.At(c) >= TickTime(run[p], w) + 2000
  {
    hide Tick, New, Inv;
    RunInv(run, n - 1, w);
    assert Succ(run, n - 1, w);
    DeadlineKept(run[n - 1], w, c);
    if n - 1 > p { StaysDeferred(run, p, n - 1, c, w); }
  }

  /** Over every run with a monotone clock: after a start on a camera that failed, the
      next one comes at least 2 s later. */
  lemma RetriesSpaced(run: seq<Model>, p: nat, n: nat, c: Camera, w: World)
    requires IsRun(run, w) && p < n && n + 1 < |run| && Monotone(w)
    requires run[p + 1].env.captureStarts == run[p].env.captureStarts + [c]
    requires forall i | p < i <= n :: run[i].active != Key(c)
    requires run[n + 1].env.captureStarts == run[n].env.captureStarts + [c]
    ensures TickTime(run[n], w) >= TickTime(run[p], w) + 2000
  {
    hide Tick, New, Inv;
    StaysDeferred(run, p, n, c, w);
    assert run[n + 1].env.captureStarts[|run[n].env.captureStarts|] == c;
    assert |run[n + 1].env.captureStarts| == |run[n].env.captureStarts| + 1;
    CaptureStartsDebounced(run, n, w);
    LastTime(run, n, w);
  }

  lemma LastTime(run: seq<Model>, n: nat, w: World)
    requires IsRun(run, w) && n + 1 < |run| && run[n + 1].env.captureStarts != run[n].env.captureStarts
    ensures |run[n + 1].env.samples| > 0 && Last(run[n + 1]).time == TickTime(run[n], w)
  {
    hide Tick, New, Ledger;
    RunInv(run, n, w);
    assert Succ(run, n, w);
    var failed, s := TickFacts(run[n], w);
  }

  /** Over every run with a monotone clock: after a tick, a camera that is not active
      has its filler, unless the filler's retry time is later than the tick. */
  lemma FillersRun(run: seq<Model>, n: nat, c: Camera, w: World)
    requires IsRun(run, w) && n + 1 < |run| && Monotone(w) && run[n + 1].active != Key(c)
    ensures run[n + 1].filler.At(c).Holding? || TickTime(run[n], w) < run[n + 1].fillerRetryAfter.At(c)
  {
    hide Tick, New, Ledger;
    RunInv(run, n, w);
    assert Succ(run, n, w);
    TickCared(run[n], w);
  }

  /** So it is from the start. */
  lemma NewCared(w: World)
    requires Monotone(w)
    ensures forall c :: New(w).filler.At(c).Holding? || TickTime(Boot, w) < New(w).fillerRetryAfter.At(c)
  {
    hide StartFiller, Ledger;
    BootLedger();
    FillBoth(Boot, w);
    var r := New(w);
    assert Cared(0, r, Front, w) && Cared(0, r, Rear, w);
    hide New;
    forall c ensures r.filler.At(c).Holding? || TickTime(Boot, w) < r.fillerRetryAfter.At(c) {
      assert Cared(0, r, c, w) by { if c == Front {} else { assert c == Rear; } }
    }
  }

  // ---------------------------------------------------------------- progress

  /** From call `from` on, nothing fails and the consumers stay as they are. */
  ghost predicate Smooth(w: World, from: nat, front: bool, rear: bool) {
    forall k: nat | k >= from :: w(k).ok && w(k).poll == 0 && w(k).wp != StopFailed && w(k).front == front && w(k).rear == rear
  }

  /** No retry deadline is later than before. */
  ghost predicate NoLater(m: Model, r: Model) {
    && r.captureRetryAfter.front <= m.captureRetryAfter.front
    && r.captureRetryAfter.rear <= m.captureRetryAfter.rear
  }

  lemma SmoothRefusal(w: World, from: nat, a: nat, b: nat, front: bool, rear: bool)
    requires Smooth(w, from, front, rear) && from <= a
    ensures !Refusal(a, b, w)
  {}

  /** What a tick does when nothing fails, in terms of its reading alone. */
  lemma SmoothTick(m: Model, w: World, front: bool, rear: bool)
    requires Inv(m) && Smooth(w, m.env.calls, front, rear)
    ensures var r, requested, now := Tick(m, w).m, Requested(m.active, front, rear), TickTime(m, w);
            && Tick(m, w).ok && NoLater(m, r)
            && r.candidate == requested
            && r.candidateSince == (if requested.Nobody? || requested == m.candidate then m.candidateSince else now)
            && r.idleSince == (if requested.Key? || m.active.Nobody? then 0 else if m.idleSince == 0 then now else m.idleSince)
            && (r.active == m.active || r.active == requested)
            && (if requested.Nobody? then
                  m.active.Key? ==> (r.active.Nobody? <==> Elapsed(now, r.idleSince) >= 1500)
                else if requested == m.active && m.state == Streaming then r.active == m.active && r.state == Streaming
                else
                  (now >= m.captureRetryAfter.At(requested.camera)
                   && (requested == m.active || Elapsed(now, r.candidateSince) >= 450)
                   ==> r.active == requested && r.state == Streaming))
            && (r.active.Nobody? ==> (r.wireplumberStopped <==> m.active.Nobody? && m.wireplumberStopped))
            && (r.active.Nobody? && m.active.Key? ==> r.state == Idle)
  {
    hide Tick, Decide, Ledger, Cared, PolledOnce, Refusal, FillersLeft, GivenBack, Polled, RetryDelay, NextExponent, Deferred;
    var failed, mid, s := TickCases(m, w);
    var r := Tick(m, w).m;
    var requested := Requested(m.active, front, rear);
    if Due(mid, requested, s.time, r) {
      var base := Marked(mid, r);
      SmoothRefusal(w, m.env.calls, base.env.calls, r.env.calls, front, rear);
      if base.active.Key? { FreedRetries(base); }
    }
  }

  lemma SmoothLater(w: World, from: nat, later: nat, front: bool, rear: bool)
    requires Smooth(w, from, front, rear) && from <= later
    ensures Smooth(w, later, front, rear)
  {}

  lemma {:induction false} CallsGrow(run: seq<Model>, p: nat, n: nat, w: World)
    requires IsRun(run, w) && p <= n < |run|
    ensures run[p].env.calls <= run[n].env.calls
  {
    hide Tick, New, Ledger;
    if p < n {
      CallsGrow(run, p, n - 1, w);
      RunInv(run, n - 1, w);
      assert Succ(run, n - 1, w);
      TickLedger(run[n - 1], w);
    }
  }

  /** Since its first smooth tick at `t0` the controller has been after `c`. */
  ghost predicate After(m: Model, c: Camera, t0: nat, deadline: nat, front: bool, rear: bool) {
    && m.candidate == Key(c) && m.candidateSince <= t0
    && m.captureRetryAfter.At(c) <= deadline
    && Requested(m.active, front, rear) == Key(c)
  }

  lemma {:induction false} StaysAfter(run: seq<Model>, p: nat, n: nat, c: Camera, w: World, front: bool, rear: bool)
    requires IsRun(run, w) && p < n < |run| && Monotone(w)
    requires Smooth(w, run[p].env.calls, front, rear)
    requires Requested(run[p].active, front, rear) == Key(c)
    ensures After(run[n], c, TickTime(run[p], w), run[p].captureRetryAfter.At(c), front, rear)
  {
    hide Tick, New, Ledger;
    var m := run[n - 1];
    RunInv(run, n - 1, w);
    RunHistory(run, n - 1, w);
    CallsGrow(run, p, n - 1, w);
    SmoothLater(w, run[p].env.calls, m.env.calls, front, rear);
    if n - 1 > p { StaysAfter(run, p, n - 1, c, w, front, rear); }
    assert Succ(run, n - 1, w);
    SmoothTick(m, w, front, rear);
  }

  /** Progress: once nothing fails any more and the consumers hold still, asking for
      camera `c` at the tick of state `p`, because it is active and still wanted or, with
      no wanted camera active, because it is the rear one or the rear one is not wanted,
      every tick at least 450 ms later and not before that camera's retry time ends
      streaming on `c`. */
  lemma OpensRequestedCamera(run: seq<Model>, p: nat, n: nat, c: Camera, w: World, front: bool, rear: bool)
    requires IsRun(run, w) && p <= n && n + 1 < |run| && Monotone(w)
    requires Smooth(w, run[p].env.calls, front, rear)
    requires if c == Front then front else rear
    requires run[p].active != Key(c) ==>
               && (run[p].active == Key(Front) ==> !front) && (run[p].active == Key(Rear) ==> !rear)
               && (c == Front ==> !rear)
    requires TickTime(run[n], w) >= TickTime(run[p], w) + 450
    requires TickTime(run[n], w) >= run[p].captureRetryAfter.At(c)
    ensures run[n + 1].state == Streaming && run[n + 1].active == Key(c)
  {
    hide Tick, New, Ledger;
    assert Requested(run[p].active, front, rear) == Key(c);
    RunInv(run, n, w);
    CallsGrow(run, p, n, w);
    SmoothLater(w, run[p].env.calls, run[n].env.calls, front, rear);
    StaysAfter(run, p, n, c, w, front, rear);
    assert Succ(run, n, w);
    SmoothTick(run[n], w, front, rear);
  }

  lemma {:induction false} StaysClosing(run: seq<Model>, p: nat, n: nat, w: World)
    requires IsRun(run, w) && p < n < |run| && Monotone(w)
    requires Smooth(w, run[p].env.calls, false, false)
    ensures run[n].active.Nobody? || 0 < run[n].idleSince <= TickTime(run[p], w)
    ensures run[n].active.Nobody? ==> (run[n].wireplumberStopped <==> run[p].active.Nobody? && run[p].wireplumberStopped)
    ensures run[p].active.Nobody? ==> run[n].active.Nobody?
  {
    hide Tick, New, Ledger;
    var m := run[n - 1];
    RunInv(run, n - 1, w);
    RunHistory(run, n - 1, w);
    CallsGrow(run, p, n - 1, w);
    SmoothLater(w, run[p].env.calls, m.env.calls, false, false);
    ActiveAfterDebounce(run, n - 1, w);
    if n - 1 > p { StaysClosing(run, p, n - 1, w); }
    assert Succ(run, n - 1, w);
    SmoothTick(m, w, false, false);
  }

  /** Progress: once nothing fails any more and nothing is asked for from the
      tick of state `p` on, every tick at least 1500 ms later ends with no active
      camera, and WirePlumber is given back: it is still stopped exactly if at `p` no
      camera was active and it had been left stopped.  That zero marks "no idle window
      open" does no harm: while the clock reads zero no camera can be active yet. */
  lemma ClosesUnwantedCamera(run: seq<Model>, p: nat, n: nat, w: World)
    requires IsRun(run, w) && p <= n && n + 1 < |run| && Monotone(w)
    requires Smooth(w, run[p].env.calls, false, false)
    requires TickTime(run[n], w) >= TickTime(run[p], w) + 1500
    ensures run[n + 1].active.Nobody?
    ensures run[n + 1].wireplumberStopped <==> run[p].active.Nobody? && run[p].wireplumberStopped
  {
    hide Tick, New, Ledger;
    RunInv(run, n, w);
    CallsGrow(run, p, n, w);
    SmoothLater(w, run[p].env.calls, run[n].env.calls, false, false);
    StaysClosing(run, p, n, w);
    assert Succ(run, n, w);
    SmoothTick(run[n], w, false, false);
  }

  /** A WirePlumber left stopped because its restart was refused stays stopped for as
      long as no camera is asked for: closing tries the restart once. */
  lemma {:induction false} LeftStopped(run: seq<Model>, p: nat, n: nat, w: World)
    requires IsRun(run, w) && p <= n < |run| && run[p].active.Nobody?
    requires forall k: nat | run[p].env.calls <= k :: !w(k).front && !w(k).rear
    ensures run[n].active.Nobody? && run[n].wireplumberStopped == run[p].wireplumberStopped
  {
    hide Tick, New, Ledger;
    if p < n {
      var m := run[n - 1];
      RunInv(run, n - 1, w);
      CallsGrow(run, p, n - 1, w);
      LeftStopped(run, p, n - 1, w);
      assert Succ(run, n - 1, w);
      hide Decide, Cared, PolledOnce, Reached, Stuck, FillersLeft, Deferred, Refusal;
      var failed, mid, s := TickCases(m, w);
    }
  }

  // ---------------------------------------------------------------- backoff

  /** The delay doubles from 2 s with each failure in a row and stays at 30 s. */
  function Failures(n: nat): (exponent: nat)
    ensures exponent == if n < 5 then n else 5
  {
    if n == 0 then 0 else NextExponent(Failures(n - 1))
  }

  lemma BackoffDoublesUpToCap(n: nat)
    ensures RetryDelay(Failures(0)) == 2000
    ensures RetryDelay(Failures(n + 1)) == (if n < 3 then 2 * RetryDelay(Failures(n)) else 30000)
  {}
}
