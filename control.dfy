/** The session state of `TrafficApp` (app.py:52-60) as a value, and the effect
    of each event on it: `start_detection`, `stop_detection`, a firing of
    `update_traffic_light` and one iteration of the `video_stream` worker loop.
    The class in module App is proved to follow these functions; the lemmas here
    state what the source promises about them. */
module Control {
  import opened Signal

  /** What `self.cap` refers to: nothing yet, a capture whose `isOpened()` was
      false, an open capture, or a released one. */
  datatype Capture = NoCapture | Unopened | Opened | Released

  /** The text of the status label: "System Status: Idle" or "... Running". */
  datatype Status = Idle | Running

  /** `light_timer_id`: no timer, or a timer armed with a delay in milliseconds. */
  datatype TimerSlot = NoTimer | Pending(delayMs: int)

  /** One detection returned by the detector, in frame-pixel coordinates. */
  datatype Box = Box(x: int, y: int, w: int, h: int)

  /** The outcome of one `cap.read()` in the worker loop, with the boxes the
      detector returned for the frame when the read succeeded. */
  datatype Read = Got(boxes: seq<Box>) | ReadFailed

  /** The fields of `TrafficApp` the control logic reads and writes.
      `workers` is the number of worker threads still inside their loop. */
  datatype AppState = AppState(
    isDetecting: bool,
    status: Status,
    trafficState: Phase,
    lightTimer: TimerSlot,
    cap: Capture,
    lamps: Lamps,
    vehicleCount: nat,
    workers: nat,
    greenDuration: int,
    yellowDuration: int)

  /** The state `__init__` leaves (app.py:26-37, 52-60). */
  const Initial: AppState :=
    AppState(false, Idle, RED, NoTimer, NoCapture, IdleLamps, 0, 0, 10, 3)

  /** A firing of `update_traffic_light` (app.py:124-140): nothing while not
      detecting; otherwise show the lamps of the current phase, move to the next
      phase and arm the timer for the hold of the phase just shown. */
  function AfterFire(s: AppState): (r: AppState)
    ensures r == s.(lamps := r.lamps, trafficState := r.trafficState, lightTimer := r.lightTimer)
    ensures s.isDetecting ==> r.trafficState == Next(s.trafficState) && r.lightTimer.Pending? && LitCount(r.lamps) == 1
  {
    if !s.isDetecting then s
    else s.(lamps := Shown(s.trafficState),
            trafficState := Next(s.trafficState),
            lightTimer := Pending(HoldMs(s.trafficState, s.greenDuration, s.yellowDuration)))
  }

  /** `stop_detection` (app.py:82-97): nothing while not detecting; otherwise go
      idle, release the capture if there is one, cancel a pending timer (and only
      then reset the lamps) and show a count of 0. The phase and the worker
      threads are left as they are. */
  function AfterStop(s: AppState): (r: AppState)
    ensures r.trafficState == s.trafficState && r.workers == s.workers
    ensures r.greenDuration == s.greenDuration && r.yellowDuration == s.yellowDuration
    ensures !r.isDetecting
    ensures s.isDetecting ==> r.status == Idle && r.lightTimer == NoTimer && r.cap != Opened && r.vehicleCount == 0
  {
    if !s.isDetecting then s
    else
      var cap := if s.cap == NoCapture then NoCapture else Released;
      var lamps := if s.lightTimer.Pending? then IdleLamps else s.lamps;
      s.(isDetecting := false, status := Idle, cap := cap, lightTimer := NoTimer,
         lamps := lamps, vehicleCount := 0)
  }

  /** `start_detection` (app.py:62-80), given whether the camera opened: nothing
      while detecting; otherwise mark the session running, and either stop again
      when the camera did not open, or launch one worker thread and call
      `update_traffic_light` once. */
  function AfterStart(s: AppState, cameraOpens: bool): (r: AppState)
    ensures r.trafficState == (if s.isDetecting || !cameraOpens then s.trafficState else Next(s.trafficState))
  {
    if s.isDetecting then s
    else
      var running := s.(isDetecting := true, status := Running);
      if !cameraOpens then AfterStop(running.(cap := Unopened))
      else AfterFire(running.(cap := Opened, workers := s.workers + 1))
  }

  /** Whether an iteration of the worker loop ends the loop: its condition
      `self.is_detecting` is false, or the read failed. */
  predicate Exits(s: AppState, read: Read) {
    !s.isDetecting || read.ReadFailed?
  }

  /** One iteration of the worker loop of `video_stream` (app.py:101-122). While
      not detecting the loop ends without reading. A successful read sets the
      displayed count to the number of boxes. A failed read ends the loop and,
      the session still being on, stops it. */
  function AfterStep(s: AppState, read: Read): (r: AppState)
    requires s.workers > 0
    ensures r.workers == if Exits(s, read) then s.workers - 1 else s.workers
    ensures r.trafficState == s.trafficState
  {
    if !s.isDetecting then s.(workers := s.workers - 1)
    else match read
      case Got(boxes) => s.(vehicleCount := |boxes|)
      case ReadFailed => AfterStop(s).(workers := s.workers - 1)
  }

  /** A worker loop left alone on the given outcomes of `cap.read()`, until it exits or the
      outcomes run out (the worker then waits for its next frame). */
  function Stream(s: AppState, outcomes: seq<Read>): (r: AppState)
    requires s.workers > 0
    ensures r.trafficState == s.trafficState
    ensures r.workers == s.workers || r.workers == s.workers - 1
    ensures r.isDetecting ==> s.isDetecting
    decreases |outcomes|
  {
    if outcomes == [] then s
    else if Exits(s, outcomes[0]) then AfterStep(s, outcomes[0])
    else Stream(AfterStep(s, outcomes[0]), outcomes[1..])
  }

  /** `n` successive firings of the light timer. */
  function Fires(s: AppState, n: nat): AppState
    decreases n
  {
    if n == 0 then s else Fires(AfterFire(s), n - 1)
  }

  /** The invariant every event of the model keeps (each event being one atomic
      step): the status label mirrors `is_detecting`;
      a running session holds an open capture and a live worker, and its lamps
      and pending timer are those of the phase before `traffic_state`; an idle one
      has no open capture, no timer, idle lamps and a count of 0. */
  ghost predicate Inv(s: AppState) {
    (s.isDetecting <==> s.status == Running) &&
    if s.isDetecting then
      s.cap == Opened && s.workers >= 1 &&
      s.lamps == Shown(Prev(s.trafficState)) &&
      s.lightTimer == Pending(HoldMs(Prev(s.trafficState), s.greenDuration, s.yellowDuration))
    else
      s.cap != Opened && s.lightTimer == NoTimer && s.lamps == IdleLamps && s.vehicleCount == 0
  }

  lemma InitialInv()
    ensures Inv(Initial)
  {
  }

  lemma InvAfterFire(s: AppState)
    requires Inv(s)
    ensures Inv(AfterFire(s))
  {
  }

  lemma InvAfterStop(s: AppState)
    requires Inv(s)
    ensures Inv(AfterStop(s))
  {
  }

  lemma InvAfterStart(s: AppState, cameraOpens: bool)
    requires Inv(s)
    ensures Inv(AfterStart(s, cameraOpens))
  {
  }

  lemma InvAfterStep(s: AppState, read: Read)
    requires Inv(s) && s.workers > 0
    ensures Inv(AfterStep(s, read))
  {
  }

  /** `start_detection` while detecting opens no second capture, launches no
      second worker and arms no extra timer: it changes nothing. */
  lemma StartWhileDetectingChangesNothing(s: AppState, cameraOpens: bool)
    requires s.isDetecting
    ensures AfterStart(s, cameraOpens) == s
  {
  }

  /** `stop_detection` while not detecting changes nothing, so stop is idempotent. */
  lemma StopIsIdempotent(s: AppState)
    ensures !s.isDetecting ==> AfterStop(s) == s
    ensures AfterStop(AfterStop(s)) == AfterStop(s)
  {
  }

  /** A firing while not detecting changes no state and arms no timer. */
  lemma FireWhileIdleChangesNothing(s: AppState)
    requires !s.isDetecting
    ensures AfterFire(s) == s
  {
  }

  /** Stopping a running session: idle, capture released, no timer pending, idle
      lamps (the running session always had a timer pending), a count of 0, and the
      phase and the worker threads unchanged. */
  lemma StopFromRunning(s: AppState)
    requires Inv(s) && s.isDetecting
    ensures AfterStop(s) == s.(isDetecting := false, status := Idle, cap := Released,
                               lightTimer := NoTimer, lamps := IdleLamps, vehicleCount := 0)
  {
  }

  /** A camera that does not open leaves the session idle with the capture
      released; no worker is launched and no timer is armed. */
  lemma StartWithClosedCamera(s: AppState)
    requires Inv(s) && !s.isDetecting
    ensures AfterStart(s, false) == s.(cap := Released)
  {
  }

  /** A camera that opens starts one worker and shows the current phase at
      once, arming the timer for its hold. */
  lemma StartWithOpenCamera(s: AppState)
    requires Inv(s) && !s.isDetecting
    ensures AfterStart(s, true)
         == s.(isDetecting := true, status := Running, cap := Opened, workers := s.workers + 1,
               lamps := Shown(s.trafficState), trafficState := Next(s.trafficState),
               lightTimer := Pending(HoldMs(s.trafficState, s.greenDuration, s.yellowDuration)))
  {
  }

  /** A restart resumes the cycle where the stop left it: the first lamps shown
      are those of the phase that was next when the session stopped, not red. */
  lemma RestartResumesCycle(s: AppState)
    requires Inv(s) && s.isDetecting
    ensures AfterStart(AfterStop(s), true).lamps == Shown(s.trafficState)
    ensures AfterStart(AfterStop(s), true).trafficState == Next(s.trafficState)
  {
  }

  /** After `n` firings of a running session, `traffic_state` has advanced `n`
      steps along the table, and the lamps and the timer are those the last
      firing set; nothing else changes. */
  lemma {:induction false} FiresFollowTable(s: AppState, n: nat)
    requires s.isDetecting && n > 0
    ensures Fires(s, n)
         == s.(trafficState := Advance(s.trafficState, n),
               lamps := Shown(Advance(s.trafficState, n - 1)),
               lightTimer := Pending(HoldMs(Advance(s.trafficState, n - 1), s.greenDuration, s.yellowDuration)))
    decreases n
  {
    if n > 1 {
      FiresFollowTable(AfterFire(s), n - 1);
    }
  }

  /** Three firings of a running session bring it back to the same state. */
  lemma FullCycleRestoresState(s: AppState)
    requires Inv(s) && s.isDetecting
    ensures Fires(s, 3) == s
  {
    FiresFollowTable(s, 3);
    NextIsCycle(s.trafficState);
  }

  /** The `i`-th of `n` firings of a running session shows the lamps and arms the
      delay that the `i`-th entries of LampTrace and Schedule give. */
  lemma FiresMatchTraces(s: AppState, n: nat, i: nat)
    requires s.isDetecting && i < n
    ensures Fires(s, i + 1).lamps == LampTrace(s.trafficState, n)[i]
    ensures Fires(s, i + 1).lightTimer == Pending(Schedule(s.trafficState, n, s.greenDuration, s.yellowDuration)[i])
  {
    FiresFollowTable(s, i + 1);
    LampTraceAt(s.trafficState, n, i);
    ScheduleAt(s.trafficState, n, i, s.greenDuration, s.yellowDuration);
  }

  /** A successful read while detecting sets the count to the number of boxes
      and changes nothing else; the worker keeps looping. */
  lemma FrameSetsCount(s: AppState, boxes: seq<Box>)
    requires s.isDetecting && s.workers > 0
    ensures AfterStep(s, Got(boxes)) == s.(vehicleCount := |boxes|)
  {
  }

  /** A failed read while detecting ends the session through `stop_detection`,
      and its worker leaves the loop. */
  lemma FailedReadStops(s: AppState)
    requires s.isDetecting && s.workers > 0
    ensures AfterStep(s, ReadFailed) == AfterStop(s).(workers := s.workers - 1)
  {
  }

  /** A worker leaves its loop exactly when the loop test finds the session off
      or the read failed; a worker that leaves a running session stops it. */
  lemma LoopExit(s: AppState, read: Read)
    requires s.workers > 0
    ensures Exits(s, read) <==> AfterStep(s, read).workers < s.workers
    ensures Exits(s, read) ==> !AfterStep(s, read).isDetecting
    ensures !Exits(s, read) ==> AfterStep(s, read).isDetecting
  {
  }

  /** A worker alone on outcomes that all succeed keeps the session running, and
      the count is that of the last frame. */
  lemma {:induction false} StreamOfFrames(s: AppState, outcomes: seq<Read>)
    requires s.isDetecting && s.workers > 0 && outcomes != []
    requires forall i :: 0 <= i < |outcomes| ==> outcomes[i].Got?
    ensures Stream(s, outcomes) == s.(vehicleCount := |outcomes[|outcomes| - 1].boxes|)
    decreases |outcomes|
  {
    if |outcomes| > 1 {
      StreamOfFrames(s.(vehicleCount := |outcomes[0].boxes|), outcomes[1..]);
    }
  }

  /** A worker alone whose `k`-th read is the first to fail stops the session
      exactly then: the reads after it are never made, the session ends idle with a
      count of 0, and the worker leaves the loop. */
  lemma {:induction false} StreamStopsAtFirstFailure(s: AppState, outcomes: seq<Read>, k: nat)
    requires s.isDetecting && s.workers > 0
    requires k < |outcomes| && outcomes[k].ReadFailed?
    requires forall i :: 0 <= i < k ==> outcomes[i].Got?
    ensures Stream(s, outcomes) == AfterStop(s).(workers := s.workers - 1)
    decreases k
  {
    if k > 0 {
      var s1 := s.(vehicleCount := |outcomes[0].boxes|);
      assert AfterStep(s, outcomes[0]) == s1;
      StreamStopsAtFirstFailure(s1, outcomes[1..], k - 1);
    }
  }
}
