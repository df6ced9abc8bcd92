/** `TrafficApp` of app.py as a class whose fields the event methods update in
    place. Each method is proved to leave the state that the matching function of
    module Control gives, and to keep the invariant Control.Inv. */
module App {
  import opened Signal
  import opened Control

  class TrafficApp {
    var isDetecting: bool
    var status: Status
    var trafficState: Phase
    var lightTimer: TimerSlot
    var cap: Capture
    var lamps: Lamps
    var vehicleCount: nat
    /** The number of worker threads still inside their `while` loop. */
    var workers: nat
    const greenDuration: int
    const yellowDuration: int

    /** The fields as one value. */
    function State(): AppState
      reads this
    {
      AppState(isDetecting, status, trafficState, lightTimer, cap, lamps, vehicleCount, workers,
               greenDuration, yellowDuration)
    }

    ghost predicate Valid()
      reads this
    {
      Inv(State())
    }

    /** The control state `__init__` sets up (app.py:26-37, 52-60). */
    constructor ()
      ensures State() == Initial && Valid()
    {
      isDetecting := false;
      status := Idle;
      trafficState := RED;
      lightTimer := NoTimer;
      cap := NoCapture;
      lamps := IdleLamps;
      vehicleCount := 0;
      workers := 0;
      greenDuration := 10;
      yellowDuration := 3;
    }

    /** `update_traffic_light`, called once by `start_detection` and then on each
        firing of the timer it arms (app.py:124-140). */
    method UpdateTrafficLight()
      modifies this
      ensures State() == AfterFire(old(State()))
      ensures old(Valid()) ==> Valid()
    {
      if !isDetecting {
        return;
      }
      if trafficState == RED {
        lamps := Lamps(Red, Gray, Gray);
        trafficState := GREEN;
        lightTimer := Pending(greenDuration * 1000);
      } else if trafficState == GREEN {
        lamps := Lamps(Gray, Gray, Green);
        trafficState := YELLOW;
        lightTimer := Pending(greenDuration * 1000);
      } else if trafficState == YELLOW {
        lamps := Lamps(Gray, Yellow, Gray);
        trafficState := RED;
        lightTimer := Pending(yellowDuration * 1000);
      }
    }

    /** `stop_detection` (app.py:82-97). */
    method StopDetection()
      modifies this
      ensures State() == AfterStop(old(State()))
      ensures old(Valid()) ==> Valid()
    {
      if isDetecting {
        isDetecting := false;
        status := Idle;
        if cap != NoCapture {
          cap := Released;
        }
        if lightTimer.Pending? {
          lightTimer := NoTimer;
          lamps := IdleLamps;
        }
        vehicleCount := 0;
      }
    }

    /** `start_detection` (app.py:62-80); `cameraOpens` is what `isOpened()`
        answers for the new capture. */
    method StartDetection(cameraOpens: bool)
      modifies this
      ensures State() == AfterStart(old(State()), cameraOpens)
      ensures old(Valid()) ==> Valid()
    {
      ghost var before := State();
      if !isDetecting {
        isDetecting := true;
        status := Running;
        cap := if cameraOpens then Opened else Unopened;
        if cap != Opened {
          StopDetection();
          if Inv(before) { InvAfterStart(before, cameraOpens); }
          return;
        }
        workers := workers + 1;
        UpdateTrafficLight();
        if Inv(before) { InvAfterStart(before, cameraOpens); }
      }
    }

    /** One iteration of the worker loop of `video_stream` (app.py:101-122);
        `exited` says whether the worker has left the loop. */
    method WorkerStep(read: Read) returns (exited: bool)
      requires workers > 0
      modifies this
      ensures exited == Exits(old(State()), read)
      ensures State() == AfterStep(old(State()), read)
      ensures old(Valid()) ==> Valid()
    {
      if !isDetecting {
        workers := workers - 1;
        return true;
      }
      match read
      case ReadFailed =>
        StopDetection();
        workers := workers - 1;
        exited := true;
      case Got(boxes) =>
        vehicleCount := |boxes|;
        exited := false;
    }

    /** The worker loop of `video_stream` run alone on the given outcomes of
        `cap.read()`, until it leaves the loop or the outcomes run out. */
    method VideoStream(outcomes: seq<Read>)
      requires workers > 0
      modifies this
      ensures State() == Stream(old(State()), outcomes)
      ensures old(Valid()) ==> Valid()
    {
      var n := 0;
      var exited := false;
      while !exited && n < |outcomes|
        invariant n <= |outcomes|
        invariant exited ==> State() == Stream(old(State()), outcomes)
        invariant !exited ==> workers > 0 && Stream(State(), outcomes[n..]) == Stream(old(State()), outcomes)
        invariant old(Valid()) ==> Valid()
        decreases |outcomes| - n
      {
        assert outcomes[n..][1..] == outcomes[n + 1..];
        exited := WorkerStep(outcomes[n]);
        n := n + 1;
      }
    }
  }

  /** With the defaults, a session started from the initial state shows red,
      green, yellow and red on its first four light updates, arming 10000, 10000,
      3000 and 10000 ms. */
  method DefaultCycle() returns (shown: seq<Lamps>, delays: seq<TimerSlot>)
    ensures shown == [Shown(RED), Shown(GREEN), Shown(YELLOW), Shown(RED)]
    ensures delays == [Pending(10000), Pending(10000), Pending(3000), Pending(10000)]
  {
    var app := new TrafficApp();
    app.StartDetection(true);
    shown, delays := [app.lamps], [app.lightTimer];
    app.UpdateTrafficLight();
    shown, delays := shown + [app.lamps], delays + [app.lightTimer];
    app.UpdateTrafficLight();
    shown, delays := shown + [app.lamps], delays + [app.lightTimer];
    app.UpdateTrafficLight();
    shown, delays := shown + [app.lamps], delays + [app.lightTimer];
  }

  /** After a stop, a restart that comes before the old worker has looked at
      `is_detecting` again leaves two worker loops alive on one session. */
  method QuickRestart() returns (workers: nat)
    ensures workers == 2
  {
    var app := new TrafficApp();
    app.StartDetection(true);
    app.StopDetection();
    app.StartDetection(true);
    workers := app.workers;
  }

  /** A camera that does not open leaves the application idle with no worker,
      no timer and the lamps as they were. */
  method ClosedCamera() returns (detecting: bool, workers: nat, timer: TimerSlot, lamps: Lamps)
    ensures !detecting && workers == 0 && timer == NoTimer && lamps == IdleLamps
  {
    var app := new TrafficApp();
    app.StartDetection(false);
    detecting, workers, timer, lamps := app.isDetecting, app.workers, app.lightTimer, app.lamps;
  }
}
