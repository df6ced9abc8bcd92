# Smart traffic light controller: a Dafny model

This project models the control logic of the IoT smart traffic light prototype.
`TrafficApp` (app.py) has a run/stop session. The session opens a camera and
starts a worker thread that counts the vehicles found in each frame. It also
drives a timed traffic light through RED, GREEN and YELLOW. A second, small piece
is the guarded crop of a camera frame in vehicle_detection.py.

- `signal.dfy`, module `Signal`: the light's transition table, the lamps each
  firing shows and the delay it arms. Also the traces of successive firings and
  the lamps on show at a given time.
- `control.dfy`, module `Control`: the fields of `TrafficApp` as one value
  (`AppState`). Each event is a function on that value: start, stop, a timer
  firing, one iteration of the worker loop and the worker loop run alone.
  `Inv` is the invariant every event keeps. The lemmas state what the code
  promises.
- `app.dfy`, module `App`: the class `TrafficApp`. Its fields are updated in
  place by `StartDetection`, `StopDetection`, `UpdateTrafficLight`, `WorkerStep`
  and `VideoStream`. Each method is proved to leave exactly the state the
  matching `Control` function gives, and to keep `Inv`. Three client methods
  show what a caller can prove from those contracts.
- `crop.dfy`, module `Crop`: `frame[120:, :-20]`, applied only when the frame
  has more than 120 rows and more than 20 columns.

Events that the code receives from outside become parameters:
- whether `cv2.VideoCapture(0)` opened (`cameraOpens`);
- the outcome of each `cap.read()`, with the boxes the detector found (`Read`).

The `root.after` timer becomes the `lightTimer` slot. It holds the armed delay in
milliseconds. A firing is a call of `UpdateTrafficLight`.

Where the code departs from an idealised design of such a controller, the model follows the code:
- `traffic_state` holds the phase the next firing will show. Starting with RED,
  the first update shows red and moves the state to GREEN.
- `stop_detection` does not reset `traffic_state` to RED, and `start_detection`
  does not set it. A restart resumes the cycle where the stop left it
  (`RestartResumesCycle`).
- `stop_detection` resets the lamps to darkred/gray/darkgreen only when a timer
  was pending. In the model, where `start_detection` is one step, every running
  state has a timer pending (`Inv`), so a stop of a running session shows the idle
  lamps (`StopFromRunning`). In the code a stop that arrives between app.py:78 and
  app.py:80 finds no timer and leaves the lamps as they were.
- `workers` counts worker threads that are still in their loop. `stop_detection`
  does not wait for the worker to leave its loop. A restart made before the old
  worker reads `is_detecting` again leaves two loops alive (`QuickRestart`). A
  failed read in either loop then stops the new session.

## Model

| member | source | states |
|---|---|---|
| Signal.Next | app.py:129-140 | the phase after a firing always differs from the phase before it |
| Signal.Prev | app.py:129-140 | the inverse of the transition table: Next(Prev(p)) == p |
| Signal.Shown | app.py:129-140 | a firing lights exactly one lamp: the red lamp red in RED, the yellow lamp yellow in YELLOW, the green lamp green in GREEN |
| Signal.HoldTimes | app.py:132-140 | the red and green holds are both `green_duration * 1000` ms, the yellow hold `yellow_duration * 1000` ms |
| Signal.CycleMs | app.py:59-60 | one cycle lasts (2 * green_duration + yellow_duration) * 1000 ms |
| Signal.NextIsCycle | app.py:129-140 | three firings return to the starting phase, two never do, and Prev undoes Next |
| Signal.AdvanceByCycles | app.py:129-140 | after any multiple of three firings `traffic_state` is back where it started |
| Signal.AdvanceStep | app.py:129-140 | each further firing advances the phase by one step of the table |
| Signal.AdvanceModThree | app.py:129-140 | the phase after n firings depends only on n modulo three |
| Signal.LampTraceAt | app.py:129-140 | the i-th of n firings shows the lamps of the phase reached by i steps |
| Signal.LampTraceFromRed | app.py:57 | from RED, successive firings show red, green, yellow, red, ... with no skip or repeat |
| Signal.ScheduleAt | app.py:132-140 | the i-th of n firings arms the hold of the phase reached by i steps |
| Signal.ScheduleCycles | app.py:132-140 | from any phase, the delays armed by k full cycles of firings add up to k cycle lengths |
| Signal.DefaultSchedule | app.py:59-60 | with the defaults, the firings from RED arm 10000, 10000 and 3000 ms, and a cycle is 23000 ms |
| Signal.ShownAtPeriodic | app.py:124-140 | the lamps on show repeat with the period of one cycle |
| Signal.DefaultTimeline | app.py:57-60 | with the defaults, red shows at 9.9 s, green at 10.1 s, yellow at 20.1 s and red again at 23.1 s |
| Signal.ElapsedIsScheduleSum | app.py:132-140 | the time of the i-th firing is the sum of the delays armed by the firings before it |
| Signal.ShownAtSchedule | app.py:124-140 | from the i-th firing until its hold is over, the time line shows the lamps of the phase reached by i steps |
| Control.AfterFire | app.py:124-140 | a firing touches only the lamps, the phase and the timer; in a running session it moves the phase one step, lights exactly one lamp and arms a timer |
| Control.AfterStop | app.py:82-97 | stop never changes `traffic_state`, the workers or the durations; after it the session is idle, and after a stop of a running session there is no timer, no open capture and a count of 0 |
| Control.AfterStart | app.py:62-80 | start moves `traffic_state` one step only when it starts a session whose camera opened |
| Control.AfterStep | app.py:101-122 | a worker leaves its loop exactly when `is_detecting` is false or the read failed; the step never changes `traffic_state` |
| Control.InitialInv | app.py:26-60 | the state `Initial` that `__init__` leaves (idle, RED, no capture, no timer, idle lamps, count 0, durations 10 and 3) satisfies the invariant `Inv` |
| Control.InvAfterFire | app.py:124-140 | a firing keeps the invariant |
| Control.InvAfterStop | app.py:82-97 | stop keeps the invariant |
| Control.InvAfterStart | app.py:62-80 | start keeps the invariant, whether the camera opens or not |
| Control.InvAfterStep | app.py:101-122 | a worker iteration keeps the invariant |
| Control.StartWhileDetectingChangesNothing | app.py:64 | start while detecting changes nothing: no second capture, no further worker, no extra timer |
| Control.StopIsIdempotent | app.py:84 | stop while not detecting changes nothing, so two stops are one |
| Control.FireWhileIdleChangesNothing | app.py:126-127 | a firing while not detecting changes no state and arms no timer |
| Control.StopFromRunning | app.py:85-97 | stopping a running session releases the capture, cancels the timer, shows the idle lamps and a count of 0, and keeps `traffic_state` |
| Control.StartWithClosedCamera | app.py:70-74 | a camera that does not open leaves the session idle with the capture released: no worker is started and no timer is armed |
| Control.StartWithOpenCamera | app.py:65-80 | a camera that opens starts exactly one worker and shows the current phase at once, arming the timer for its hold |
| Control.RestartResumesCycle | app.py:82-97 | a restart after a stop shows the phase that was next when the session stopped |
| Control.FiresFollowTable | app.py:124-140 | after n firings of a running session, the phase has advanced n steps, the lamps and the timer are the last firing's, and nothing else has changed |
| Control.FullCycleRestoresState | app.py:129-140 | three firings bring a running session back to the same state |
| Control.FiresMatchTraces | app.py:129-140 | the lamps and delay after each firing are the corresponding entries of the lamp trace and the schedule |
| Control.FrameSetsCount | app.py:101-109 | a successful read sets the count to the number of boxes and changes nothing else |
| Control.FailedReadStops | app.py:102-104 | a failed read while detecting ends the session through stop and its worker leaves the loop |
| Control.Stream | app.py:99-122 | the worker loop run alone never changes `traffic_state`, ends with at most one worker fewer, and never starts a session |
| Control.LoopExit | app.py:101-104 | a worker leaves its loop exactly when `is_detecting` is false or the read failed; on leaving the session is idle, and while it loops the session runs |
| Control.StreamOfFrames | app.py:101-119 | a worker whose reads all succeed keeps the session running, showing the count of the last frame |
| Control.StreamStopsAtFirstFailure | app.py:101-122 | a worker stops the session at its first failed read: the later reads are never made, and the session ends idle with a count of 0 |
| App.TrafficApp.constructor | app.py:52-60 | the fields start idle, with no capture, no timer, idle lamps, RED and durations 10 and 3 |
| App.TrafficApp.UpdateTrafficLight | app.py:124-140 | the new state is that of one firing of the table, and the invariant is kept |
| App.TrafficApp.StopDetection | app.py:82-97 | the new state is that of `AfterStop`, and the invariant is kept |
| App.TrafficApp.StartDetection | app.py:62-80 | the new state is that of `AfterStart`, and the invariant is kept |
| App.TrafficApp.WorkerStep | app.py:101-122 | the worker reports whether it left the loop; the new state is that of `AfterStep` |
| App.TrafficApp.VideoStream | app.py:99-122 | the loop run on a list of read outcomes leaves the state of `Stream`, and the invariant is kept |
| App.DefaultCycle | app.py:59-80 | a session started from scratch shows red, green, yellow, red and arms 10000, 10000, 3000, 10000 ms |
| App.QuickRestart | app.py:76-97 | stop followed at once by start leaves two worker loops alive |
| App.ClosedCamera | app.py:70-74 | after a start whose camera fails, the app is idle with no worker, no timer and idle lamps |
| Crop.CropSafely | vehicle_detection.py:26 | the guard holds: the result is (h-120) x (w-20) and pixel (i, j) is the original (i+120, j); otherwise the frame comes back unchanged; it is always a well-formed frame |
| Crop.CropAppliedIffCroppable | vehicle_detection.py:26 | the crop changes the frame exactly when height > 120 and width > 20 |
| Crop.CroppedFrameNotEmpty | vehicle_detection.py:26 | a cropped frame has at least one row and one column |

## Left out

- Tkinter widgets, the canvas ovals, labels and button states (app.py:16-44, 142-146), and the error dialog `messagebox.showerror` shown when the camera does not open (app.py:72). Only the lamp colours, the count and the status are modelled.
- Wall-clock scheduling by `root.after` and `after_cancel`. The model has a timer slot that holds the armed delay, and a firing event. `Signal.ShownAt` gives the lamps on a time line built from those delays.
- Threads: the daemon worker (app.py:76-78) runs in steps between other events. No memory model is given for the worker and the main thread touching the same fields.
- App.TrafficApp.WorkerStep and App.TrafficApp.StartDetection: each is taken as one atomic step. One worker iteration (app.py:101-109) and the whole of `start_detection` (app.py:64-80) cannot be interrupted in the model. So the model, and `Control.Inv`, do not capture three interleavings of the code. (a) A stop that arrives while the worker is inside `detectMultiScale` (app.py:107) sets the count to 0, and the worker then writes `len(cars)` (app.py:109), leaving an idle app with a non-zero count. (b) A stop between the worker's launch (app.py:78) and the first light update (app.py:80) finds no timer pending and leaves the lamps unchanged. (c) A worker that has left its loop can pass the test at app.py:121 after a restart and stop the new session.
- OpenCV and PIL calls. These are `VideoCapture`, `read`, `release`, loading and checking the cascade with exit (app.py:47-50), `cvtColor`, `detectMultiScale`, drawing rectangles, and image display. The detector's output is a given list of boxes. Opening the camera and each read are given outcomes.
- The detector tuning (`minNeighbors` 3 in app.py:107, 1 in vehicle_detection.py:30). These values only go to the detector.
- `on_closing` (app.py:148-152). Its only effect on session state is a `stop_detection`; the window teardown is presentation.
- vehicle_dection.py and the read/show loop around vehicle_detection.py:26. They are camera and display I/O.
- Control.Stream: models a worker loop that runs alone; when the read outcomes run out, the worker is taken to wait for its next frame. Interleaving with other events is modelled through single `WorkerStep` calls.
- Signal.ShownAt: requires both durations to be positive. With a zero duration the timer would fire again at once and no time would pass.
