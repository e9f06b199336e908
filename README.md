# Driver-monitoring fusion loop, modelled in Dafny

This project models `dmonitoringd_thread` in `selfdrive/monitoring/dmonitoringd.py`. That is the loop that
merges four subscribed topics (liveCalibration, carState, model, driverState)
into one `dMonitoringState` message per driver-perception sample. Its state is
small: the held calibration `cal_rpy`, the remembered cruise speed
`v_cruise_last`, the flags `driver_engaged` and `steering_wheel_engaged`,
and two settings fixed at startup (hands-on-wheel monitoring and the RHD
override). Each iteration takes one batch of topic updates and runs four
guarded branches in a fixed order: calibration, car state, model metadata,
perception.

The model has two layers:

- `fusion.dfy` (module `Fusion`) states the loop as functions on values.
  `State` is the loop's state together with the subscriber cache, the calls
  each tracker has received and the messages published so far. `StepSpec` is
  one iteration and is built from the four branch functions `Calibrate`,
  `Interact`, `ForwardPolicy` and `Perceive`. `RunSpec` is a finite
  sequence of iterations.
- `dmonitoringd.dfy` (module `DMonitoringd`) is the imperative loop. The
  class `MonitorLoop` has the loop's locals and the subscriber cache as fields
  and a method per branch. `Step` is one iteration of `while True` and
  `Run` loops `Step` over a sequence of batches. Both are proved equal to
  `StepSpec` and `RunSpec`. `Start` is the startup code on the raw
  parameter values.

The trackers `DriverStatus` and `HandsOnWheelStatus` (`trackers.dfy`) are
defined in files that are not part of this model. Each one is modelled as the
history of calls it has received, plus a fixed `behaviour` function from that
history to everything the loop reads back from it. The readings include the
terminal-alert count and duration, the published fields, and the events its
`update` adds to the accumulator.
The accumulator `Events` is an object shared by reference: the driver update,
the hands-on-wheel update and the published message all see the same one.

`MAX_TERMINAL_ALERTS` and `MAX_TERMINAL_DURATION` are defined in
`driver_monitor.py`, which is not part of this model. They are parameters
(`Env`) here, so every property holds whatever their values are.

`params.dfy` models how the two parameters are read. IsRHD goes through
`bool(int(value))`, so Python's `int()` on a byte string is modelled:
surrounding ASCII white space, an optional sign, and digits with single
underscores between them. A value `int()` rejects makes startup fail.
HandsOnWheelMonitoring is on only for exactly the bytes `b"1"`.

Two points of the loop's order that the model follows as written:

- The lockout counters are read after `get_pose` in the same iteration
  (lines 80-82). They are also read after any reset `update` that the car-state
  branch made in that iteration. They are not the values from the start of the
  iteration.
- The published events are the gate's events plus whatever both trackers add.
  So `tooDistracted` in the message follows from the lockout ("if"), but the
  two are equivalent ("iff") only for the set handed to the driver update.

## Model

| member | source | states |
|---|---|---|
| Params.ParseInt | selfdrive/monitoring/dmonitoringd.py:32 | `int()` accepts exactly a decimal literal, optionally signed, with ASCII white space trimmed from both ends; a negative result comes only from a leading minus sign |
| Params.ReadIsRhd | selfdrive/monitoring/dmonitoringd.py:30-33 | an absent IsRHD leaves the RHD setting at its default; a present one sets it to `int(value) != 0`, and fails exactly when `int()` rejects the value |
| Params.ParseFormat | selfdrive/monitoring/dmonitoringd.py:32 | `int()` reads any written integer back: `ParseInt(FormatInt(n)) == Some(n)` for every `n` |
| Params.ReadIsRhdWritten | selfdrive/monitoring/dmonitoringd.py:30-33 | the values "0" and "1" that the setting is written with read back as the same flag |
| Params.HandsOnWheelFlag | selfdrive/monitoring/dmonitoringd.py:47 | monitoring is on exactly when the parameter is the byte string "1" (the way the integer 1 is written), and such a value parses to 1 |
| Params.HandsOnWheelFlagIsStrict | selfdrive/monitoring/dmonitoringd.py:47 | "01" and "1\n" parse to 1 with `int()` but leave hands-on-wheel monitoring off |
| Trackers.Events.constructor | selfdrive/monitoring/dmonitoringd.py:79 | a new accumulator is empty |
| Trackers.Events.Add | selfdrive/monitoring/dmonitoringd.py:83 | `add` puts one event name into the accumulator and changes nothing else |
| Trackers.DriverStatus.constructor | selfdrive/monitoring/dmonitoringd.py:28 | a new driver tracker has received no call, and its RHD fields are false and unchecked |
| Trackers.DriverStatus.GetPose | selfdrive/monitoring/dmonitoringd.py:80 | `get_pose` is recorded with the sample, calibration, speed and cruise flag it was given |
| Trackers.DriverStatus.Update | selfdrive/monitoring/dmonitoringd.py:85 | `update` is recorded with the events it received, and the accumulator gains exactly the tracker's alerts |
| Trackers.DriverStatus.SetPolicy | selfdrive/monitoring/dmonitoringd.py:75 | `set_policy` is recorded with the metadata it was given |
| Trackers.HandsOnWheelStatus.constructor | selfdrive/monitoring/dmonitoringd.py:29 | a new hands-on-wheel tracker has received no call |
| Trackers.HandsOnWheelStatus.Update | selfdrive/monitoring/dmonitoringd.py:88 | `update` is recorded with the events it received, and the accumulator gains exactly the tracker's alerts |
| Fusion.Init | selfdrive/monitoring/dmonitoringd.py:28-47 | before the first batch: `cal_rpy == [0,0,0]`, calStatus INVALID, the car-state defaults, cruise speed 0, not engaged, RHD checked exactly when the override was present, no tracker calls and nothing published; the loop invariant holds |
| Fusion.Refresh | selfdrive/monitoring/dmonitoringd.py:51 | every updated topic's cache slot holds the new sample and every other slot keeps its last one |
| Fusion.Calibrate | selfdrive/monitoring/dmonitoringd.py:54-57 | an accepted sample (CALIBRATED and exactly three components) replaces the held vector; the vector changes only for such a sample; the vector keeps three components; nothing else changes |
| Fusion.Interact | selfdrive/monitoring/dmonitoringd.py:60-71 | with car state: `steering_wheel_engaged` is buttons, new cruise speed or steering pressed; `driver_engaged` equals it; exactly one reset `update({}, true, cruiseEnabled, standstill)` if engaged; a hands-on-wheel reset with vEgo only if also enabled; then `v_cruise_last` is the new speed. Without car state nothing changes |
| Fusion.ForwardPolicy | selfdrive/monitoring/dmonitoringd.py:74-75 | an updated model message is passed to `set_policy` once; nothing else changes |
| Fusion.LockoutGate | selfdrive/monitoring/dmonitoringd.py:82-83 | the gate holds `tooDistracted` exactly when the count or the duration has reached its limit, and holds nothing else |
| Fusion.Report | selfdrive/monitoring/dmonitoringd.py:92-110 | the message carries the accumulator as given, the given RHD fields, `isPreview` false, the hands-on-wheel tracker's state, and each driver field from the driver tracker's readings |
| Fusion.Perceive | selfdrive/monitoring/dmonitoringd.py:78-111 | the perception branch publishes one message exactly when driverState was updated, keeps every earlier message and never changes the RHD fields |
| Fusion.PerceiveDriverCalls | selfdrive/monitoring/dmonitoringd.py:79-85 | the perception branch calls `get_pose` with the held calibration and cached car state, then `update` with the engagement flag and events that hold `tooDistracted` exactly when the count or the duration reached its limit after `get_pose`, and nothing else |
| Fusion.PerceiveMessage | selfdrive/monitoring/dmonitoringd.py:86-111 | the hands-on-wheel update gets the driver update's accumulator, only when enabled; the one message published carries that accumulator with both trackers' alerts, the trackers' fields, the RHD fields and `isPreview` false |
| Fusion.PerceiveFrame | selfdrive/monitoring/dmonitoringd.py:78-111 | without a sample the branch changes nothing; with one it only extends the tracker calls, publishes exactly one message and changes no other field |
| Fusion.PerceiveContract | selfdrive/monitoring/dmonitoringd.py:78-111 | with a sample: `get_pose` on the held calibration, then one `update` whose events contain `tooDistracted` exactly when the lockout held after `get_pose`; the hands-on-wheel update gets the same accumulator, and only when enabled; exactly one message is published, carrying that accumulator with the trackers' additions, the RHD fields and `isPreview` false. Without a sample nothing changes |
| Fusion.Prepare | selfdrive/monitoring/dmonitoringd.py:51-75 | the branches before perception publish nothing, keep the RHD fields and the hands-on-wheel flag, only extend the tracker calls, and make no hands-on-wheel call when monitoring is off |
| Fusion.PrepareCalls | selfdrive/monitoring/dmonitoringd.py:51-75 | after the first three branches the cache holds this batch's car state and perception sample, the held vector is this batch's accepted one (or the old one), and the driver calls are extended by the reset update (if engaged) and then `set_policy` (if the model topic updated) |
| Fusion.StepSpec | selfdrive/monitoring/dmonitoringd.py:50-111 | one iteration publishes exactly one message if driverState was updated and none otherwise, and keeps every earlier message |
| Fusion.StepKeeps | selfdrive/monitoring/dmonitoringd.py:50-111 | an iteration only appends tracker calls; it never changes the RHD fields or the hands-on-wheel flag; with monitoring off it makes no hands-on-wheel call |
| Fusion.StepInvariant | selfdrive/monitoring/dmonitoringd.py:43-71 | every iteration keeps `cal_rpy` at three components, `driver_engaged == steering_wheel_engaged`, and `v_cruise_last` equal to the cached car state's cruise speed |
| Fusion.StepCalibration | selfdrive/monitoring/dmonitoringd.py:54-57 | after an iteration the held vector is the batch's calibration vector if the loop accepted it, and the previous one otherwise |
| Fusion.StepCarState | selfdrive/monitoring/dmonitoringd.py:60-71 | after an iteration with car state, the cache holds it, `v_cruise_last` is its speed and the engagement follows the formula against the previous speed; without car state the cache, the speed and both engagement flags are unchanged |
| Fusion.StepCallOrder | selfdrive/monitoring/dmonitoringd.py:54-88 | the driver tracker's calls in one iteration, in order: reset update if engaged, `set_policy` if the model topic updated, then `get_pose` with this iteration's calibration and car state, then an `update` with the engagement this iteration produced |
| Fusion.StepMessage | selfdrive/monitoring/dmonitoringd.py:97-109 | the message an iteration publishes has the RHD fields the state had before, `isPreview` false and the hands-on-wheel tracker's state after the iteration |
| Fusion.StepLockout | selfdrive/monitoring/dmonitoringd.py:79-93 | after an iteration with a sample, the driver tracker's last call is an `update` whose events hold `tooDistracted` exactly when the lockout held on the calls before it; the published message contains those events; earlier calls are kept |
| Fusion.RunSpec | selfdrive/monitoring/dmonitoringd.py:50-111 | over any sequence of batches, the number of messages grows by the number of batches with a driverState update; earlier messages, the RHD fields and the hands-on-wheel flag never change |
| DMonitoringd.MonitorLoop.constructor | selfdrive/monitoring/dmonitoringd.py:28-47 | startup builds both trackers, sets the RHD fields only when the override is present, writes the cache defaults and the initial locals: the state is `Init` |
| DMonitoringd.MonitorLoop.Step | selfdrive/monitoring/dmonitoringd.py:51-111 | one iteration changes the loop, the trackers and the published log exactly as `StepSpec` says |
| DMonitoringd.MonitorLoop.UpdateCache | selfdrive/monitoring/dmonitoringd.py:51 | the fields follow `Refresh` |
| DMonitoringd.MonitorLoop.HandleCalibration | selfdrive/monitoring/dmonitoringd.py:54-57 | the fields follow `Calibrate` |
| DMonitoringd.MonitorLoop.HandleCarState | selfdrive/monitoring/dmonitoringd.py:60-71 | the fields and the tracker calls follow `Interact` |
| DMonitoringd.MonitorLoop.ResetOnInteraction | selfdrive/monitoring/dmonitoringd.py:66-70 | the driver tracker gets a reset `update` when engaged, and the hands-on-wheel tracker one when engaged and monitoring is on; nothing else changes |
| DMonitoringd.MonitorLoop.HandleModel | selfdrive/monitoring/dmonitoringd.py:74-75 | the tracker calls follow `ForwardPolicy` |
| DMonitoringd.MonitorLoop.HandleDriverState | selfdrive/monitoring/dmonitoringd.py:78-111 | the tracker calls and the published log follow `Perceive` |
| DMonitoringd.MonitorLoop.GatedDriverUpdate | selfdrive/monitoring/dmonitoringd.py:79-85 | `get_pose` and then `update` are recorded; the fresh accumulator holds the lockout gate plus the driver tracker's alerts |
| DMonitoringd.MonitorLoop.Run | selfdrive/monitoring/dmonitoringd.py:50-111 | running the loop over a sequence of batches gives the state `RunSpec` describes |
| DMonitoringd.Start | selfdrive/monitoring/dmonitoringd.py:19-47 | startup fails exactly when IsRHD is present and not an integer; otherwise a fresh loop starts in `Init` with the decoded RHD override and the exact-"1" hands-on-wheel flag |
| MonitorProperties.RunKeepsInvariant | selfdrive/monitoring/dmonitoringd.py:43-71 | the loop invariant holds after every run that starts in it |
| MonitorProperties.RunCalibration | selfdrive/monitoring/dmonitoringd.py:54-57 | after any run the held vector is that of the last accepted calibration sample, or the previous one if no sample was accepted |
| MonitorProperties.CalibrationBeforeFirstAccepted | selfdrive/monitoring/dmonitoringd.py:43-57 | from startup, `cal_rpy` stays `[0,0,0]` until a calibration sample is accepted |
| MonitorProperties.RunCruiseMemory | selfdrive/monitoring/dmonitoringd.py:60-71 | after any run, `v_cruise_last` and the cached car state come from the last car-state sample, or are unchanged if there was none |
| MonitorProperties.RunWithoutHandsMonitoring | selfdrive/monitoring/dmonitoringd.py:69-109 | with monitoring off, the hands-on-wheel tracker never receives a call and every message carries the state it had before the run |
| MonitorProperties.RunMessagesKeepStartupFields | selfdrive/monitoring/dmonitoringd.py:97-108 | every message published carries the RHD fields set at startup and `isPreview` false |
| MonitorProperties.RunLockoutPersists | selfdrive/monitoring/dmonitoringd.py:81-83 | if the tracker's lockout never clears once reached and it holds now, every later message carries `tooDistracted` |
| MonitorProperties.CalibrationScenario | selfdrive/monitoring/dmonitoringd.py:54-57 | CALIBRATED `[0.01,-0.02,0.0]` is taken; a later CALIBRATING `[1,1,1]` is not |
| MonitorProperties.EngagementScenario | selfdrive/monitoring/dmonitoringd.py:60-70 | one button event and cruise speed 20 after 0 count as interaction and reset both trackers; nothing is published |

## Left out

- `gc.disable()` and `set_realtime_priority(53)` (lines 14, 17) are runtime configuration with no logical content.
- `PubMaster`/`SubMaster` (lines 22-26), the blocking `sm.update()` and `pm.send` are transport. A batch is a value with one optional sample per topic, and sending appends to a ghost log. The infinite `while True` is `Run` over a finite sequence of batches.
- `Params()` storage (lines 19, 30, 47) is persisted configuration. The raw parameter values are inputs of `Start`.
- The trackers only add names to the shared accumulator: a tracker `update` that cleared it or removed a name would not fit the model, and the "if" half of the lockout properties (Fusion.StepLockout, MonitorProperties.RunLockoutPersists) rests on this.
- `cruiseSpeed`, `vEgo` and `rpyCalib` are float32 in the messages and unbounded `real` here: float32 rounding and NaN are not modelled, so the case where a NaN cruise speed makes the comparison on line 63 always true, marking every car-state sample as interaction and resetting both trackers, is not covered.
- The internals of `DriverStatus` (`get_pose`, `update`, `set_policy`, the awareness scores) and of `HandsOnWheelStatus` are not part of this model. A tracker's readings are an arbitrary function of the calls it has received. The model assumes the trackers never write the RHD fields themselves. A failure inside a tracker is fatal in the source and is not modelled.
- `MAX_TERMINAL_ALERTS`, `MAX_TERMINAL_DURATION` and the numeric encoding of `calStatus` come from files that are not part of this model. The limits are parameters, and the calibration statuses are the four named ones.
- The pose statistics and the awareness and step-change values in the message (lines 94-109) are floats that are copied, not computed. They are opaque `real` and `int` values.
- `Events` is a set of names: `Events.to_msg()` and the capnp layout are serialisation, so the order and any repeats of names in the published list are not modelled.
- Messages keep only the fields the loop reads. The model and driverState samples are opaque payloads.
- Params.ParseInt: Python's 4300-digit limit on `int()` conversion is not modelled.
- Fusion.PerceiveContract: `tooDistracted` is "if and only if the lockout" for the events handed to the driver update, but only "if" for the published set. The trackers' own alerts come from code that is not part of this model and could also contain it.
- MonitorProperties.RunLockoutPersists: requires that the tracker's lockout never clears once reached. Whether `driver_monitor.py` guarantees that is not part of this model.
