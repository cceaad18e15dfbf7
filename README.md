# IMU calibration manager — a Dafny model

This project models `ImuManager`, the supervisor of an inertial measurement
unit on a mobile robot. The manager decides when the gyroscope bias must be
re-checked: on a schedule, after a temperature change, or on operator
demand. While checking or calibrating it disables robot motion. It triggers
an external calibration actuator and re-enables motion once the sensor is
judged calibrated.

Two state machines make up the manager:

- an **outer lifecycle** (INIT, STANDBY, READY, EMERGENCY, FAILURE). It
  starts and stops the hardware and software with idempotent, flag-guarded
  operations;
- an **inner calibration workflow** with seven states (UNKNOWN,
  NOT_CALIBRATED, MUST_CHECK, CHECKING, MUST_CALIBRATE, CALIBRATING,
  CALIBRATED). It runs only in READY. It uses a desired/current discipline:
  the READY hook only stages a desired state, and `allState` commits it once
  per tick. Both halves of the state holder have the datatype
  `CalibrationState`, so they are always one of the seven declared states.

Layout:

- `types.dfy` (`ImuTypes`): the states, samples, configuration, `World`
  (the oracle answers of one tick) and `Manager`, a value holding every field
  of the manager.
- `gates.dfy` (`ImuGates`): the pure predicates. These are the demand gate,
  the data-span test, the quality test, the calibration timeout and the
  connection checks.
- `lifecycle.dfy` (`ImuLifecycle`): start/stop of hardware and software, and
  the INIT, STANDBY, EMERGENCY and FAILURE hooks. Each is a function from the
  fields before to the fields after.
- `calibration.dfy` (`ImuCalibration`): the READY hook, its five per-state
  branches, the commit, the operator trigger service and the two sample
  callbacks. It also holds the transition table, proved row by row.
- `supervisor.dfy` (`ImuSupervisor`): one tick (the hook for the current
  lifecycle state, then the commit). It also defines runs of ticks
  interleaved with callbacks, and the properties that hold over whole runs.
- `imu_manager.dfy` (`ImuNode`): the class `ImuManager`, with the manager's
  fields. Its methods update those fields in place, following the C++
  bodies. Each method is proved to leave the fields equal to the matching
  pure function applied to the old fields.

External services become oracle inputs. Each tick receives the motion
service's reply, the actuator's reply, the set of health monitors (by index)
that report `isReceiving()`, and whether the one-second topic waits see a
message. Requests sent to the motion service and to the actuator are
recorded in the field `calls`. This lets the contracts state "motion disable
was requested" and "the actuator was not invoked". Time is an integer clock
`now`, passed once per tick. Temperatures and statistics are `real`.

Behaviour of the code made explicit by the proofs:

- In MUST_CHECK the reply of the motion-disable request is ignored.
- The temperature threshold is overwritten with 1.0 on every CALIBRATED tick,
  before it is compared, so the configured value never matters there.
- `stopHardware` refuses whenever the software is *not* running. As a result,
  the FAILURE hook leaves running hardware alone when the software is
  stopped (`StopHardwareRefusedWhileSoftwareStopped`).
- `emergencyState` goes to FAILURE, not back to INIT, when the hardware is
  down.
- A failed temperature wait in `startSoftwareImpl` leaves the data
  subscription and its monitor in place, and every STANDBY retry adds
  another one (`FailedTemperatureWaitLeaks`). So a failed software start
  does retain subscription state.
- After such a leak and a successful retry, the monitors are data, data,
  temperature (`RetryAfterLeakShiftsMonitors`). The temperature callback
  ticks the monitor at index 1 (src/imu_manager.cpp:656-659), which is then a
  data monitor, so the temperature monitor is never ticked.
- UNKNOWN and NOT_CALIBRATED stage MUST_CHECK unconditionally, also in
  demand-only mode. In demand-only mode without a demand, the states that
  persist are therefore {UNKNOWN, NOT_CALIBRATED, MUST_CHECK, CALIBRATED},
  not only the three calibrated/uncalibrated ones. In that mode nothing
  starts a check or a run, no service is called, and CALIBRATED is never
  left (`DemandOnlyStaysIdle`).
- In demand-only mode, a demand in CALIBRATED is consumed on the next tick,
  which stages MUST_CHECK. After that the MUST_CHECK gate is closed, because
  the demand is gone. The trigger service refuses new demands in MUST_CHECK.
  From there the manager stays in MUST_CHECK for ever and calls no service
  again (`DemandFromCalibratedStalls`, `StalledForever`).
- A demand accepted in UNKNOWN or NOT_CALIBRATED is not cleared when the
  check starts. Outside demand-only mode it therefore causes a second check
  right after the manager reaches CALIBRATED (`CalibratedRecheck`).

## Model

| member | source | states |
|---|---|---|
| ImuTypes.Initial | src/imu_manager.cpp:7-24 | a new manager is in INIT, with current and desired state UNKNOWN, nothing running, no demand, empty buffers and no monitors, and aligned buffers |
| ImuGates.CanCheckCalibration | src/imu_manager.cpp:337-344 | the check gate is closed exactly when the mode is demand-only and no demand is pending |
| ImuGates.CanRunCalibration | src/imu_manager.cpp:328-335 | the calibration gate agrees with the check gate and is always open outside demand-only mode |
| ImuGates.HasEnoughDataToCalibrate | src/imu_manager.cpp:369-378 | enough iff the buffer is non-empty and the newest stamp is at least the gathering period after the oldest, whatever the order of the stamps |
| ImuGates.EnoughDataIffSpan | src/imu_manager.cpp:369-378 | for a buffer in time order, the front/back test holds iff some pair of buffered messages lies at least the gathering period apart |
| ImuGates.EnoughDataStaysEnough | src/imu_manager.cpp:369-378 | once enough data is buffered, appending a message no older than the newest keeps it enough |
| ImuGates.IsCalibratedImpl | src/imu_manager.cpp:673-704 | the sensor counts as calibrated iff the absolute mean is at most the mean bound and the absolute deviation is at most the deviation bound |
| ImuGates.QualityExamples | src/imu_manager.cpp:673-704 | mean 0.0001 and deviation 0.0002 pass bounds of 0.01; a mean of ±0.05 or a deviation of 0.02 fails |
| ImuGates.MustRunCalibration | src/imu_manager.cpp:495-515 | a run is needed iff the software is running and one of the two statistics exceeds its bound |
| ImuGates.IsRunningCalibration | src/imu_manager.cpp:527-532 | a run is in progress iff now is before start plus duration |
| ImuGates.CalibrationOverStaysOver | src/imu_manager.cpp:527-532 | once the calibration duration has elapsed, it stays elapsed at all later times |
| ImuGates.SoftwareConnected | src/imu_manager.cpp:544-566 | the closed form of the monitor loop used by the READY hook: never connected while the software is down; connected with no monitors; when the software runs and it is not connected, some monitor is not receiving |
| ImuGates.CheckHardwareConnectionImpl | src/imu_manager.cpp:536-542 | the hardware is reachable exactly while it is running |
| ImuLifecycle.StartHardwareImpl | src/imu_manager.cpp:568-571 | the hardware start of this sensor always succeeds |
| ImuLifecycle.StopHardwareImpl | src/imu_manager.cpp:572-575 | the hardware stop of this sensor always succeeds |
| ImuLifecycle.StartHardware | src/imu_manager.cpp:391-412 | running hardware is a successful no-op; success iff the hardware runs afterwards; only the hardware flag changes |
| ImuLifecycle.StopHardware | src/imu_manager.cpp:413-440 | refused, with nothing changed, whenever the software is not running; otherwise succeeds with the hardware stopped; only the hardware flag changes |
| ImuLifecycle.StartSoftwareImpl | src/imu_manager.cpp:577-613 | succeeds iff both waits see a message; no data message adds nothing; a missing temperature message leaves the data subscription and monitor added; success adds both in order |
| ImuLifecycle.StopSoftwareImpl | src/imu_manager.cpp:615-621 | succeeds and empties the vector of data subscribers and the monitors |
| ImuLifecycle.StartSoftware | src/imu_manager.cpp:443-470 | fails with nothing changed when the hardware is down; is a successful no-op when the software already runs; with hardware running, success iff the software runs afterwards; never touches workflow fields |
| ImuLifecycle.StopSoftware | src/imu_manager.cpp:472-493 | a successful no-op when not running; otherwise succeeds with the software stopped and the vector of data subscribers and the monitors emptied; never touches workflow fields |
| ImuLifecycle.InitState | src/imu_manager.cpp:103-113 | goes to STANDBY when the hardware start succeeds and to FAILURE otherwise; changes nothing else |
| ImuLifecycle.StandbyState | src/imu_manager.cpp:115-124 | goes to READY after a successful software start; otherwise stays in STANDBY with what the failed start left |
| ImuLifecycle.EmergencyState | src/imu_manager.cpp:288-302 | the software ends stopped, with the subscriber vector and monitors emptied if it was running and kept otherwise; the hardware flag is kept; goes to INIT if the hardware runs, else to FAILURE; no workflow field, buffer or service log changes |
| ImuLifecycle.FailureState | src/imu_manager.cpp:304-320 | touches no workflow field, subscription, monitor or software flag |
| ImuLifecycle.StartIsIdempotent | src/imu_manager.cpp:391-397 | starting the hardware again after a start is a successful no-op, and so is starting the software again after a successful start |
| ImuLifecycle.StopSoftwareIsIdempotent | src/imu_manager.cpp:472-478 | stopping the software a second time is a successful no-op |
| ImuLifecycle.SoftwareNeedsHardware | src/imu_manager.cpp:445-449 | starting software with the hardware down fails and adds no subscription or monitor |
| ImuLifecycle.SoftwareStartOutcome | src/imu_manager.cpp:457-469 | a first software start succeeds iff both topics are published, and then monitors data and temperature after the existing monitors |
| ImuLifecycle.FailedTemperatureWaitLeaks | src/imu_manager.cpp:592-605 | a failed temperature wait leaves the software stopped with one extra data subscription and monitor; two STANDBY retries leave two extra monitors |
| ImuLifecycle.RetryAfterLeakShiftsMonitors | src/imu_manager.cpp:592-612 | from no monitors, a failed temperature wait and a successful retry reach READY with monitors data, data, temperature, so index 1 is a data monitor |
| ImuLifecycle.StopHardwareRefusedWhileSoftwareStopped | src/imu_manager.cpp:413-419 | with the software stopped, stopping the hardware is refused, and FAILURE with running hardware only returns to INIT |
| ImuLifecycle.InitReachesStandby | src/imu_manager.cpp:103-113 | INIT always reaches STANDBY with the hardware running, because the hardware start always succeeds |
| ImuLifecycle.FailureRecovers | src/imu_manager.cpp:304-320 | FAILURE always ends with the hardware running and the lifecycle in INIT |
| ImuLifecycle.EmergencyStopsSoftware | src/imu_manager.cpp:288-302 | EMERGENCY stops the software and empties its subscriber vector and monitors; it goes to FAILURE exactly when the hardware is down |
| ImuCalibration.ToggleRobotOperation | src/imu_manager.cpp:346-367 | records one motion request with the requested value; the result is the service's answer |
| ImuCalibration.RunCalibration | src/imu_manager.cpp:517-525 | records one actuator request; the start time becomes now only if the actuator accepts; nothing else changes |
| ImuCalibration.CalibratedStep | src/imu_manager.cpp:148-178 | sets the threshold to 1.0; either keeps the staged state or stages MUST_CHECK; calls no service and keeps the buffers |
| ImuCalibration.MustCheckStep | src/imu_manager.cpp:180-202 | an open gate empties both buffers, records a motion-disable request and stages CHECKING, whatever the service replies; a closed gate changes nothing |
| ImuCalibration.CheckingStep | src/imu_manager.cpp:204-235 | keeps the buffers and the demand flag |
| ImuCalibration.MustCalibrateStep | src/imu_manager.cpp:237-269 | keeps the buffers and the demand flag |
| ImuCalibration.CalibratingStep | src/imu_manager.cpp:271-285 | either changes nothing or only stages MUST_CHECK |
| ImuCalibration.ReadyState | src/imu_manager.cpp:126-286 | never changes the current calibration state, the lifecycle flags, subscriptions, monitors, temperature or statistics; makes at most two service requests |
| ImuCalibration.SwitchToDesiredState | src/imu_manager.cpp:322-326 | the staged state becomes current and nothing else changes |
| ImuCalibration.TriggerCalibrationCallback | src/imu_manager.cpp:623-640 | always reports success; only the demand flag can change, which afterwards is set iff it was set or the state is UNKNOWN, NOT_CALIBRATED or CALIBRATED |
| ImuCalibration.DataCallback | src/imu_manager.cpp:642-652 | appends the message and its z rate to the two buffers, replaces mean and deviation, and changes nothing else |
| ImuCalibration.TemperatureCallback | src/imu_manager.cpp:654-661 | sets the current temperature and changes nothing else |
| ImuCalibration.ReadyGuards | src/imu_manager.cpp:128-140 | hardware down goes only to FAILURE; hardware up with software unreachable goes only to EMERGENCY |
| ImuCalibration.UncalibratedMustCheck | src/imu_manager.cpp:142-146 | from UNKNOWN or NOT_CALIBRATED only MUST_CHECK is staged |
| ImuCalibration.CalibratedRecheck | src/imu_manager.cpp:148-178 | outside demand-only mode, a temperature drift above 1.0 or an overdue re-check stages MUST_CHECK and keeps the demand; otherwise a demand is cleared and stages MUST_CHECK; otherwise CALIBRATED stays |
| ImuCalibration.MustCheckGate | src/imu_manager.cpp:180-202 | an open gate stages CHECKING with both buffers empty and one motion-disable request; a closed gate changes nothing |
| ImuCalibration.CheckingOutcome | src/imu_manager.cpp:204-235 | without enough data nothing changes; with good statistics the time and temperature are recorded, motion enable is requested and CALIBRATED is staged; with bad statistics MUST_CALIBRATE is staged |
| ImuCalibration.MustCalibrateOutcome | src/imu_manager.cpp:237-269 | a closed gate changes nothing; a refused disable stages NOT_CALIBRATED and the actuator is not called; a refused actuator stages NOT_CALIBRATED and goes to FAILURE with the start time kept; a started run stages CALIBRATING from now |
| ImuCalibration.CalibratingTimeout | src/imu_manager.cpp:271-285 | CALIBRATING holds while less than the duration has elapsed, and then stages MUST_CHECK whatever the services answer |
| ImuCalibration.TriggerWhileBusy | src/imu_manager.cpp:633-637 | a demand during MUST_CHECK, CHECKING, MUST_CALIBRATE or CALIBRATING changes nothing and reports success with the "no effect" message |
| ImuCalibration.BuffersStayAligned | src/imu_manager.cpp:186-188 | the READY hook and the data callback keep the z buffer equal to the z components of the message buffer |
| ImuSupervisor.Hook | src/imu_manager.cpp:103-320 | no state hook changes the current calibration state |
| ImuSupervisor.Tick | src/imu_manager.cpp:322-326 | after a tick, the current calibration state is the one the hook staged; apart from that, the tick's result is the hook's result |
| ImuSupervisor.CommittedBetweenEvents | src/imu_manager.cpp:322-326 | staged and current state agree between events over any run of ticks and callbacks |
| ImuSupervisor.CallbacksKeepWorkflow | src/imu_manager.cpp:623-661 | the trigger and sample callbacks never change the current or staged calibration state; the sample callbacks keep the demand flag |
| ImuSupervisor.BuffersAlignedOverRun | src/imu_manager.cpp:642-652 | the two sample buffers stay aligned over any run |
| ImuSupervisor.QuietStep | src/imu_manager.cpp:142-202 | in demand-only mode without a demand, one tick or sample callback keeps the idle states, calls no service and keeps a committed CALIBRATED |
| ImuSupervisor.DemandOnlyStaysIdle | src/imu_manager.cpp:142-202 | in demand-only mode without demands, any run stays within UNKNOWN, NOT_CALIBRATED, MUST_CHECK and CALIBRATED, calls no service, and never leaves a committed CALIBRATED |
| ImuSupervisor.StalledStep | src/imu_manager.cpp:180-202 | in demand-only mode, a committed MUST_CHECK without a demand survives any single event and calls no service |
| ImuSupervisor.StalledForever | src/imu_manager.cpp:623-640 | in demand-only mode, a committed MUST_CHECK without a demand survives every run, including demands, and calls no service |
| ImuSupervisor.DemandFromCalibratedStalls | src/imu_manager.cpp:171-175 | in demand-only mode, a demand in a committed CALIBRATED followed by one healthy READY tick reaches that stalled MUST_CHECK |
| ImuSupervisor.RecoversToReady | src/imu_manager.cpp:103-124 | from FAILURE, three ticks, the last with both topics published, reach READY with hardware and software running |
| ImuSupervisor.EmergencyLeaves | src/imu_manager.cpp:288-302 | one tick from EMERGENCY reaches INIT if the hardware runs, else FAILURE, with the software stopped |
| ImuNode.ImuManager.constructor | src/imu_manager.cpp:7-24 | the fields equal the initial manager for the given configuration |
| ImuNode.ImuManager.StartHardware | src/imu_manager.cpp:391-412 | the new fields and result are those of ImuLifecycle.StartHardware on the old fields |
| ImuNode.ImuManager.StopHardware | src/imu_manager.cpp:413-440 | the new fields and result are those of ImuLifecycle.StopHardware on the old fields |
| ImuNode.ImuManager.StartSoftwareImpl | src/imu_manager.cpp:577-613 | the new fields and result are those of ImuLifecycle.StartSoftwareImpl |
| ImuNode.ImuManager.StopSoftwareImpl | src/imu_manager.cpp:615-621 | the new fields and result are those of ImuLifecycle.StopSoftwareImpl |
| ImuNode.ImuManager.StartSoftware | src/imu_manager.cpp:443-470 | the new fields and result are those of ImuLifecycle.StartSoftware |
| ImuNode.ImuManager.StopSoftware | src/imu_manager.cpp:472-493 | the new fields and result are those of ImuLifecycle.StopSoftware |
| ImuNode.ImuManager.CheckSoftwareConnectionImpl | src/imu_manager.cpp:544-566 | the loop over all monitors answers true iff the software runs and every monitor reports receiving (so true when there are no monitors) |
| ImuNode.ImuManager.InitState | src/imu_manager.cpp:103-113 | the new fields are ImuLifecycle.InitState of the old |
| ImuNode.ImuManager.StandbyState | src/imu_manager.cpp:115-124 | the new fields are ImuLifecycle.StandbyState of the old |
| ImuNode.ImuManager.EmergencyState | src/imu_manager.cpp:288-302 | the new fields are ImuLifecycle.EmergencyState of the old |
| ImuNode.ImuManager.FailureState | src/imu_manager.cpp:304-320 | the new fields are ImuLifecycle.FailureState of the old |
| ImuNode.ImuManager.ToggleRobotOperation | src/imu_manager.cpp:346-367 | the new fields and result are those of ImuCalibration.ToggleRobotOperation |
| ImuNode.ImuManager.RunCalibration | src/imu_manager.cpp:517-525 | the new fields and result are those of ImuCalibration.RunCalibration |
| ImuNode.ImuManager.CalibratedBranch | src/imu_manager.cpp:148-178 | the new fields are ImuCalibration.CalibratedStep of the old |
| ImuNode.ImuManager.MustCheckBranch | src/imu_manager.cpp:180-202 | the new fields are ImuCalibration.MustCheckStep of the old |
| ImuNode.ImuManager.CheckingBranch | src/imu_manager.cpp:204-235 | the new fields are ImuCalibration.CheckingStep of the old |
| ImuNode.ImuManager.MustCalibrateBranch | src/imu_manager.cpp:237-269 | the new fields are ImuCalibration.MustCalibrateStep of the old |
| ImuNode.ImuManager.CalibratingBranch | src/imu_manager.cpp:271-285 | the new fields are ImuCalibration.CalibratingStep of the old |
| ImuNode.ImuManager.ReadyState | src/imu_manager.cpp:126-286 | the new fields are ImuCalibration.ReadyState of the old, and the current calibration state is unchanged |
| ImuNode.ImuManager.AllState | src/imu_manager.cpp:322-326 | the new fields are ImuCalibration.SwitchToDesiredState of the old |
| ImuNode.ImuManager.TriggerCalibrationCallback | src/imu_manager.cpp:623-640 | the new fields and response are those of ImuCalibration.TriggerCalibrationCallback |
| ImuNode.ImuManager.DataCallback | src/imu_manager.cpp:642-652 | the new fields are ImuCalibration.DataCallback of the old |
| ImuNode.ImuManager.TemperatureCallback | src/imu_manager.cpp:654-661 | the new fields are ImuCalibration.TemperatureCallback of the old |

## Left out

- Parameter reading (`rosReadParams`), service and publisher creation (`rosSetup`) and state publishing (`rosPublish`): ROS plumbing with no decision logic. The configuration is a constructor argument instead.
- `calculateMean` / `calculateStdDev`: floating-point numerics in a header that is not part of this model. The data callback takes the new mean and standard deviation as inputs. `getMean` / `getStdDev` only read these two fields.
- `TopicHealthMonitor`: not part of this model. `isReceiving()` is an oracle per monitor index, and `tick()` in the callbacks has no modelled effect.
- `ros::topic::waitForMessage`, `subscribe` and the service clients' `call`: blocking I/O. They become the oracle booleans of `World`. The `subscribers` field stands for the vector `data_subscribers_` only, each entry represented by its topic.
- The single handles `data_sub_` and `temperature_sub_` (src/imu_manager.cpp:591, :607) are not modelled. `stopSoftwareImpl` does not release them, so their subscriptions stay open after a stop and callbacks keep arriving; the model's callback events may happen at any time, in any lifecycle state, which covers this.
- `RComponent`: not part of this model. Its state-hook dispatch is modelled by `ImuSupervisor.Hook`, which runs the hook of the current lifecycle state, and `ImuSupervisor.Tick`, which follows it with the commit. The lifecycle is taken to start in INIT. `switchToState` is an assignment of the lifecycle field, and `RComponent::allState` is taken to have no effect on these fields.
- The calibration state holder's class is not part of this model. `setDesiredState` and `switchToDesiredState` are assignments; its log texts are dropped; and the state before the first commit is taken to be UNKNOWN.
- Fields that the shown constructor leaves uninitialised (times, temperatures, statistics, the demand flag) start at zero or false. `hw_initialized_` and `sw_initialized_` are never read and are left out.
- `checkHardwareConnection` / `checkSoftwareConnection` (src/imu_manager.cpp:380-388) only forward to their `Impl` versions, which the model calls directly.
- Logging, including throttled logging: no effect on state.
- Concurrency: callbacks interleave with ticks only between whole steps. `ros::Time::now()` is read once per tick, as `now`; durations and stamps are integers; doubles are exact reals.

