/** The inner calibration workflow: the READY hook, which only stages a
    desired calibration state, the single commit that makes it current, the
    operator's trigger service and the two sample callbacks. */
module ImuCalibration {
  import opened ImuTypes
  import opened ImuGates

  /** Fields the workflow never writes: the lifecycle flags, the
      subscriptions, the sample path and the current calibration state. */
  ghost predicate OnlyWorkflowFields(m: Manager, r: Manager)
  {
    r.current == m.current && r.hwRunning == m.hwRunning && r.swRunning == m.swRunning
    && r.subscribers == m.subscribers && r.monitors == m.monitors
    && r.currentTemperature == m.currentTemperature && r.mean == m.mean && r.stdDev == m.stdDev
  }

  /** Request the motion service to enable or disable the robot; the reply
      is the service's answer (src/imu_manager.cpp:346-367). */
  function ToggleRobotOperation(m: Manager, enable: bool, accepted: bool): (r: (Manager, bool))
    ensures r.1 == accepted
    ensures r.0 == m.(calls := m.calls + [SetMotion(enable)])
  {
    (m.(calls := m.calls + [SetMotion(enable)]), accepted)
  }

  /** Trigger the calibration actuator; only a started run records its start
      time (src/imu_manager.cpp:517-525, 706-725). */
  function RunCalibration(m: Manager, now: int, accepted: bool): (r: (Manager, bool))
    ensures r.1 == accepted
    ensures r.0.calls == m.calls + [TriggerGyroCalibration]
    ensures r.0.startOfCalibration == (if accepted then now else m.startOfCalibration)
    ensures r.0 == m.(calls := r.0.calls, startOfCalibration := r.0.startOfCalibration)
  {
    var m1 := m.(calls := m.calls + [TriggerGyroCalibration]);
    if !accepted then (m1, false) else (m1.(startOfCalibration := now), true)
  }

  /** CALIBRATED (src/imu_manager.cpp:148-178). The temperature threshold is
      overwritten with 1.0 before it is compared. */
  function CalibratedStep(m: Manager, cfg: Config, now: int): (r: Manager)
    ensures r.temperatureVariation == 1.0
    ensures r.desired == m.desired || r.desired == MustCheck
    ensures r.calls == m.calls && r.dataBuffer == m.dataBuffer && r.zBuffer == m.zBuffer
  {
    var m1 := m.(temperatureVariation := 1.0);
    if !cfg.onlyUnderDemand && Abs(m1.currentTemperature - m1.temperatureAtLastCalibration) > m1.temperatureVariation then
      m1.(desired := MustCheck)
    else if !cfg.onlyUnderDemand && now - m1.timeOfLastCalibration > cfg.periodBetweenCheckings then
      m1.(desired := MustCheck)
    else if m1.demanded then
      m1.(demanded := false, desired := MustCheck)
    else
      m1
  }

  /** MUST_CHECK (src/imu_manager.cpp:180-202). The reply of the motion
      service is ignored. */
  function MustCheckStep(m: Manager, cfg: Config, motionAccepted: bool): (r: Manager)
    ensures CanCheckCalibration(cfg.onlyUnderDemand, m.demanded) ==>
      r == m.(dataBuffer := [], zBuffer := [], calls := m.calls + [SetMotion(false)], desired := Checking)
    ensures !CanCheckCalibration(cfg.onlyUnderDemand, m.demanded) ==> r == m
  {
    if CanCheckCalibration(cfg.onlyUnderDemand, m.demanded) then
      var m1 := m.(dataBuffer := [], zBuffer := []);
      var (m2, _) := ToggleRobotOperation(m1, false, motionAccepted);
      m2.(desired := Checking)
    else
      m
  }

  /** CHECKING (src/imu_manager.cpp:204-235). */
  function CheckingStep(m: Manager, cfg: Config, now: int, motionAccepted: bool): (r: Manager)
    ensures r.dataBuffer == m.dataBuffer && r.zBuffer == m.zBuffer && r.demanded == m.demanded
  {
    if !HasEnoughDataToCalibrate(m.dataBuffer, cfg.periodOfDataGathering) then m
    else if MustRunCalibration(m.swRunning, m.mean, m.stdDev, cfg) then
      m.(desired := MustCalibrate)
    else
      var m1 := m.(timeOfLastCalibration := now, temperatureAtLastCalibration := m.currentTemperature);
      var (m2, _) := ToggleRobotOperation(m1, true, motionAccepted);
      m2.(desired := Calibrated)
  }

  /** MUST_CALIBRATE (src/imu_manager.cpp:237-269): a started run enters
      CALIBRATING; a refused actuator also sends the lifecycle to FAILURE. */
  function MustCalibrateStep(m: Manager, cfg: Config, now: int, motionAccepted: bool, actuatorAccepted: bool): (r: Manager)
    ensures r.dataBuffer == m.dataBuffer && r.zBuffer == m.zBuffer && r.demanded == m.demanded
  {
    if !CanRunCalibration(cfg.onlyUnderDemand, m.demanded) then m
    else
      var (m1, disabled) := ToggleRobotOperation(m, false, motionAccepted);
      if !disabled then m1.(desired := NotCalibrated)
      else
        var (m2, started) := RunCalibration(m1, now, actuatorAccepted);
        if started then m2.(desired := Calibrating)
        else m2.(desired := NotCalibrated, robot := Failure)
  }

  /** CALIBRATING (src/imu_manager.cpp:271-285): the timeout counts as the
      end of the run. */
  function CalibratingStep(m: Manager, cfg: Config, now: int): (r: Manager)
    ensures r == m || r == m.(desired := MustCheck)
  {
    if IsRunningCalibration(now, m.startOfCalibration, cfg.durationOfCalibration) then m
    else m.(desired := MustCheck)
  }

  /** The READY hook (src/imu_manager.cpp:126-286): the hardware and software
      checks guard the lifecycle; then the current calibration state selects
      what to stage. It never changes the current calibration state. */
  function ReadyState(m: Manager, cfg: Config, w: World): (r: Manager)
    ensures OnlyWorkflowFields(m, r)
    ensures |r.calls| <= |m.calls| + 2
  {
    if !CheckHardwareConnectionImpl(m.hwRunning) then m.(robot := Failure)
    else if !SoftwareConnected(m.swRunning, m.monitors, w.receiving) then m.(robot := Emergency)
    else
      match m.current
      case Unknown => m.(desired := MustCheck)
      case NotCalibrated => m.(desired := MustCheck)
      case Calibrated => CalibratedStep(m, cfg, w.now)
      case MustCheck => MustCheckStep(m, cfg, w.motionAccepted)
      case Checking => CheckingStep(m, cfg, w.now, w.motionAccepted)
      case MustCalibrate => MustCalibrateStep(m, cfg, w.now, w.motionAccepted, w.actuatorAccepted)
      case Calibrating => CalibratingStep(m, cfg, w.now)
  }

  /** The commit of `allState` (src/imu_manager.cpp:322-326): the staged
      state becomes the current one and nothing else changes. */
  function SwitchToDesiredState(m: Manager): (r: Manager)
    ensures r.current == m.desired && r.desired == m.desired
    ensures r.(current := m.current) == m
  {
    m.(current := m.desired)
  }

  /** The operator's trigger service (src/imu_manager.cpp:623-640): always
      reports success; records a demand only while no check or run is in
      progress. */
  function TriggerCalibrationCallback(m: Manager): (r: (Manager, TriggerResponse))
    ensures r.1.success
    ensures r.0 == m.(demanded := r.0.demanded)
    ensures r.0.demanded <==> m.demanded || m.current in {Unknown, NotCalibrated, Calibrated}
  {
    if m.current == Unknown || m.current == NotCalibrated || m.current == Calibrated then
      (m.(demanded := true), TriggerResponse(true, "Calibration triggered"))
    else
      (m, TriggerResponse(true, "Calibration was running, so this call had no effect"))
  }

  /** An inertial message arrives (src/imu_manager.cpp:642-652): the message
      and its z rate are appended, and mean and standard deviation of the z
      buffer, computed outside this model, replace the previous ones. */
  function DataCallback(m: Manager, s: Sample, mean: real, stdDev: real): (r: Manager)
    ensures r.dataBuffer == m.dataBuffer + [s] && r.zBuffer == m.zBuffer + [s.angularZ]
    ensures r.(dataBuffer := m.dataBuffer, zBuffer := m.zBuffer, mean := m.mean, stdDev := m.stdDev) == m
  {
    m.(dataBuffer := m.dataBuffer + [s], zBuffer := m.zBuffer + [s.angularZ], mean := mean, stdDev := stdDev)
  }

  /** A temperature message arrives (src/imu_manager.cpp:654-661). */
  function TemperatureCallback(m: Manager, t: real): (r: Manager)
    ensures r.currentTemperature == t && r.(currentTemperature := m.currentTemperature) == m
  {
    m.(currentTemperature := t)
  }

  // ---------------------------------------------------------------------
  // The transition table of the READY hook, row by row. `Healthy` is the
  // case where both connection checks pass.

  predicate Healthy(m: Manager, w: World)
  {
    CheckHardwareConnectionImpl(m.hwRunning) && SoftwareConnected(m.swRunning, m.monitors, w.receiving)
  }

  /** Unreachable hardware sends the lifecycle to FAILURE, unreachable
      software to EMERGENCY; nothing else changes. */
  lemma ReadyGuards(m: Manager, cfg: Config, w: World)
    ensures !m.hwRunning ==> ReadyState(m, cfg, w) == m.(robot := Failure)
    ensures m.hwRunning && !SoftwareConnected(m.swRunning, m.monitors, w.receiving) ==>
      ReadyState(m, cfg, w) == m.(robot := Emergency)
  {
  }

  /** From UNKNOWN or NOT_CALIBRATED the desired state becomes MUST_CHECK. */
  lemma UncalibratedMustCheck(m: Manager, cfg: Config, w: World)
    requires Healthy(m, w) && (m.current == Unknown || m.current == NotCalibrated)
    ensures ReadyState(m, cfg, w) == m.(desired := MustCheck)
  {
  }

  /** From CALIBRATED outside demand-only mode, a temperature drift above 1.0
      or an exceeded re-check period stages MUST_CHECK and keeps the demand
      flag; otherwise a pending demand is consumed and stages MUST_CHECK;
      otherwise the state stays CALIBRATED. */
  lemma CalibratedRecheck(m: Manager, cfg: Config, w: World)
    requires Healthy(m, w) && m.current == Calibrated
    ensures var r := ReadyState(m, cfg, w);
      var drift := !cfg.onlyUnderDemand
        && (Abs(m.currentTemperature - m.temperatureAtLastCalibration) > 1.0
            || w.now - m.timeOfLastCalibration > cfg.periodBetweenCheckings);
      && (drift ==> r == m.(temperatureVariation := 1.0, desired := MustCheck))
      && (!drift && m.demanded ==> r == m.(temperatureVariation := 1.0, desired := MustCheck, demanded := false))
      && (!drift && !m.demanded ==> r == m.(temperatureVariation := 1.0))
  {
  }

  /** MUST_CHECK: an open gate empties both buffers, requests motion to be
      disabled and stages CHECKING; a closed gate changes nothing. */
  lemma MustCheckGate(m: Manager, cfg: Config, w: World)
    requires Healthy(m, w) && m.current == MustCheck
    ensures var r := ReadyState(m, cfg, w);
      && (!(cfg.onlyUnderDemand && !m.demanded) ==>
            r.desired == Checking && r.dataBuffer == [] && r.zBuffer == []
            && r.calls == m.calls + [SetMotion(false)])
      && (cfg.onlyUnderDemand && !m.demanded ==> r == m)
  {
  }

  /** CHECKING with enough data: the sensor counts as calibrated iff both
      statistics are within bounds; then the calibration time and temperature
      are recorded, motion is re-enabled and CALIBRATED is staged, otherwise
      MUST_CALIBRATE is staged. Without enough data nothing changes. */
  lemma CheckingOutcome(m: Manager, cfg: Config, w: World)
    requires Healthy(m, w) && m.current == Checking
    ensures var r := ReadyState(m, cfg, w);
      var ok := Abs(m.mean) <= cfg.maxMeanError && Abs(m.stdDev) <= cfg.maxStdDeviation;
      && (!HasEnoughDataToCalibrate(m.dataBuffer, cfg.periodOfDataGathering) ==> r == m)
      && (HasEnoughDataToCalibrate(m.dataBuffer, cfg.periodOfDataGathering) && ok ==>
            r == m.(timeOfLastCalibration := w.now,
                    temperatureAtLastCalibration := m.currentTemperature,
                    calls := m.calls + [SetMotion(true)],
                    desired := Calibrated))
      && (HasEnoughDataToCalibrate(m.dataBuffer, cfg.periodOfDataGathering) && !ok ==>
            r == m.(desired := MustCalibrate))
  {
  }

  /** MUST_CALIBRATE with the gate open: a refused motion-disable stages
      NOT_CALIBRATED without touching the actuator; a refused actuator stages
      NOT_CALIBRATED and sends the lifecycle to FAILURE with the start time
      unchanged; a started run stages CALIBRATING from now. With the gate
      closed nothing changes. */
  lemma MustCalibrateOutcome(m: Manager, cfg: Config, w: World)
    requires Healthy(m, w) && m.current == MustCalibrate
    ensures var r := ReadyState(m, cfg, w);
      && (cfg.onlyUnderDemand && !m.demanded ==> r == m)
      && (!(cfg.onlyUnderDemand && !m.demanded) && !w.motionAccepted ==>
            r == m.(calls := m.calls + [SetMotion(false)], desired := NotCalibrated)
            && TriggerGyroCalibration !in r.calls[|m.calls|..])
      && (!(cfg.onlyUnderDemand && !m.demanded) && w.motionAccepted && !w.actuatorAccepted ==>
            r == m.(calls := m.calls + [SetMotion(false), TriggerGyroCalibration],
                    desired := NotCalibrated, robot := Failure))
      && (!(cfg.onlyUnderDemand && !m.demanded) && w.motionAccepted && w.actuatorAccepted ==>
            r == m.(calls := m.calls + [SetMotion(false), TriggerGyroCalibration],
                    desired := Calibrating, startOfCalibration := w.now))
  {
    var r := ReadyState(m, cfg, w);
    if !(cfg.onlyUnderDemand && !m.demanded) && !w.motionAccepted {
      assert r.calls[|m.calls|..] == [SetMotion(false)];
    }
  }

  /** CALIBRATING stays until the run's duration has elapsed, then stages
      MUST_CHECK, whatever else the world answers. */
  lemma CalibratingTimeout(m: Manager, cfg: Config, w: World)
    requires Healthy(m, w) && m.current == Calibrating
    ensures var r := ReadyState(m, cfg, w);
      && (w.now - m.startOfCalibration < cfg.durationOfCalibration ==> r == m)
      && (w.now - m.startOfCalibration >= cfg.durationOfCalibration ==> r == m.(desired := MustCheck))
  {
  }

  /** A trigger in the middle of a check or run has no effect; the message
      says so. */
  lemma TriggerWhileBusy(m: Manager)
    requires m.current in {MustCheck, Checking, MustCalibrate, Calibrating}
    ensures TriggerCalibrationCallback(m).0 == m
    ensures TriggerCalibrationCallback(m).1 ==
      TriggerResponse(true, "Calibration was running, so this call had no effect")
  {
  }

  /** The two buffers stay aligned under every operation that touches them. */
  lemma BuffersStayAligned(m: Manager, cfg: Config, w: World, s: Sample, mean: real, stdDev: real)
    requires BuffersAligned(m)
    ensures BuffersAligned(ReadyState(m, cfg, w))
    ensures BuffersAligned(DataCallback(m, s, mean, stdDev))
  {
    var d := DataCallback(m, s, mean, stdDev);
    forall i | 0 <= i < |d.dataBuffer|
      ensures d.zBuffer[i] == d.dataBuffer[i].angularZ
    {
      if i < |m.dataBuffer| {
        assert d.zBuffer[i] == m.zBuffer[i];
        assert d.dataBuffer[i] == m.dataBuffer[i];
      }
    }
  }
}
