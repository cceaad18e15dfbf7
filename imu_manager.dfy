/** The manager as an object: its fields are updated in place by the state
    hooks, the lifecycle methods and the callbacks, exactly as the pure
    functions of ImuLifecycle and ImuCalibration describe. */
module ImuNode {
  import opened ImuTypes
  import opened ImuGates
  import L = ImuLifecycle
  import C = ImuCalibration

  class ImuManager {
    const config: Config

    var robot: RobotState
    var current: CalibrationState
    var desired: CalibrationState
    var hwRunning: bool
    var swRunning: bool
    var demanded: bool
    var timeOfLastCalibration: int
    var temperatureAtLastCalibration: real
    var currentTemperature: real
    var startOfCalibration: int
    var temperatureVariation: real
    var dataBuffer: seq<Sample>
    var zBuffer: seq<real>
    var mean: real
    var stdDev: real
    var subscribers: seq<Topic>
    var monitors: seq<Topic>
    /** The log of service requests made; it exists only for the proofs. */
    ghost var calls: seq<ServiceCall>

    /** The value of all fields. */
    ghost function Model(): Manager
      reads this
    {
      Manager(robot, current, desired, hwRunning, swRunning, demanded,
              timeOfLastCalibration, temperatureAtLastCalibration, currentTemperature,
              startOfCalibration, temperatureVariation, dataBuffer, zBuffer, mean, stdDev,
              subscribers, monitors, calls)
    }

    /** src/imu_manager.cpp:7-24, with the parameters already read. */
    constructor (config: Config)
      ensures this.config == config && Model() == Initial(config)
    {
      this.config := config;
      robot := Init;
      hwRunning, swRunning := false, false;
      current := Unknown;
      desired := Unknown;
      demanded := false;
      timeOfLastCalibration, startOfCalibration := 0, 0;
      temperatureAtLastCalibration, currentTemperature := 0.0, 0.0;
      temperatureVariation := config.temperatureVariation;
      dataBuffer, zBuffer := [], [];
      mean, stdDev := 0.0, 0.0;
      subscribers, monitors, calls := [], [], [];
    }

    // ----- lifecycle -----------------------------------------------------

    method StartHardware() returns (ok: bool)
      modifies this
      ensures (Model(), ok) == L.StartHardware(old(Model()))
    {
      if hwRunning {
        return true;
      }
      ok := L.StartHardwareImpl();
      if ok {
        hwRunning := true;
      }
    }

    method StopHardware() returns (ok: bool)
      modifies this
      ensures (Model(), ok) == L.StopHardware(old(Model()))
    {
      if !swRunning {
        return false;
      }
      if !hwRunning {
        return true;
      }
      ok := L.StopHardwareImpl();
      if ok {
        hwRunning := false;
      }
    }

    method StartSoftwareImpl(dataPublished: bool, temperaturePublished: bool) returns (ok: bool)
      modifies this
      ensures (Model(), ok) == L.StartSoftwareImpl(old(Model()), dataPublished, temperaturePublished)
    {
      if !dataPublished {
        return false;
      }
      subscribers := subscribers + [DataTopic];
      monitors := monitors + [DataTopic];
      if !temperaturePublished {
        return false;
      }
      subscribers := subscribers + [TemperatureTopic];
      monitors := monitors + [TemperatureTopic];
      return true;
    }

    method StopSoftwareImpl() returns (ok: bool)
      modifies this
      ensures (Model(), ok) == L.StopSoftwareImpl(old(Model()))
    {
      monitors := [];
      subscribers := [];
      return true;
    }

    method StartSoftware(dataPublished: bool, temperaturePublished: bool) returns (ok: bool)
      modifies this
      ensures (Model(), ok) == L.StartSoftware(old(Model()), dataPublished, temperaturePublished)
    {
      if !hwRunning {
        return false;
      }
      if swRunning {
        return true;
      }
      ok := StartSoftwareImpl(dataPublished, temperaturePublished);
      if ok {
        swRunning := true;
      }
    }

    method StopSoftware() returns (ok: bool)
      modifies this
      ensures (Model(), ok) == L.StopSoftware(old(Model()))
    {
      if !swRunning {
        return true;
      }
      ok := StopSoftwareImpl();
      if ok {
        swRunning := false;
      }
    }

    /** The health loop of src/imu_manager.cpp:544-566: every monitor is
        asked, none is skipped after a failure. */
    method CheckSoftwareConnectionImpl(receiving: set<nat>) returns (ok: bool)
      ensures ok == SoftwareConnected(swRunning, monitors, receiving)
      ensures ok ==> swRunning
    {
      if !swRunning {
        return false;
      }
      if |monitors| == 0 {
        return true;
      }
      var fail := false;
      var i := 0;
      while i < |monitors|
        invariant 0 <= i <= |monitors|
        invariant fail <==> exists k :: 0 <= k < i && k !in receiving
      {
        if i !in receiving {
          fail := true;
        }
        i := i + 1;
      }
      ok := !fail;
    }

    method InitState()
      modifies this
      ensures Model() == L.InitState(old(Model()))
    {
      var ok := StartHardware();
      robot := if !ok then Failure else Standby;
    }

    method StandbyState(dataPublished: bool, temperaturePublished: bool)
      modifies this
      ensures Model() == L.StandbyState(old(Model()), dataPublished, temperaturePublished)
    {
      var ok := StartSoftware(dataPublished, temperaturePublished);
      if !ok {
        return;
      }
      robot := Ready;
    }

    method EmergencyState()
      modifies this
      ensures Model() == L.EmergencyState(old(Model()))
    {
      var stopped := StopSoftware();
      if !CheckHardwareConnectionImpl(hwRunning) {
        robot := Failure;
      } else {
        robot := Init;
      }
    }

    method FailureState()
      modifies this
      ensures Model() == L.FailureState(old(Model()))
    {
      if hwRunning {
        var stopped := StopHardware();
      }
      if !hwRunning {
        var started := StartHardware();
      }
      if CheckHardwareConnectionImpl(hwRunning) {
        robot := Init;
      }
    }

    // ----- calibration workflow ------------------------------------------

    method ToggleRobotOperation(enable: bool, accepted: bool) returns (ok: bool)
      modifies this
      ensures (Model(), ok) == C.ToggleRobotOperation(old(Model()), enable, accepted)
    {
      calls := calls + [SetMotion(enable)];
      ok := accepted;
    }

    method RunCalibration(now: int, accepted: bool) returns (ok: bool)
      modifies this
      ensures (Model(), ok) == C.RunCalibration(old(Model()), now, accepted)
    {
      calls := calls + [TriggerGyroCalibration];
      if !accepted {
        return false;
      }
      startOfCalibration := now;
      return true;
    }

    /** CALIBRATED branch of src/imu_manager.cpp:148-178. */
    method CalibratedBranch(now: int)
      modifies this
      ensures Model() == C.CalibratedStep(old(Model()), config, now)
    {
      temperatureVariation := 1.0;
      if !config.onlyUnderDemand {
        if Abs(currentTemperature - temperatureAtLastCalibration) > temperatureVariation {
          desired := MustCheck;
          return;
        }
        if now - timeOfLastCalibration > config.periodBetweenCheckings {
          desired := MustCheck;
          return;
        }
      }
      if demanded {
        demanded := false;
        desired := MustCheck;
      }
    }

    /** MUST_CHECK branch of src/imu_manager.cpp:180-202. */
    method MustCheckBranch(motionAccepted: bool)
      modifies this
      ensures Model() == C.MustCheckStep(old(Model()), config, motionAccepted)
    {
      var canCheck := CanCheckCalibration(config.onlyUnderDemand, demanded);
      if canCheck {
        dataBuffer := [];
        zBuffer := [];
        var ignored := ToggleRobotOperation(false, motionAccepted);
        desired := Checking;
      }
    }

    /** CHECKING branch of src/imu_manager.cpp:204-235. */
    method CheckingBranch(now: int, motionAccepted: bool)
      modifies this
      ensures Model() == C.CheckingStep(old(Model()), config, now, motionAccepted)
    {
      if !HasEnoughDataToCalibrate(dataBuffer, config.periodOfDataGathering) {
        return;
      }
      var mustCalibrate := MustRunCalibration(swRunning, mean, stdDev, config);
      if mustCalibrate {
        desired := MustCalibrate;
        return;
      }
      timeOfLastCalibration := now;
      temperatureAtLastCalibration := currentTemperature;
      var ignored := ToggleRobotOperation(true, motionAccepted);
      desired := Calibrated;
    }

    /** MUST_CALIBRATE branch of src/imu_manager.cpp:237-269. */
    method MustCalibrateBranch(now: int, motionAccepted: bool, actuatorAccepted: bool)
      modifies this
      ensures Model() == C.MustCalibrateStep(old(Model()), config, now, motionAccepted, actuatorAccepted)
    {
      var canRun := CanRunCalibration(config.onlyUnderDemand, demanded);
      if !canRun {
        return;
      }
      var disabled := ToggleRobotOperation(false, motionAccepted);
      if !disabled {
        desired := NotCalibrated;
        return;
      }
      var started := RunCalibration(now, actuatorAccepted);
      if started {
        desired := Calibrating;
        return;
      }
      desired := NotCalibrated;
      robot := Failure;
    }

    /** CALIBRATING branch of src/imu_manager.cpp:271-285. */
    method CalibratingBranch(now: int)
      modifies this
      ensures Model() == C.CalibratingStep(old(Model()), config, now)
    {
      var running := IsRunningCalibration(now, startOfCalibration, config.durationOfCalibration);
      if !running {
        desired := MustCheck;
      }
    }

    /** src/imu_manager.cpp:126-286. Only the desired calibration state is
        written; `current` is left to AllState. */
    method ReadyState(w: World)
      modifies this
      ensures Model() == C.ReadyState(old(Model()), config, w)
      ensures current == old(current)
    {
      if !CheckHardwareConnectionImpl(hwRunning) {
        robot := Failure;
        return;
      }
      var swOk := CheckSoftwareConnectionImpl(w.receiving);
      if !swOk {
        robot := Emergency;
        return;
      }
      if current == Unknown || current == NotCalibrated {
        desired := MustCheck;
      } else if current == Calibrated {
        CalibratedBranch(w.now);
      } else if current == MustCheck {
        MustCheckBranch(w.motionAccepted);
      } else if current == Checking {
        CheckingBranch(w.now, w.motionAccepted);
      } else if current == MustCalibrate {
        MustCalibrateBranch(w.now, w.motionAccepted, w.actuatorAccepted);
      } else {
        CalibratingBranch(w.now);
      }
    }

    /** src/imu_manager.cpp:322-326: the one commit of a tick. */
    method AllState()
      modifies this
      ensures Model() == C.SwitchToDesiredState(old(Model()))
    {
      current := desired;
    }

    // ----- operator service and callbacks --------------------------------

    method TriggerCalibrationCallback() returns (success: bool, message: string)
      modifies this
      ensures (Model(), TriggerResponse(success, message)) == C.TriggerCalibrationCallback(old(Model()))
    {
      if current == Unknown || current == NotCalibrated || current == Calibrated {
        demanded := true;
        success := true;
        message := "Calibration triggered";
      } else {
        success := true;
        message := "Calibration was running, so this call had no effect";
      }
    }

    /** `mean` and `stdDev` are what the statistics helpers return for the
        z buffer after the append. */
    method DataCallback(s: Sample, newMean: real, newStdDev: real)
      modifies this
      ensures Model() == C.DataCallback(old(Model()), s, newMean, newStdDev)
    {
      dataBuffer := dataBuffer + [s];
      zBuffer := zBuffer + [s.angularZ];
      mean := newMean;
      stdDev := newStdDev;
    }

    method TemperatureCallback(t: real)
      modifies this
      ensures Model() == C.TemperatureCallback(old(Model()), t)
    {
      currentTemperature := t;
    }
  }
}
