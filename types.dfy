/** Entities of the IMU calibration supervisor: the two state enumerations,
    the configuration read at start-up, one inertial sample, and a value
    snapshot of every field of the manager that its behaviour depends on. */
module ImuTypes {

  /** The seven states of the inner calibration workflow. */
  datatype CalibrationState =
    | Unknown
    | NotCalibrated
    | MustCheck
    | Checking
    | MustCalibrate
    | Calibrating
    | Calibrated

  /** The outer lifecycle states used by the manager's state hooks. */
  datatype RobotState = Init | Standby | Ready | Emergency | Failure

  /** The data topics the manager subscribes to and monitors. */
  datatype Topic = DataTopic | TemperatureTopic

  /** One inertial message as far as the manager uses it: its header stamp
      (integer time) and its angular velocity about the z axis. */
  datatype Sample = Sample(stamp: int, angularZ: real)

  /** A request sent to an external service: the motion enable/disable
      service or the gyroscope calibration actuator. */
  datatype ServiceCall = SetMotion(enable: bool) | TriggerGyroCalibration

  /** Parameters read once at start-up. Durations are integer time. */
  datatype Config = Config(
    maxMeanError: real,
    maxStdDeviation: real,
    onlyUnderDemand: bool,
    temperatureVariation: real,
    periodBetweenCheckings: int,
    periodOfDataGathering: int,
    durationOfCalibration: int)

  /** What the outside world answers during one supervisory tick: the clock,
      which health monitors (by index) report their topic as receiving, the
      reply of the motion service, the reply of the calibration actuator, and
      whether the one-second waits for a first data / temperature message see
      one. */
  datatype World = World(
    now: int,
    receiving: set<nat>,
    motionAccepted: bool,
    actuatorAccepted: bool,
    dataPublished: bool,
    temperaturePublished: bool)

  /** Reply of the operator's trigger service. */
  datatype TriggerResponse = TriggerResponse(success: bool, message: string)

  /** Every field of the manager that its behaviour reads or writes.
      `current`/`desired` are the two halves of the calibration state holder;
      `calls` records the requests sent through the two service clients. */
  datatype Manager = Manager(
    robot: RobotState,
    current: CalibrationState,
    desired: CalibrationState,
    hwRunning: bool,
    swRunning: bool,
    demanded: bool,
    timeOfLastCalibration: int,
    temperatureAtLastCalibration: real,
    currentTemperature: real,
    startOfCalibration: int,
    temperatureVariation: real,
    dataBuffer: seq<Sample>,
    zBuffer: seq<real>,
    mean: real,
    stdDev: real,
    subscribers: seq<Topic>,
    monitors: seq<Topic>,
    calls: seq<ServiceCall>)

  /** The z angular-velocity buffer holds exactly the z components of the
      message buffer, in the same order. */
  ghost predicate BuffersAligned(m: Manager)
  {
    |m.zBuffer| == |m.dataBuffer|
    && forall i :: 0 <= i < |m.dataBuffer| ==> m.zBuffer[i] == m.dataBuffer[i].angularZ
  }

  /** The state of a freshly constructed manager. */
  function Initial(cfg: Config): (m: Manager)
    ensures m.robot == Init && m.current == Unknown && m.desired == Unknown
    ensures !m.hwRunning && !m.swRunning && !m.demanded
    ensures m.dataBuffer == [] && m.monitors == [] && m.calls == []
    ensures m.temperatureVariation == cfg.temperatureVariation
    ensures BuffersAligned(m)
  {
    Manager(Init, Unknown, Unknown, false, false, false, 0, 0.0, 0.0, 0,
            cfg.temperatureVariation, [], [], 0.0, 0.0, [], [], [])
  }
}
