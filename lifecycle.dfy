/** The outer lifecycle: idempotent start/stop of hardware and software, and
    the INIT, STANDBY, EMERGENCY and FAILURE state hooks. Each operation maps
    the manager's fields before the call to its fields after it; those that
    return a status give it beside the new fields. */
module ImuLifecycle {
  import opened ImuTypes
  import opened ImuGates

  /** The hardware start/stop implementations of this sensor always succeed
      (src/imu_manager.cpp:568-575). */
  function StartHardwareImpl(): (ok: bool)
    ensures ok
  {
    true
  }

  function StopHardwareImpl(): (ok: bool)
    ensures ok
  {
    true
  }

  /** Only these fields are touched by the lifecycle operations below. */
  ghost predicate CalibrationUntouched(m: Manager, r: Manager)
  {
    r.current == m.current && r.desired == m.desired && r.demanded == m.demanded
    && r.timeOfLastCalibration == m.timeOfLastCalibration
    && r.temperatureAtLastCalibration == m.temperatureAtLastCalibration
    && r.currentTemperature == m.currentTemperature
    && r.startOfCalibration == m.startOfCalibration
    && r.temperatureVariation == m.temperatureVariation
    && r.dataBuffer == m.dataBuffer && r.zBuffer == m.zBuffer
    && r.mean == m.mean && r.stdDev == m.stdDev && r.calls == m.calls
  }

  /** src/imu_manager.cpp:391-412 */
  function StartHardware(m: Manager): (r: (Manager, bool))
    ensures m.hwRunning ==> r == (m, true)
    ensures r.1 <==> r.0.hwRunning
    ensures r.0 == m.(hwRunning := r.0.hwRunning)
  {
    if m.hwRunning then (m, true)
    else
      var ok := StartHardwareImpl();
      if ok then (m.(hwRunning := true), true) else (m, false)
  }

  /** src/imu_manager.cpp:413-440. As written, the guard refuses whenever the
      software is NOT running. */
  function StopHardware(m: Manager): (r: (Manager, bool))
    ensures !m.swRunning ==> r == (m, false)
    ensures m.swRunning ==> r.1 && !r.0.hwRunning
    ensures r.0 == m.(hwRunning := r.0.hwRunning)
  {
    if !m.swRunning then (m, false)
    else if !m.hwRunning then (m, true)
    else
      var ok := StopHardwareImpl();
      if ok then (m.(hwRunning := false), true) else (m, false)
  }

  /** src/imu_manager.cpp:577-613: wait for a first data message, subscribe
      to the data topic and monitor it, then wait for a first temperature
      message, subscribe to that topic and monitor it. A failed temperature
      wait returns with the data subscription and its monitor already added. */
  function StartSoftwareImpl(m: Manager, dataPublished: bool, temperaturePublished: bool): (r: (Manager, bool))
    ensures r.1 <==> dataPublished && temperaturePublished
    ensures !dataPublished ==> r.0 == m
    ensures dataPublished && !temperaturePublished ==>
      r.0 == m.(subscribers := m.subscribers + [DataTopic], monitors := m.monitors + [DataTopic])
    ensures r.1 ==> r.0 == m.(subscribers := m.subscribers + [DataTopic, TemperatureTopic],
                              monitors := m.monitors + [DataTopic, TemperatureTopic])
  {
    if !dataPublished then (m, false)
    else
      var m1 := m.(subscribers := m.subscribers + [DataTopic], monitors := m.monitors + [DataTopic]);
      if !temperaturePublished then (m1, false)
      else (m1.(subscribers := m1.subscribers + [TemperatureTopic],
                monitors := m1.monitors + [TemperatureTopic]), true)
  }

  /** src/imu_manager.cpp:615-621 */
  function StopSoftwareImpl(m: Manager): (r: (Manager, bool))
    ensures r.1 && r.0 == m.(subscribers := [], monitors := [])
  {
    (m.(monitors := [], subscribers := []), true)
  }

  /** src/imu_manager.cpp:443-470 */
  function StartSoftware(m: Manager, dataPublished: bool, temperaturePublished: bool): (r: (Manager, bool))
    ensures !m.hwRunning ==> r == (m, false)
    ensures m.hwRunning && m.swRunning ==> r == (m, true)
    ensures m.hwRunning ==> (r.1 <==> r.0.swRunning)
    ensures CalibrationUntouched(m, r.0) && r.0.robot == m.robot && r.0.hwRunning == m.hwRunning
  {
    if !m.hwRunning then (m, false)
    else if m.swRunning then (m, true)
    else
      var (m1, ok) := StartSoftwareImpl(m, dataPublished, temperaturePublished);
      if ok then (m1.(swRunning := true), true) else (m1, false)
  }

  /** src/imu_manager.cpp:472-493 */
  function StopSoftware(m: Manager): (r: (Manager, bool))
    ensures !m.swRunning ==> r == (m, true)
    ensures r.1 && !r.0.swRunning
    ensures m.swRunning ==> r.0.monitors == [] && r.0.subscribers == []
    ensures CalibrationUntouched(m, r.0) && r.0.robot == m.robot && r.0.hwRunning == m.hwRunning
  {
    if !m.swRunning then (m, true)
    else
      var (m1, ok) := StopSoftwareImpl(m);
      if ok then (m1.(swRunning := false), true) else (m1, false)
  }

  /** INIT hook (src/imu_manager.cpp:103-113). */
  function InitState(m: Manager): (r: Manager)
    ensures r.robot == (if StartHardware(m).1 then Standby else Failure)
    ensures r == StartHardware(m).0.(robot := r.robot)
  {
    var (m1, ok) := StartHardware(m);
    if !ok then m1.(robot := Failure) else m1.(robot := Standby)
  }

  /** STANDBY hook (src/imu_manager.cpp:115-124): a failed software start
      stays in STANDBY and is retried on the next tick. */
  function StandbyState(m: Manager, dataPublished: bool, temperaturePublished: bool): (r: Manager)
    ensures r.robot == (if StartSoftware(m, dataPublished, temperaturePublished).1 then Ready else m.robot)
    ensures r == StartSoftware(m, dataPublished, temperaturePublished).0.(robot := r.robot)
  {
    var (m1, ok) := StartSoftware(m, dataPublished, temperaturePublished);
    if !ok then m1 else m1.(robot := Ready)
  }

  /** EMERGENCY hook (src/imu_manager.cpp:288-302). */
  function EmergencyState(m: Manager): (r: Manager)
    ensures !r.swRunning && r.hwRunning == m.hwRunning
    ensures r.robot == (if m.hwRunning then Init else Failure)
    ensures m.swRunning ==> r.monitors == [] && r.subscribers == []
    ensures !m.swRunning ==> r.monitors == m.monitors && r.subscribers == m.subscribers
    ensures CalibrationUntouched(m, r)
  {
    var m1 := StopSoftware(m).0;
    if !CheckHardwareConnectionImpl(m1.hwRunning) then m1.(robot := Failure)
    else m1.(robot := Init)
  }

  /** FAILURE hook (src/imu_manager.cpp:304-320). */
  function FailureState(m: Manager): (r: Manager)
    ensures CalibrationUntouched(m, r)
    ensures r.swRunning == m.swRunning && r.monitors == m.monitors && r.subscribers == m.subscribers
  {
    var m1 := if m.hwRunning then StopHardware(m).0 else m;
    var m2 := if !m1.hwRunning then StartHardware(m1).0 else m1;
    if CheckHardwareConnectionImpl(m2.hwRunning) then m2.(robot := Init) else m2
  }

  // ---------------------------------------------------------------------
  // Properties of the lifecycle operations.

  /** Starting an already started subsystem is a successful no-op, so a
      successful start is idempotent. */
  lemma StartIsIdempotent(m: Manager, d: bool, t: bool)
    ensures StartHardware(StartHardware(m).0) == (StartHardware(m).0, true)
    ensures StartSoftware(m, d, t).1 ==>
      StartSoftware(StartSoftware(m, d, t).0, d, t) == (StartSoftware(m, d, t).0, true)
  {
  }

  /** Stopping software twice is the same as stopping it once; the second
      stop is a successful no-op. */
  lemma StopSoftwareIsIdempotent(m: Manager)
    ensures StopSoftware(StopSoftware(m).0) == (StopSoftware(m).0, true)
  {
  }

  /** Software cannot be started before the hardware: the start fails and
      no subscription or monitor is added. */
  lemma SoftwareNeedsHardware(m: Manager, d: bool, t: bool)
    requires !m.hwRunning
    ensures !StartSoftware(m, d, t).1
    ensures StartSoftware(m, d, t).0.subscribers == m.subscribers
    ensures StartSoftware(m, d, t).0.monitors == m.monitors
  {
  }

  /** A first start of the software succeeds exactly when both topics are
      published, and then monitors both topics after those already present. */
  lemma SoftwareStartOutcome(m: Manager, d: bool, t: bool)
    requires m.hwRunning && !m.swRunning
    ensures StartSoftware(m, d, t).1 <==> d && t
    ensures StartSoftware(m, d, t).1 ==>
      StartSoftware(m, d, t).0.monitors == m.monitors + [DataTopic, TemperatureTopic]
  {
  }

  /** A failed temperature wait leaves a data subscription and its monitor
      behind while the software stays stopped; each retry adds another. */
  lemma FailedTemperatureWaitLeaks(m: Manager)
    requires m.hwRunning && !m.swRunning
    ensures var (r, ok) := StartSoftware(m, true, false);
            !ok && !r.swRunning
            && r.subscribers == m.subscribers + [DataTopic]
            && r.monitors == m.monitors + [DataTopic]
    ensures |StandbyState(StandbyState(m, true, false), true, false).monitors| == |m.monitors| + 2
  {
  }

  /** A failed temperature wait followed by a successful retry leaves two
      data monitors in front of the temperature monitor, so the monitor at
      index 1, which the temperature callback ticks, watches the data topic. */
  lemma RetryAfterLeakShiftsMonitors(m: Manager)
    requires m.hwRunning && !m.swRunning && m.monitors == []
    ensures var r := StandbyState(StandbyState(m, true, false), true, true);
            r.robot == Ready && r.swRunning
            && r.monitors == [DataTopic, DataTopic, TemperatureTopic]
            && r.monitors[1] == DataTopic
  {
  }

  /** Stopping hardware while the software is stopped is refused, so the
      FAILURE hook then keeps the already running hardware as it is. */
  lemma StopHardwareRefusedWhileSoftwareStopped(m: Manager)
    requires !m.swRunning
    ensures StopHardware(m) == (m, false)
    ensures m.hwRunning ==> FailureState(m) == m.(robot := Init)
  {
  }

  /** Since the hardware start of this sensor always succeeds, the INIT hook
      always reaches STANDBY with the hardware running. */
  lemma InitReachesStandby(m: Manager)
    ensures InitState(m).robot == Standby && InitState(m).hwRunning
    ensures InitState(m).swRunning == m.swRunning
  {
  }

  /** The FAILURE hook always ends with the hardware running and the robot
      back in INIT, since both hardware implementations succeed. */
  lemma FailureRecovers(m: Manager)
    ensures FailureState(m).hwRunning && FailureState(m).robot == Init
  {
  }

  /** The EMERGENCY hook always stops the software (clearing its
      subscriptions and monitors) and goes to FAILURE, not back to INIT, when
      the hardware is down. */
  lemma EmergencyStopsSoftware(m: Manager)
    ensures var r := EmergencyState(m);
            !r.swRunning && (m.swRunning ==> r.monitors == [] && r.subscribers == [])
            && (r.robot == Failure <==> !m.hwRunning)
  {
  }
}
