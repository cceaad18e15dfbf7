/** The pure predicates the calibration workflow and the lifecycle consult:
    the demand gate, the data-span test, the quality threshold test, the
    calibration timeout and the two connection checks. */
module ImuGates {
  import opened ImuTypes

  function Abs(x: real): (r: real)
    ensures r >= 0.0 && (r == x || r == -x)
  {
    if x < 0.0 then -x else x
  }

  /** Whether a calibration check may start (src/imu_manager.cpp:337-344). */
  function CanCheckCalibration(onlyUnderDemand: bool, demanded: bool): (r: bool)
    ensures !r <==> onlyUnderDemand && !demanded
  {
    if onlyUnderDemand && !demanded then false else true
  }

  /** Whether a calibration run may start (src/imu_manager.cpp:328-335); the
      source writes the same gate a second time. */
  function CanRunCalibration(onlyUnderDemand: bool, demanded: bool): (r: bool)
    ensures r == CanCheckCalibration(onlyUnderDemand, demanded)
    ensures !onlyUnderDemand ==> r
  {
    if onlyUnderDemand && !demanded then false else true
  }

  /** Whether enough data has been gathered: compares the stamps of the
      newest and the oldest message in the buffer (src/imu_manager.cpp:369-378). */
  function HasEnoughDataToCalibrate(buffer: seq<Sample>, gathering: int): (r: bool)
    ensures buffer == [] ==> !r
    ensures r <==> |buffer| > 0 && buffer[|buffer| - 1].stamp - buffer[0].stamp >= gathering
  {
    if |buffer| == 0 then false
    else if buffer[|buffer| - 1].stamp - buffer[0].stamp < gathering then false
    else true
  }

  /** Stamps in arrival order never go back in time. */
  ghost predicate InTimeOrder(buffer: seq<Sample>)
  {
    forall i, j :: 0 <= i <= j < |buffer| ==> buffer[i].stamp <= buffer[j].stamp
  }

  /** The buffer covers a time window of at least `gathering`: some pair of
      its messages lies that far apart. */
  ghost predicate SpansAtLeast(buffer: seq<Sample>, gathering: int)
  {
    exists i, j :: 0 <= i <= j < |buffer| && buffer[j].stamp - buffer[i].stamp >= gathering
  }

  /** For a buffer in time order, the front/back comparison of the source
      decides exactly whether the buffered window is long enough. */
  lemma EnoughDataIffSpan(buffer: seq<Sample>, gathering: int)
    requires InTimeOrder(buffer)
    ensures HasEnoughDataToCalibrate(buffer, gathering) <==> SpansAtLeast(buffer, gathering)
  {
    if SpansAtLeast(buffer, gathering) {
      var i, j :| 0 <= i <= j < |buffer| && buffer[j].stamp - buffer[i].stamp >= gathering;
      assert buffer[0].stamp <= buffer[i].stamp;
      assert buffer[j].stamp <= buffer[|buffer| - 1].stamp;
    }
    if HasEnoughDataToCalibrate(buffer, gathering) {
      assert buffer[|buffer| - 1].stamp - buffer[0].stamp >= gathering;
    }
  }

  /** Once enough data is buffered, appending a message that is not older
      than the newest one keeps it enough. */
  lemma EnoughDataStaysEnough(buffer: seq<Sample>, gathering: int, s: Sample)
    requires HasEnoughDataToCalibrate(buffer, gathering)
    requires s.stamp >= buffer[|buffer| - 1].stamp
    ensures HasEnoughDataToCalibrate(buffer + [s], gathering)
  {
    assert (buffer + [s])[0] == buffer[0];
  }

  /** The quality test: the sensor counts as calibrated when neither the
      absolute mean nor the absolute standard deviation exceeds its bound
      (src/imu_manager.cpp:673-704). */
  function IsCalibratedImpl(mean: real, stdDev: real, maxMean: real, maxStd: real): (r: bool)
    ensures r <==> Abs(mean) <= maxMean && Abs(stdDev) <= maxStd
  {
    var calibrated := true;
    var calibrated := if Abs(mean) > maxMean then false else calibrated;
    var calibrated := if Abs(stdDev) > maxStd then false else calibrated;
    calibrated
  }

  /** Whether a calibration run is needed: never while the software is down,
      otherwise exactly when the quality test fails (src/imu_manager.cpp:495-515). */
  function MustRunCalibration(swRunning: bool, mean: real, stdDev: real, cfg: Config): (r: bool)
    ensures r <==> swRunning && (Abs(mean) > cfg.maxMeanError || Abs(stdDev) > cfg.maxStdDeviation)
  {
    if !swRunning then false
    else if IsCalibratedImpl(mean, stdDev, cfg.maxMeanError, cfg.maxStdDeviation) then false
    else true
  }

  /** A calibration run is considered in progress until its duration has
      elapsed (src/imu_manager.cpp:527-532). */
  function IsRunningCalibration(now: int, start: int, duration: int): (r: bool)
    ensures r <==> now < start + duration
  {
    now - start < duration
  }

  /** Once a calibration run is over, it stays over as time advances. */
  lemma CalibrationOverStaysOver(now: int, later: int, start: int, duration: int)
    requires !IsRunningCalibration(now, start, duration)
    requires now <= later
    ensures !IsRunningCalibration(later, start, duration)
  {
  }

  /** Hardware is reachable exactly while it is running (src/imu_manager.cpp:536-542). */
  function CheckHardwareConnectionImpl(hwRunning: bool): (r: bool)
    ensures r == hwRunning
  {
    if !hwRunning then false else true
  }

  /** Software is reachable when it is running and every health monitor
      reports its topic as receiving; with no monitor at all it is reachable
      (src/imu_manager.cpp:544-566). Monitor `i` answers `isReceiving()` with
      `i in receiving`. */
  predicate SoftwareConnected(swRunning: bool, monitors: seq<Topic>, receiving: set<nat>): (r: bool)
    ensures r ==> swRunning
    ensures swRunning && monitors == [] ==> r
    ensures !r && swRunning ==> exists i :: 0 <= i < |monitors| && i !in receiving
  {
    swRunning && forall i :: 0 <= i < |monitors| ==> i in receiving
  }

  /** Concrete instances of the quality test. */
  lemma QualityExamples()
    ensures IsCalibratedImpl(0.0001, 0.0002, 0.01, 0.01)
    ensures !IsCalibratedImpl(0.05, 0.0002, 0.01, 0.01)
    ensures !IsCalibratedImpl(-0.05, 0.0002, 0.01, 0.01)
    ensures !IsCalibratedImpl(0.0, 0.02, 0.01, 0.01)
  {
  }
}
