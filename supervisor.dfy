/** One supervisory tick (the hook of the current lifecycle state, then the
    commit of `allState`) and runs of ticks interleaved with the service and
    sample callbacks, with the properties that hold across many steps. */
module ImuSupervisor {
  import opened ImuTypes
  import opened ImuGates
  import opened ImuLifecycle
  import opened ImuCalibration

  /** The state hook run for the current lifecycle state. */
  function Hook(m: Manager, cfg: Config, w: World): (r: Manager)
    ensures r.current == m.current
  {
    match m.robot
    case Init => InitState(m)
    case Standby => StandbyState(m, w.dataPublished, w.temperaturePublished)
    case Ready => ReadyState(m, cfg, w)
    case Emergency => EmergencyState(m)
    case Failure => FailureState(m)
  }

  /** A tick: the hook stages, then exactly one commit makes the staged
      calibration state current (src/imu_manager.cpp:322-326). */
  function Tick(m: Manager, cfg: Config, w: World): (r: Manager)
    ensures r.current == Hook(m, cfg, w).desired && r.desired == r.current
    ensures r.(current := m.current) == Hook(m, cfg, w)
  {
    SwitchToDesiredState(Hook(m, cfg, w))
  }

  /** What can happen to the manager between two observations. */
  datatype Event =
    | TickEvent(w: World)
    | DemandEvent
    | ImuMessage(s: Sample, mean: real, stdDev: real)
    | TemperatureMessage(t: real)

  function Step(m: Manager, cfg: Config, e: Event): Manager
  {
    match e
    case TickEvent(w) => Tick(m, cfg, w)
    case DemandEvent => TriggerCalibrationCallback(m).0
    case ImuMessage(s, mean, stdDev) => DataCallback(m, s, mean, stdDev)
    case TemperatureMessage(t) => TemperatureCallback(m, t)
  }

  function Run(m: Manager, cfg: Config, es: seq<Event>): Manager
    decreases |es|
  {
    if es == [] then m else Run(Step(m, cfg, es[0]), cfg, es[1..])
  }

  // ---------------------------------------------------------------------
  // The staged discipline.

  /** Between events the staged and the current calibration state agree. */
  predicate Committed(m: Manager) { m.current == m.desired }

  lemma {:induction false} CommittedBetweenEvents(m: Manager, cfg: Config, es: seq<Event>)
    requires Committed(m)
    ensures Committed(Run(m, cfg, es))
    decreases |es|
  {
    if es != [] {
      CommittedBetweenEvents(Step(m, cfg, es[0]), cfg, es[1..]);
    }
  }

  /** Only ticks change the current calibration state; the callbacks never
      touch the workflow's state. */
  lemma CallbacksKeepWorkflow(m: Manager, cfg: Config, e: Event)
    requires !e.TickEvent?
    ensures Step(m, cfg, e).current == m.current && Step(m, cfg, e).desired == m.desired
    ensures !e.DemandEvent? ==> Step(m, cfg, e).demanded == m.demanded
  {
  }

  /** The message buffer and the z-rate buffer stay aligned over any run. */
  lemma {:induction false} BuffersAlignedOverRun(m: Manager, cfg: Config, es: seq<Event>)
    requires BuffersAligned(m)
    ensures BuffersAligned(Run(m, cfg, es))
    decreases |es|
  {
    if es != [] {
      var e := es[0];
      var s: Sample :| true;
      BuffersStayAligned(m, cfg, if e.TickEvent? then e.w else World(0, {}, false, false, false, false),
                         if e.ImuMessage? then e.s else s,
                         if e.ImuMessage? then e.mean else 0.0,
                         if e.ImuMessage? then e.stdDev else 0.0);
      BuffersAlignedOverRun(Step(m, cfg, e), cfg, es[1..]);
    }
  }

  // ---------------------------------------------------------------------
  // Demand-only mode.

  /** The calibration states that demand-only mode keeps without a demand. */
  predicate Idle(c: CalibrationState)
  {
    c == Unknown || c == NotCalibrated || c == MustCheck || c == Calibrated
  }

  predicate Quiet(m: Manager)
  {
    Idle(m.current) && Idle(m.desired) && !m.demanded
  }

  lemma QuietStep(m: Manager, cfg: Config, e: Event)
    requires cfg.onlyUnderDemand && Quiet(m) && !e.DemandEvent?
    ensures Quiet(Step(m, cfg, e)) && Step(m, cfg, e).calls == m.calls
    ensures m.current == Calibrated && Committed(m) ==>
      Step(m, cfg, e).current == Calibrated && Committed(Step(m, cfg, e))
  {
    if e.TickEvent? && m.robot == Ready && Healthy(m, e.w) {
      if m.current == MustCheck {
        MustCheckGate(m, cfg, e.w);
      } else if m.current == Calibrated {
        CalibratedRecheck(m, cfg, e.w);
      }
    }
  }

  /** In demand-only mode with no demand, no run of ticks and sample
      callbacks ever starts a check or a calibration run, never calls the
      motion service or the actuator, and never leaves CALIBRATED. */
  lemma {:induction false} DemandOnlyStaysIdle(m: Manager, cfg: Config, es: seq<Event>)
    requires cfg.onlyUnderDemand && Quiet(m)
    requires forall k :: 0 <= k < |es| ==> !es[k].DemandEvent?
    ensures Quiet(Run(m, cfg, es)) && Run(m, cfg, es).calls == m.calls
    ensures m.current == Calibrated && Committed(m) ==> Run(m, cfg, es).current == Calibrated
    decreases |es|
  {
    if es != [] {
      QuietStep(m, cfg, es[0]);
      DemandOnlyStaysIdle(Step(m, cfg, es[0]), cfg, es[1..]);
    }
  }

  /** Demand-only mode consumes a demand in CALIBRATED and then finds the
      MUST_CHECK gate closed, while the trigger service refuses new demands
      in MUST_CHECK: once there, the manager never leaves MUST_CHECK and
      never calls a service again, whatever happens. */
  predicate Stalled(m: Manager)
  {
    m.current == MustCheck && m.desired == MustCheck && !m.demanded
  }

  lemma StalledStep(m: Manager, cfg: Config, e: Event)
    requires cfg.onlyUnderDemand && Stalled(m)
    ensures Stalled(Step(m, cfg, e)) && Step(m, cfg, e).calls == m.calls
  {
    if e.TickEvent? && m.robot == Ready && Healthy(m, e.w) {
      MustCheckGate(m, cfg, e.w);
    }
  }

  lemma {:induction false} StalledForever(m: Manager, cfg: Config, es: seq<Event>)
    requires cfg.onlyUnderDemand && Stalled(m)
    ensures Stalled(Run(m, cfg, es)) && Run(m, cfg, es).calls == m.calls
    decreases |es|
  {
    if es != [] {
      StalledStep(m, cfg, es[0]);
      StalledForever(Step(m, cfg, es[0]), cfg, es[1..]);
    }
  }

  /** How the stall is reached: a demand in CALIBRATED followed by one
      healthy READY tick. */
  lemma DemandFromCalibratedStalls(m: Manager, cfg: Config, w: World)
    requires cfg.onlyUnderDemand && m.robot == Ready && Healthy(m, w)
    requires m.current == Calibrated && m.desired == Calibrated
    ensures Stalled(Run(m, cfg, [DemandEvent, TickEvent(w)]))
  {
    var m1 := Step(m, cfg, DemandEvent);
    assert m1 == m.(demanded := true);
    assert Healthy(m1, w);
    CalibratedRecheck(m1, cfg, w);
    var m2 := Tick(m1, cfg, w);
    assert Stalled(m2);
    assert [DemandEvent, TickEvent(w)][1..] == [TickEvent(w)];
    calc {
      Run(m, cfg, [DemandEvent, TickEvent(w)]);
      Run(m1, cfg, [TickEvent(w)]);
      Run(m2, cfg, []);
    }
  }

  // ---------------------------------------------------------------------
  // Recovery of the lifecycle.

  /** From FAILURE, three ticks in which both topics are published bring the
      manager back to READY with hardware and software running. */
  lemma RecoversToReady(m: Manager, cfg: Config, w1: World, w2: World, w3: World)
    requires m.robot == Failure
    requires w3.dataPublished && w3.temperaturePublished
    ensures var r := Run(m, cfg, [TickEvent(w1), TickEvent(w2), TickEvent(w3)]);
            r.robot == Ready && r.hwRunning && r.swRunning
  {
    var es := [TickEvent(w1), TickEvent(w2), TickEvent(w3)];
    var m1 := Tick(m, cfg, w1);
    FailureRecovers(m);
    assert m1.robot == Init && m1.hwRunning;
    var m2 := Tick(m1, cfg, w2);
    assert m2.robot == Standby && m2.hwRunning;
    var m3 := Tick(m2, cfg, w3);
    if !m2.swRunning {
      SoftwareStartOutcome(m2, w3.dataPublished, w3.temperaturePublished);
    }
    assert m3.robot == Ready && m3.hwRunning && m3.swRunning;
    assert es[1..] == [TickEvent(w2), TickEvent(w3)];
    assert es[1..][1..] == [TickEvent(w3)];
    calc {
      Run(m, cfg, es);
      Run(m1, cfg, [TickEvent(w2), TickEvent(w3)]);
      Run(m2, cfg, [TickEvent(w3)]);
      Run(m3, cfg, []);
    }
  }

  /** EMERGENCY never stays: the next tick goes to INIT, or to FAILURE when
      the hardware is down. */
  lemma EmergencyLeaves(m: Manager, cfg: Config, w: World)
    requires m.robot == Emergency
    ensures Tick(m, cfg, w).robot == (if m.hwRunning then Init else Failure)
    ensures !Tick(m, cfg, w).swRunning
  {
  }
}
