/**
 * dmonitoringd_thread: the setup before the loop and the body of its
 * `while True`, on an object that owns the loop's state. Each call of `Step`
 * is one iteration on one batch of topic updates; `Run` iterates over a
 * finite sequence of batches. Both are proved to follow Fusion.StepSpec and
 * Fusion.RunSpec, about which the properties are stated.
 */
module DMonitoringd {
  import opened Wrappers
  import opened Params
  import opened Messages
  import opened Trackers
  import opened Fusion

  class MonitorLoop {
    const driverStatus: DriverStatus
    const handsOnWheelStatus: HandsOnWheelStatus
    const handsOnWheelMonitoringEnabled: bool
    const maxTerminalAlerts: int
    const maxTerminalDuration: int

    // the subscriber's cache: the last sample of each topic
    var liveCalibration: LiveCalibration
    var carState: CarState
    var model: ModelMeta
    var driverState: DriverState

    // the loop's locals
    var calRpy: seq<real>
    var vCruiseLast: real
    var driverEngaged: bool
    var steeringWheelEngaged: bool

    // the dMonitoringState messages sent so far
    ghost var published: seq<DMonitoringState>

    /** The trackers' behaviour and the lockout limits the loop was started with. */
    ghost function Environment(): Env
    {
      Env(driverStatus.behaviour, handsOnWheelStatus.behaviour, maxTerminalAlerts, maxTerminalDuration)
    }

    /** The loop's state as a value. */
    ghost function Snapshot(): State
      reads this, driverStatus, handsOnWheelStatus
    {
      State(liveCalibration, carState, model, driverState,
            calRpy, vCruiseLast, driverEngaged, steeringWheelEngaged, handsOnWheelMonitoringEnabled,
            driverStatus.isRhdRegion, driverStatus.isRhdRegionChecked,
            driverStatus.calls, handsOnWheelStatus.calls, published)
    }

    /** Lines 28-47 once the parameters are read: trackers, RHD fields, cache defaults, locals. */
    constructor (driverBehaviour: DriverBehaviour, handsBehaviour: HandsBehaviour,
                 maxTerminalAlerts: int, maxTerminalDuration: int,
                 rhd: Option<bool>, handsEnabled: bool)
      ensures fresh(driverStatus) && fresh(handsOnWheelStatus)
      ensures Environment() == Env(driverBehaviour, handsBehaviour, maxTerminalAlerts, maxTerminalDuration)
      ensures Snapshot() == Init(rhd, handsEnabled)
    {
      var driver := new DriverStatus(driverBehaviour);
      var hands := new HandsOnWheelStatus(handsBehaviour);
      if rhd.Some? {
        driver.isRhdRegion := rhd.value;
        driver.isRhdRegionChecked := true;
      }
      driverStatus := driver;
      handsOnWheelStatus := hands;
      this.maxTerminalAlerts := maxTerminalAlerts;
      this.maxTerminalDuration := maxTerminalDuration;
      liveCalibration := DEFAULT_CALIBRATION;
      carState := DEFAULT_CAR_STATE;
      model := ModelMeta([]);
      driverState := DriverState([]);
      calRpy := [0.0, 0.0, 0.0];
      vCruiseLast := 0.0;
      driverEngaged := false;
      steeringWheelEngaged := false;
      handsOnWheelMonitoringEnabled := handsEnabled;
      published := [];
    }

    /** One iteration of the loop (lines 51-111) on the batch `t`: the four branches in order. */
    method Step(t: Tick)
      modifies this, driverStatus, handsOnWheelStatus
      ensures Snapshot() == StepSpec(Environment(), old(Snapshot()), t)
    {
      UpdateCache(t);
      HandleCalibration(t.liveCalibration.Some?);
      HandleCarState(t.carState.Some?);
      HandleModel(t.model.Some?);
      HandleDriverState(t.driverState.Some?);
    }

    /** `sm.update()` (line 51): the updated topics' samples replace the cached ones. */
    method UpdateCache(t: Tick)
      modifies this
      ensures Snapshot() == Refresh(old(Snapshot()), t)
    {
      if t.liveCalibration.Some? { liveCalibration := t.liveCalibration.value; }
      if t.carState.Some? { carState := t.carState.value; }
      if t.model.Some? { model := t.model.value; }
      if t.driverState.Some? { driverState := t.driverState.value; }
    }

    /** Lines 54-57. */
    method HandleCalibration(updated: bool)
      modifies this
      ensures Snapshot() == Calibrate(old(Snapshot()), updated)
    {
      if updated {
        if liveCalibration.calStatus == Calibrated {
          if |liveCalibration.rpyCalib| == 3 {
            calRpy := liveCalibration.rpyCalib;
          }
        }
      }
    }

    /** Lines 60-71. */
    method HandleCarState(updated: bool)
      modifies this, driverStatus, handsOnWheelStatus
      ensures Snapshot() == Interact(old(Snapshot()), updated)
    {
      if updated {
        var vCruise := carState.cruiseSpeed;
        steeringWheelEngaged := |carState.buttonEvents| > 0 || vCruise != vCruiseLast || carState.steeringPressed;
        driverEngaged := steeringWheelEngaged;
        ResetOnInteraction();
        vCruiseLast := vCruise;
      }
    }

    /** Lines 66-70: on interaction, each tracker gets an update on a fresh accumulator. */
    method ResetOnInteraction()
      modifies driverStatus`calls, handsOnWheelStatus
      ensures driverStatus.calls == old(driverStatus.calls)
        + (if driverEngaged then [UpdateCall({}, true, carState.cruiseEnabled, carState.standstill)] else [])
      ensures handsOnWheelStatus.calls == old(handsOnWheelStatus.calls)
        + (if steeringWheelEngaged && handsOnWheelMonitoringEnabled
           then [HandsUpdate({}, true, carState.cruiseEnabled, carState.vEgo)] else [])
    {
      if driverEngaged {
        var resetEvents := new Events();
        driverStatus.Update(resetEvents, true, carState.cruiseEnabled, carState.standstill);
      }
      if steeringWheelEngaged && handsOnWheelMonitoringEnabled {
        var resetEvents := new Events();
        handsOnWheelStatus.Update(resetEvents, true, carState.cruiseEnabled, carState.vEgo);
      }
    }

    /** Lines 74-75. */
    method HandleModel(updated: bool)
      modifies driverStatus
      ensures Snapshot() == ForwardPolicy(old(Snapshot()), updated)
    {
      if updated {
        driverStatus.SetPolicy(model);
      }
    }

    /** Lines 78-111. */
    method HandleDriverState(updated: bool)
      modifies this, driverStatus, handsOnWheelStatus
      ensures Snapshot() == Perceive(Environment(), old(Snapshot()), updated)
    {
      if updated {
        ghost var s := Snapshot();
        var events := GatedDriverUpdate();
        ghost var withDriver := events.names;
        if handsOnWheelMonitoringEnabled {
          handsOnWheelStatus.Update(events, steeringWheelEngaged, carState.cruiseEnabled, carState.vEgo);
        }
        var msg := Report(events.names, driverStatus.Readings(), driverStatus.isRhdRegion,
                          driverStatus.isRhdRegionChecked, handsOnWheelStatus.Readings());
        published := published + [msg];
        assert handsOnWheelStatus.calls == if s.handsOnWheelMonitoringEnabled
          then s.handsCalls + [HandsUpdate(withDriver, s.steeringWheelEngaged, s.carState.cruiseEnabled, s.carState.vEgo)]
          else s.handsCalls;
        assert Snapshot() == s.(driverCalls := driverStatus.calls, handsCalls := handsOnWheelStatus.calls,
                                published := s.published + [msg]);
      }
    }

    /**
     * Lines 79-85: a fresh accumulator, get_pose on the held calibration, the
     * lockout gate, and the driver update on that accumulator.
     */
    method GatedDriverUpdate() returns (events: Events)
      modifies driverStatus`calls
      ensures fresh(events)
      ensures
        var car := carState;
        var afterPose := old(driverStatus.calls) + [GetPoseCall(driverState, calRpy, car.vEgo, car.cruiseEnabled)];
        var gated := LockoutGate(Environment(), Environment().driver(afterPose));
        && driverStatus.calls == afterPose + [UpdateCall(gated, driverEngaged, car.cruiseEnabled, car.standstill)]
        && events.names == gated + Environment().driver(driverStatus.calls).alerts
    {
      events := new Events();
      driverStatus.GetPose(driverState, calRpy, carState.vEgo, carState.cruiseEnabled);
      if driverStatus.Readings().terminalAlertCnt >= maxTerminalAlerts
         || driverStatus.Readings().terminalTime >= maxTerminalDuration {
        events.Add(TooDistracted);
      }
      assert events.names == LockoutGate(Environment(), Environment().driver(driverStatus.calls));
      driverStatus.Update(events, driverEngaged, carState.cruiseEnabled, carState.standstill);
    }

    /** The loop over the finite sequence of batches `ticks`, in order. */
    method Run(ticks: seq<Tick>)
      modifies this, driverStatus, handsOnWheelStatus
      ensures Snapshot() == RunSpec(Environment(), old(Snapshot()), ticks)
    {
      var i := 0;
      while i < |ticks|
        invariant 0 <= i <= |ticks|
        invariant Snapshot() == RunSpec(Environment(), old(Snapshot()), ticks[..i])
      {
        Step(ticks[i]);
        assert ticks[..i + 1][..i] == ticks[..i];
        i := i + 1;
      }
      assert ticks[..|ticks|] == ticks;
    }
  }

  /**
   * Startup with the raw parameter values (line 30 and line 47): a malformed
   * IsRHD value makes `int()` raise before the loop starts.
   */
  method Start(driverBehaviour: DriverBehaviour, handsBehaviour: HandsBehaviour,
               maxTerminalAlerts: int, maxTerminalDuration: int,
               isRhdParam: Option<seq<byte>>, handsParam: Option<seq<byte>>)
    returns (r: Result<MonitorLoop, StartupError>)
    ensures r.Err? <==> ReadIsRhd(isRhdParam).Err?
    ensures r.Ok? ==>
      && fresh(r.value) && fresh(r.value.driverStatus) && fresh(r.value.handsOnWheelStatus)
      && r.value.Environment() == Env(driverBehaviour, handsBehaviour, maxTerminalAlerts, maxTerminalDuration)
      && r.value.Snapshot() == Init(ReadIsRhd(isRhdParam).value, HandsOnWheelFlag(handsParam))
  {
    var rhd := ReadIsRhd(isRhdParam);
    if rhd.Err? {
      return Err(rhd.error);
    }
    var loop := new MonitorLoop(driverBehaviour, handsBehaviour, maxTerminalAlerts, maxTerminalDuration,
                                rhd.value, HandsOnWheelFlag(handsParam));
    return Ok(loop);
  }
}
