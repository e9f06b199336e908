/**
 * Properties of the monitoring loop over any finite sequence of batches,
 * proved about Fusion.RunSpec and so about every run of MonitorLoop.Run.
 */
module MonitorProperties {
  import opened Wrappers
  import opened Messages
  import opened Trackers
  import opened Fusion

  /** The loop invariant holds after any run that starts in it, in particular from Init. */
  lemma {:induction false} RunKeepsInvariant(env: Env, s: State, ts: seq<Tick>)
    requires Invariant(s)
    ensures Invariant(RunSpec(env, s, ts))
    decreases |ts|
  {
    if ts != [] {
      RunKeepsInvariant(env, s, ts[..|ts| - 1]);
      StepInvariant(env, RunSpec(env, s, ts[..|ts| - 1]), ts[|ts| - 1]);
    }
  }

  /** Batch `i` of `ts` carries a calibration sample the loop accepts. */
  predicate AcceptedAt(ts: seq<Tick>, i: int)
  {
    0 <= i < |ts| && ts[i].liveCalibration.Some? && Accepts(ts[i].liveCalibration.value)
  }

  /**
   * The held calibration is the vector of the last accepted calibration
   * sample, or the one held before the run if no sample was accepted.
   */
  lemma {:induction false} RunCalibration(env: Env, s: State, ts: seq<Tick>)
    ensures (forall i :: !AcceptedAt(ts, i)) ==> RunSpec(env, s, ts).calRpy == s.calRpy
    ensures forall i :: AcceptedAt(ts, i) && (forall j :: i < j ==> !AcceptedAt(ts, j)) ==>
      RunSpec(env, s, ts).calRpy == ts[i].liveCalibration.value.rpyCalib
    decreases |ts|
  {
    if ts != [] {
      var prefix, last := ts[..|ts| - 1], ts[|ts| - 1];
      var before := RunSpec(env, s, prefix);
      var after := RunSpec(env, s, ts);
      assert after == StepSpec(env, before, last);
      StepCalibration(env, before, last);
      if AcceptedAt(ts, |ts| - 1) {
        assert after.calRpy == last.liveCalibration.value.rpyCalib;
        forall i | AcceptedAt(ts, i) && (forall j :: i < j ==> !AcceptedAt(ts, j))
          ensures after.calRpy == ts[i].liveCalibration.value.rpyCalib
        {
          assert i == |ts| - 1;
        }
      } else {
        assert after.calRpy == before.calRpy;
        RunCalibration(env, s, prefix);
        forall i | 0 <= i < |prefix|
          ensures AcceptedAt(prefix, i) == AcceptedAt(ts, i)
        {
          assert prefix[i] == ts[i];
        }
        forall i | AcceptedAt(ts, i) && (forall j :: i < j ==> !AcceptedAt(ts, j))
          ensures after.calRpy == ts[i].liveCalibration.value.rpyCalib
        {
          assert AcceptedAt(prefix, i);
          assert forall j :: i < j ==> !AcceptedAt(prefix, j);
        }
        if forall i :: !AcceptedAt(ts, i) {
          assert forall i :: !AcceptedAt(prefix, i);
        }
      }
    }
  }

  /** From startup, the held calibration stays [0, 0, 0] until a sample is accepted. */
  lemma CalibrationBeforeFirstAccepted(env: Env, rhd: Option<bool>, handsEnabled: bool, ts: seq<Tick>)
    requires forall i :: !AcceptedAt(ts, i)
    ensures RunSpec(env, Init(rhd, handsEnabled), ts).calRpy == [0.0, 0.0, 0.0]
  {
    RunCalibration(env, Init(rhd, handsEnabled), ts);
  }

  /** Batch `i` of `ts` carries a car state sample. */
  predicate CarStateAt(ts: seq<Tick>, i: int)
  {
    0 <= i < |ts| && ts[i].carState.Some?
  }

  /**
   * The remembered cruise speed is that of the last car state sample, or the
   * one remembered before the run if none arrived.
   */
  lemma {:induction false} RunCruiseMemory(env: Env, s: State, ts: seq<Tick>)
    ensures (forall i :: !CarStateAt(ts, i)) ==>
      RunSpec(env, s, ts).vCruiseLast == s.vCruiseLast && RunSpec(env, s, ts).carState == s.carState
    ensures forall i :: CarStateAt(ts, i) && (forall j :: i < j ==> !CarStateAt(ts, j)) ==>
      && RunSpec(env, s, ts).vCruiseLast == ts[i].carState.value.cruiseSpeed
      && RunSpec(env, s, ts).carState == ts[i].carState.value
    decreases |ts|
  {
    if ts != [] {
      var prefix, last := ts[..|ts| - 1], ts[|ts| - 1];
      var before := RunSpec(env, s, prefix);
      assert RunSpec(env, s, ts) == StepSpec(env, before, last);
      var after := RunSpec(env, s, ts);
      StepCarState(env, before, last);
      if CarStateAt(ts, |ts| - 1) {
        forall i | CarStateAt(ts, i) && (forall j :: i < j ==> !CarStateAt(ts, j))
          ensures after.vCruiseLast == ts[i].carState.value.cruiseSpeed && after.carState == ts[i].carState.value
        {
          assert i == |ts| - 1;
        }
      } else {
        RunCruiseMemory(env, s, prefix);
        forall i | 0 <= i < |prefix|
          ensures CarStateAt(prefix, i) == CarStateAt(ts, i)
        {
          assert prefix[i] == ts[i];
        }
        forall i | CarStateAt(ts, i) && (forall j :: i < j ==> !CarStateAt(ts, j))
          ensures after.vCruiseLast == ts[i].carState.value.cruiseSpeed && after.carState == ts[i].carState.value
        {
          assert CarStateAt(prefix, i);
          assert forall j :: i < j ==> !CarStateAt(prefix, j);
        }
        if forall i :: !CarStateAt(ts, i) {
          assert forall i :: !CarStateAt(prefix, i);
        }
      }
    }
  }

  /**
   * Hands-on-wheel monitoring off: the hands-on-wheel tracker receives no
   * call, and every message published carries the state it had before.
   */
  lemma {:induction false} RunWithoutHandsMonitoring(env: Env, s: State, ts: seq<Tick>)
    requires !s.handsOnWheelMonitoringEnabled
    ensures var r := RunSpec(env, s, ts);
      && r.handsCalls == s.handsCalls
      && forall k :: |s.published| <= k < |r.published| ==>
           r.published[k].handsOnWheelState == env.hands(s.handsCalls).handsOnWheelState
    decreases |ts|
  {
    if ts != [] {
      var prefix, last := ts[..|ts| - 1], ts[|ts| - 1];
      var before := RunSpec(env, s, prefix);
      var after := RunSpec(env, s, ts);
      assert after == StepSpec(env, before, last);
      RunWithoutHandsMonitoring(env, s, prefix);
      StepKeeps(env, before, last);
      if last.driverState.Some? {
        StepMessage(env, before, last);
      }
      forall k | |s.published| <= k < |after.published|
        ensures after.published[k].handsOnWheelState == env.hands(s.handsCalls).handsOnWheelState
      {
        if k < |before.published| {
          assert after.published[k] == before.published[k];
        }
      }
    }
  }

  /**
   * Every message published carries the RHD fields set at startup, and none
   * is a preview.
   */
  lemma {:induction false} RunMessagesKeepStartupFields(env: Env, s: State, ts: seq<Tick>)
    ensures forall k :: |s.published| <= k < |RunSpec(env, s, ts).published| ==>
      && RunSpec(env, s, ts).published[k].isRHD == s.isRhdRegion
      && RunSpec(env, s, ts).published[k].rhdChecked == s.isRhdRegionChecked
      && !RunSpec(env, s, ts).published[k].isPreview
    decreases |ts|
  {
    if ts != [] {
      var prefix, last := ts[..|ts| - 1], ts[|ts| - 1];
      var before := RunSpec(env, s, prefix);
      var after := RunSpec(env, s, ts);
      assert after == StepSpec(env, before, last);
      RunMessagesKeepStartupFields(env, s, prefix);
      if last.driverState.Some? {
        StepMessage(env, before, last);
      }
      forall k | |s.published| <= k < |after.published|
        ensures && after.published[k].isRHD == s.isRhdRegion
                && after.published[k].rhdChecked == s.isRhdRegionChecked
                && !after.published[k].isPreview
      {
        if k < |before.published| {
          assert after.published[k] == before.published[k];
        }
      }
    }
  }

  /**
   * The driver tracker never recovers from a lockout by itself: once its
   * readings are locked out, they stay so whatever call it receives next.
   */
  ghost predicate LockoutSticks(env: Env)
  {
    forall h: seq<DriverCall>, c: DriverCall ::
      LockedOut(env, env.driver(h)) ==> LockedOut(env, env.driver(h + [c]))
  }

  lemma {:induction false} LockoutSticksAlong(env: Env, h: seq<DriverCall>, h': seq<DriverCall>)
    requires LockoutSticks(env)
    requires h <= h' && LockedOut(env, env.driver(h))
    ensures LockedOut(env, env.driver(h'))
    decreases |h'|
  {
    if h != h' {
      var shorter := h'[..|h'| - 1];
      assert h <= shorter;
      LockoutSticksAlong(env, h, shorter);
      assert h' == shorter + [h'[|h'| - 1]];
    }
  }

  /**
   * Once the lockout condition holds, every later message carries
   * tooDistracted, whatever the trackers report: for a tracker whose lockout
   * sticks, crossing a limit on one batch blocks engagement on every later
   * perception sample.
   */
  lemma {:induction false} RunLockoutPersists(env: Env, s: State, ts: seq<Tick>)
    requires LockoutSticks(env)
    requires LockedOut(env, env.driver(s.driverCalls))
    ensures var r := RunSpec(env, s, ts);
      && LockedOut(env, env.driver(r.driverCalls))
      && forall k :: |s.published| <= k < |r.published| ==> TooDistracted in r.published[k].events
    decreases |ts|
  {
    if ts != [] {
      var prefix, last := ts[..|ts| - 1], ts[|ts| - 1];
      var before := RunSpec(env, s, prefix);
      var after := RunSpec(env, s, ts);
      assert after == StepSpec(env, before, last);
      RunLockoutPersists(env, s, prefix);
      StepKeeps(env, before, last);
      LockoutSticksAlong(env, before.driverCalls, after.driverCalls);
      if last.driverState.Some? {
        StepLockout(env, before, last);
        var n := |after.driverCalls|;
        assert before.driverCalls <= after.driverCalls[..n - 1];
        LockoutSticksAlong(env, before.driverCalls, after.driverCalls[..n - 1]);
        assert TooDistracted in after.published[|before.published|].events;
      }
      forall k | |s.published| <= k < |after.published|
        ensures TooDistracted in after.published[k].events
      {
        if k < |before.published| {
          assert after.published[k] == before.published[k];
        }
      }
    }
  }

  /** A calibrated sample is taken; a later calibrating one, though well formed, is not. */
  lemma CalibrationScenario(env: Env, rhd: Option<bool>, handsEnabled: bool)
    ensures
      var calibrated := Tick(Some(LiveCalibration(Calibrated, [0.01, -0.02, 0.0])), None, None, None);
      var calibrating := Tick(Some(LiveCalibration(Calibrating, [1.0, 1.0, 1.0])), None, None, None);
      && RunSpec(env, Init(rhd, handsEnabled), [calibrated]).calRpy == [0.01, -0.02, 0.0]
      && RunSpec(env, Init(rhd, handsEnabled), [calibrated, calibrating]).calRpy == [0.01, -0.02, 0.0]
  {
    var calibrated := Tick(Some(LiveCalibration(Calibrated, [0.01, -0.02, 0.0])), None, None, None);
    var calibrating := Tick(Some(LiveCalibration(Calibrating, [1.0, 1.0, 1.0])), None, None, None);
    var s0 := Init(rhd, handsEnabled);
    assert [calibrated, calibrating][..1] == [calibrated];
    assert [calibrated][..0] == [];
    StepCalibration(env, s0, calibrated);
    StepCalibration(env, RunSpec(env, s0, [calibrated]), calibrating);
  }

  /**
   * A car state with one button event and a new cruise speed (20 after 0)
   * counts as interaction and resets both trackers; nothing is published.
   */
  lemma EngagementScenario(env: Env)
    ensures
      var car := CarState(0.0, true, 20.0, [ButtonEvent(0, true)], false, false);
      var s' := StepSpec(env, Init(None, true), Tick(None, Some(car), None, None));
      && s'.driverEngaged && s'.steeringWheelEngaged
      && s'.driverCalls == [UpdateCall({}, true, true, false)]
      && s'.handsCalls == [HandsUpdate({}, true, true, 0.0)]
      && s'.published == []
  {
  }
}
