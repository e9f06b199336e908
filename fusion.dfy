/**
 * The monitoring loop of selfdrive/monitoring/dmonitoringd.py as a function
 * on values: the loop's state, the effect of one batch of topic updates
 * (`StepSpec`, four branches in the source's order) and of a finite sequence
 * of batches (`RunSpec`). The class in dmonitoringd.dfy is proved to follow it.
 */
module Fusion {
  import opened Wrappers
  import opened Messages
  import opened Trackers

  /**
   * What the loop relies on but does not define: how the two trackers respond
   * to the calls they receive, and the two lockout limits MAX_TERMINAL_ALERTS
   * and MAX_TERMINAL_DURATION, which driver_monitor.py defines.
   */
  datatype Env = Env(
    driver: DriverBehaviour,
    hands: HandsBehaviour,
    maxTerminalAlerts: int,
    maxTerminalDuration: int)

  /** Everything the loop owns or has caused so far. */
  datatype State = State(
    // the subscriber's cache: the last sample of each topic
    liveCalibration: LiveCalibration,
    carState: CarState,
    model: ModelMeta,
    driverState: DriverState,
    // the loop's locals
    calRpy: seq<real>,
    vCruiseLast: real,
    driverEngaged: bool,
    steeringWheelEngaged: bool,
    handsOnWheelMonitoringEnabled: bool,
    // the driver tracker's RHD fields, and the calls each tracker has received
    isRhdRegion: bool,
    isRhdRegionChecked: bool,
    driverCalls: seq<DriverCall>,
    handsCalls: seq<HandsCall>,
    // every dMonitoringState message sent so far
    published: seq<DMonitoringState>)

  /** The defaults the loop writes into the cache before its first batch. */
  const DEFAULT_CALIBRATION: LiveCalibration := LiveCalibration(Invalid, [])
  const DEFAULT_CAR_STATE: CarState := CarState(0.0, false, 0.0, [], false, true)

  /** What holds before and after every batch. */
  predicate Invariant(s: State)
  {
    && |s.calRpy| == 3
    && s.driverEngaged == s.steeringWheelEngaged
    && s.vCruiseLast == s.carState.cruiseSpeed
  }

  /**
   * The state when the loop starts, given the decoded RHD override (if the
   * parameter was present) and the hands-on-wheel flag.
   */
  function Init(rhd: Option<bool>, handsEnabled: bool): (s: State)
    ensures s.calRpy == [0.0, 0.0, 0.0] && s.liveCalibration.calStatus == Invalid
    ensures s.carState == DEFAULT_CAR_STATE
    ensures s.vCruiseLast == 0.0 && !s.driverEngaged && !s.steeringWheelEngaged
    ensures s.isRhdRegionChecked <==> rhd.Some?
    ensures s.isRhdRegion <==> rhd == Some(true)
    ensures s.handsOnWheelMonitoringEnabled == handsEnabled
    ensures s.driverCalls == [] && s.handsCalls == [] && s.published == []
    ensures Invariant(s)
  {
    var (isRhd, checked) := match rhd case None => (false, false) case Some(b) => (b, true);
    State(DEFAULT_CALIBRATION, DEFAULT_CAR_STATE, ModelMeta([]), DriverState([]),
          [0.0, 0.0, 0.0], 0.0, false, false, handsEnabled,
          isRhd, checked, [], [], [])
  }

  /** The sample a cache slot holds after a batch: the new one if the topic was updated. */
  function Latest<T>(update: Option<T>, held: T): T
  {
    match update
    case Some(v) => v
    case None => held
  }

  /** `sm.update()`: every updated topic's slot takes the new sample; the others keep theirs. */
  function Refresh(s: State, t: Tick): (s': State)
    ensures t.liveCalibration.Some? ==> s'.liveCalibration == t.liveCalibration.value
    ensures t.carState.Some? ==> s'.carState == t.carState.value
    ensures t.model.Some? ==> s'.model == t.model.value
    ensures t.driverState.Some? ==> s'.driverState == t.driverState.value
    ensures t.liveCalibration.None? ==> s'.liveCalibration == s.liveCalibration
    ensures t.carState.None? ==> s'.carState == s.carState
    ensures t.model.None? ==> s'.model == s.model
    ensures t.driverState.None? ==> s'.driverState == s.driverState
    ensures s' == s.(liveCalibration := s'.liveCalibration, carState := s'.carState,
                     model := s'.model, driverState := s'.driverState)
  {
    s.(liveCalibration := Latest(t.liveCalibration, s.liveCalibration),
       carState := Latest(t.carState, s.carState),
       model := Latest(t.model, s.model),
       driverState := Latest(t.driverState, s.driverState))
  }

  /** A calibration sample the loop takes: status CALIBRATED and exactly three components. */
  predicate Accepts(c: LiveCalibration)
  {
    c.calStatus == Calibrated && |c.rpyCalib| == 3
  }

  /** The calibration branch: the held vector is replaced only by an accepted sample. */
  function Calibrate(s: State, updated: bool): (s': State)
    ensures updated && Accepts(s.liveCalibration) ==> s'.calRpy == s.liveCalibration.rpyCalib
    ensures s'.calRpy != s.calRpy ==> updated && Accepts(s.liveCalibration)
    ensures |s.calRpy| == 3 ==> |s'.calRpy| == 3
    ensures s' == s.(calRpy := s'.calRpy)
  {
    if !updated then s
    else if s.liveCalibration.calStatus != Calibrated then s
    else if |s.liveCalibration.rpyCalib| != 3 then s
    else s.(calRpy := s.liveCalibration.rpyCalib)
  }

  /**
   * The car-state branch: the interaction signal, the reset calls it triggers
   * on the trackers (hands-on-wheel only when that monitoring is on), and the
   * remembered cruise speed.
   */
  function Interact(s: State, updated: bool): (s': State)
    ensures !updated ==> s' == s
    ensures updated ==>
      var car := s.carState;
      && (s'.steeringWheelEngaged <==>
            |car.buttonEvents| > 0 || car.cruiseSpeed != s.vCruiseLast || car.steeringPressed)
      && s'.driverEngaged == s'.steeringWheelEngaged
      && s'.vCruiseLast == car.cruiseSpeed
      && s'.driverCalls == s.driverCalls +
           (if s'.driverEngaged then [UpdateCall({}, true, car.cruiseEnabled, car.standstill)] else [])
      && s'.handsCalls == s.handsCalls +
           (if s'.steeringWheelEngaged && s.handsOnWheelMonitoringEnabled
            then [HandsUpdate({}, true, car.cruiseEnabled, car.vEgo)] else [])
      && s' == s.(vCruiseLast := s'.vCruiseLast, driverEngaged := s'.driverEngaged,
                  steeringWheelEngaged := s'.steeringWheelEngaged,
                  driverCalls := s'.driverCalls, handsCalls := s'.handsCalls)
  {
    if !updated then s
    else
      var car := s.carState;
      var vCruise := car.cruiseSpeed;
      var steeringWheelEngaged := |car.buttonEvents| > 0 || vCruise != s.vCruiseLast || car.steeringPressed;
      var driverEngaged := steeringWheelEngaged;
      var driverCalls :=
        if driverEngaged then s.driverCalls + [UpdateCall({}, true, car.cruiseEnabled, car.standstill)]
        else s.driverCalls;
      var handsCalls :=
        if steeringWheelEngaged && s.handsOnWheelMonitoringEnabled
        then s.handsCalls + [HandsUpdate({}, true, car.cruiseEnabled, car.vEgo)]
        else s.handsCalls;
      s.(driverEngaged := driverEngaged, steeringWheelEngaged := steeringWheelEngaged,
         driverCalls := driverCalls, handsCalls := handsCalls, vCruiseLast := vCruise)
  }

  /** The model branch: the metadata is handed to the driver tracker's set_policy. */
  function ForwardPolicy(s: State, updated: bool): (s': State)
    ensures s'.driverCalls == s.driverCalls + (if updated then [SetPolicyCall(s.model)] else [])
    ensures s' == s.(driverCalls := s'.driverCalls)
  {
    if updated then s.(driverCalls := s.driverCalls + [SetPolicyCall(s.model)]) else s
  }

  /** The lockout condition, read from the driver tracker after get_pose. */
  predicate LockedOut(env: Env, d: DriverReadings)
  {
    d.terminalAlertCnt >= env.maxTerminalAlerts || d.terminalTime >= env.maxTerminalDuration
  }

  /** The events the loop itself puts in a fresh accumulator before the driver update. */
  function LockoutGate(env: Env, d: DriverReadings): (events: set<EventName>)
    ensures TooDistracted in events <==> LockedOut(env, d)
    ensures events <= {TooDistracted}
  {
    if LockedOut(env, d) then {TooDistracted} else {}
  }

  /** The dMonitoringState message assembled from the accumulator and the trackers' fields. */
  function Report(events: set<EventName>, d: DriverReadings, isRhd: bool, rhdChecked: bool,
                  hands: HandsReadings): (msg: DMonitoringState)
    ensures msg.events == events && !msg.isPreview
    ensures msg.isRHD == isRhd && msg.rhdChecked == rhdChecked
    ensures msg.handsOnWheelState == hands.handsOnWheelState
    ensures && msg.faceDetected == d.faceDetected && msg.isDistracted == d.driverDistracted
            && msg.awarenessStatus == d.awareness && msg.stepChange == d.stepChange
            && msg.awarenessActive == d.awarenessActive && msg.awarenessPassive == d.awarenessPassive
            && msg.isLowStd == d.lowStd && msg.hiStdCount == d.hiStds
    ensures && msg.posePitchOffset == d.pitchOffset && msg.posePitchValidCount == d.pitchValidCount
            && msg.poseYawOffset == d.yawOffset && msg.poseYawValidCount == d.yawValidCount
  {
    DMonitoringState(
      events, d.faceDetected, d.driverDistracted, d.awareness, isRhd, rhdChecked,
      d.pitchOffset, d.pitchValidCount, d.yawOffset, d.yawValidCount, d.stepChange,
      d.awarenessActive, d.awarenessPassive, d.lowStd, d.hiStds, false, hands.handsOnWheelState)
  }

  /**
   * The driverState branch: get_pose on the held calibration, the lockout gate,
   * the driver update and (if enabled) the hands-on-wheel update on one shared
   * accumulator, then one message carrying that accumulator. PerceiveContract
   * states what it does; PerceiveDriverCalls, PerceiveMessage and PerceiveFrame
   * are its parts.
   */
  function Perceive(env: Env, s: State, updated: bool): (s': State)
    ensures |s'.published| == |s.published| + (if updated then 1 else 0)
    ensures s'.published[..|s.published|] == s.published
    ensures s'.isRhdRegion == s.isRhdRegion && s'.isRhdRegionChecked == s.isRhdRegionChecked
  {
    if !updated then s
    else
      var car := s.carState;
      var afterPose := s.driverCalls + [GetPoseCall(s.driverState, s.calRpy, car.vEgo, car.cruiseEnabled)];
      var gated := LockoutGate(env, env.driver(afterPose));
      var driverCalls := afterPose + [UpdateCall(gated, s.driverEngaged, car.cruiseEnabled, car.standstill)];
      var withDriver := gated + env.driver(driverCalls).alerts;
      var handsCalls :=
        if s.handsOnWheelMonitoringEnabled
        then s.handsCalls + [HandsUpdate(withDriver, s.steeringWheelEngaged, car.cruiseEnabled, car.vEgo)]
        else s.handsCalls;
      var events :=
        if s.handsOnWheelMonitoringEnabled then withDriver + env.hands(handsCalls).alerts else withDriver;
      var msg := Report(events, env.driver(driverCalls), s.isRhdRegion, s.isRhdRegionChecked, env.hands(handsCalls));
      s.(driverCalls := driverCalls, handsCalls := handsCalls, published := s.published + [msg])
  }

  /**
   * The driver tracker's side of the driverState branch: get_pose on the held
   * calibration, then one update whose events are exactly the lockout gate
   * read after get_pose.
   */
  lemma PerceiveDriverCalls(env: Env, s: State)
    ensures var s' := Perceive(env, s, true);
      var car := s.carState;
      var pose := GetPoseCall(s.driverState, s.calRpy, car.vEgo, car.cruiseEnabled);
      var n := |s.driverCalls|;
      && |s'.driverCalls| == n + 2
      && s'.driverCalls[..n + 1] == s.driverCalls + [pose]
      && var update := s'.driverCalls[n + 1];
      && update.UpdateCall?
      && update == UpdateCall(update.events, s.driverEngaged, car.cruiseEnabled, car.standstill)
      && (TooDistracted in update.events <==> LockedOut(env, env.driver(s.driverCalls + [pose])))
      && update.events <= {TooDistracted}
  {
  }

  /**
   * The accumulator and the message of the driverState branch: the driver
   * update's events plus the driver tracker's alerts go to the hands-on-wheel
   * update (only when enabled), and the one message carries them with that
   * tracker's alerts, the RHD fields and isPreview false.
   */
  lemma PerceiveMessage(env: Env, s: State)
    ensures var s' := Perceive(env, s, true);
      var car := s.carState;
      var n := |s.driverCalls|;
      && |s'.driverCalls| == n + 2
      && s'.driverCalls[n + 1].UpdateCall?
      && var shared := s'.driverCalls[n + 1].events + env.driver(s'.driverCalls).alerts;
      && (s.handsOnWheelMonitoringEnabled ==>
            s'.handsCalls == s.handsCalls + [HandsUpdate(shared, s.steeringWheelEngaged, car.cruiseEnabled, car.vEgo)])
      && (!s.handsOnWheelMonitoringEnabled ==> s'.handsCalls == s.handsCalls)
      && |s'.published| == |s.published| + 1
      && var msg := s'.published[|s.published|];
      && msg.events == shared + (if s.handsOnWheelMonitoringEnabled then env.hands(s'.handsCalls).alerts else {})
      && !msg.isPreview
      && msg.isRHD == s.isRhdRegion && msg.rhdChecked == s.isRhdRegionChecked
      && msg.handsOnWheelState == env.hands(s'.handsCalls).handsOnWheelState
      && msg == Report(msg.events, env.driver(s'.driverCalls), s.isRhdRegion, s.isRhdRegionChecked,
                       env.hands(s'.handsCalls))
  {
  }

  /** What the driverState branch leaves alone, and what it only extends. */
  lemma PerceiveFrame(env: Env, s: State, updated: bool)
    ensures var s' := Perceive(env, s, updated);
      && (!updated ==> s' == s)
      && s.driverCalls <= s'.driverCalls && s.handsCalls <= s'.handsCalls
      && (!s.handsOnWheelMonitoringEnabled ==> s'.handsCalls == s.handsCalls)
      && |s'.published| == |s.published| + (if updated then 1 else 0)
      && s'.published[..|s.published|] == s.published
      && s' == s.(driverCalls := s'.driverCalls, handsCalls := s'.handsCalls, published := s'.published)
  {
  }

  /** What the driverState branch does, as a whole. */
  lemma PerceiveContract(env: Env, s: State, updated: bool)
    ensures var s' := Perceive(env, s, updated);
      && (!updated ==> s' == s)
      && (updated ==>
        var car := s.carState;
        var pose := GetPoseCall(s.driverState, s.calRpy, car.vEgo, car.cruiseEnabled);
        var n := |s.driverCalls|;
        && |s'.driverCalls| == n + 2
        && s'.driverCalls[..n + 1] == s.driverCalls + [pose]
        && var update := s'.driverCalls[n + 1];
        && update.UpdateCall?
        && update == UpdateCall(update.events, s.driverEngaged, car.cruiseEnabled, car.standstill)
        && (TooDistracted in update.events <==> LockedOut(env, env.driver(s.driverCalls + [pose])))
        && update.events <= {TooDistracted}
        && var shared := update.events + env.driver(s'.driverCalls).alerts;
        && (s.handsOnWheelMonitoringEnabled ==>
              s'.handsCalls == s.handsCalls + [HandsUpdate(shared, s.steeringWheelEngaged, car.cruiseEnabled, car.vEgo)])
        && (!s.handsOnWheelMonitoringEnabled ==> s'.handsCalls == s.handsCalls)
        && |s'.published| == |s.published| + 1
        && s'.published[..|s.published|] == s.published
        && var msg := s'.published[|s.published|];
        && msg.events == shared + (if s.handsOnWheelMonitoringEnabled then env.hands(s'.handsCalls).alerts else {})
        && !msg.isPreview
        && msg.isRHD == s.isRhdRegion && msg.rhdChecked == s.isRhdRegionChecked
        && msg.handsOnWheelState == env.hands(s'.handsCalls).handsOnWheelState
        && msg == Report(msg.events, env.driver(s'.driverCalls), s.isRhdRegion, s.isRhdRegionChecked,
                         env.hands(s'.handsCalls))
        && s' == s.(driverCalls := s'.driverCalls, handsCalls := s'.handsCalls, published := s'.published))
  {
    PerceiveFrame(env, s, updated);
    if updated {
      PerceiveDriverCalls(env, s);
      PerceiveMessage(env, s);
    }
  }

  /**
   * The three branches of an iteration that come before perception: the
   * cache refresh, calibration, interaction and the model metadata. They
   * publish nothing, leave the settings alone and only extend the calls.
   */
  function Prepare(s: State, t: Tick): (p: State)
    ensures p.published == s.published
    ensures p.isRhdRegion == s.isRhdRegion && p.isRhdRegionChecked == s.isRhdRegionChecked
    ensures p.handsOnWheelMonitoringEnabled == s.handsOnWheelMonitoringEnabled
    ensures s.driverCalls <= p.driverCalls && s.handsCalls <= p.handsCalls
    ensures !s.handsOnWheelMonitoringEnabled ==> p.handsCalls == s.handsCalls
  {
    var refreshed := Refresh(s, t);
    var calibrated := Calibrate(refreshed, t.liveCalibration.Some?);
    var interacted := Interact(calibrated, t.carState.Some?);
    assert calibrated.driverCalls <= interacted.driverCalls;
    ForwardPolicy(interacted, t.model.Some?)
  }

  /**
   * What the first three branches leave for perception: the batch's car
   * state and perception sample in the cache, the calibration vector just
   * decided, and the driver calls extended by the reset update and set_policy.
   */
  lemma PrepareCalls(s: State, t: Tick)
    ensures var p := Prepare(s, t);
      var car := if t.carState.Some? then t.carState.value else s.carState;
      && p.carState == car
      && (t.driverState.Some? ==> p.driverState == t.driverState.value)
      && p.calRpy == (if t.liveCalibration.Some? && Accepts(t.liveCalibration.value)
                      then t.liveCalibration.value.rpyCalib else s.calRpy)
      && p.driverCalls == s.driverCalls
           + (if t.carState.Some? && p.driverEngaged
              then [UpdateCall({}, true, car.cruiseEnabled, car.standstill)] else [])
           + (if t.model.Some? then [SetPolicyCall(t.model.value)] else [])
  {
    var refreshed := Refresh(s, t);
    var calibrated := Calibrate(refreshed, t.liveCalibration.Some?);
    var interacted := Interact(calibrated, t.carState.Some?);
    assert Prepare(s, t) == ForwardPolicy(interacted, t.model.Some?);
  }

  /** One iteration of the loop on one batch of updates. */
  function StepSpec(env: Env, s: State, t: Tick): (s': State)
    ensures |s'.published| == |s.published| + (if t.driverState.Some? then 1 else 0)
    ensures s'.published[..|s.published|] == s.published
  {
    PerceiveFrame(env, Prepare(s, t), t.driverState.Some?);
    Perceive(env, Prepare(s, t), t.driverState.Some?)
  }

  /** What a batch never changes, and what it only extends. */
  lemma StepKeeps(env: Env, s: State, t: Tick)
    ensures var s' := StepSpec(env, s, t);
      && s.driverCalls <= s'.driverCalls && s.handsCalls <= s'.handsCalls
      && s'.handsOnWheelMonitoringEnabled == s.handsOnWheelMonitoringEnabled
      && s'.isRhdRegion == s.isRhdRegion && s'.isRhdRegionChecked == s.isRhdRegionChecked
      && (!s.handsOnWheelMonitoringEnabled ==> s'.handsCalls == s.handsCalls)
  {
    var p := Prepare(s, t);
    PerceiveFrame(env, p, t.driverState.Some?);
  }

  /** Every batch preserves the loop invariant. */
  lemma StepInvariant(env: Env, s: State, t: Tick)
    requires Invariant(s)
    ensures Invariant(StepSpec(env, s, t))
  {
  }

  /** The calibration vector a batch leaves held. */
  lemma StepCalibration(env: Env, s: State, t: Tick)
    ensures StepSpec(env, s, t).calRpy ==
      if t.liveCalibration.Some? && Accepts(t.liveCalibration.value) then t.liveCalibration.value.rpyCalib
      else s.calRpy
  {
    var prepared := Prepare(s, t);
    PerceiveFrame(env, prepared, t.driverState.Some?);
  }

  /** The cached car state, the remembered cruise speed and the interaction signal after a batch. */
  lemma StepCarState(env: Env, s: State, t: Tick)
    ensures var s' := StepSpec(env, s, t);
      && (t.carState.None? ==>
            && s'.carState == s.carState && s'.vCruiseLast == s.vCruiseLast
            && s'.driverEngaged == s.driverEngaged && s'.steeringWheelEngaged == s.steeringWheelEngaged)
      && (t.carState.Some? ==>
            var car := t.carState.value;
            && s'.carState == car
            && s'.vCruiseLast == car.cruiseSpeed
            && (s'.driverEngaged <==>
                  |car.buttonEvents| > 0 || car.cruiseSpeed != s.vCruiseLast || car.steeringPressed))
  {
    var prepared := Prepare(s, t);
    PerceiveFrame(env, prepared, t.driverState.Some?);
  }

  /**
   * The calls a batch makes on the driver tracker, in order: the reset update
   * if the car state shows interaction, set_policy if the model topic was
   * updated, then get_pose and update if driverState was. get_pose sees the
   * calibration and car state of this same batch, and the update the
   * engagement this batch's car state produced.
   */
  lemma StepCallOrder(env: Env, s: State, t: Tick)
    ensures var s' := StepSpec(env, s, t);
      var car := if t.carState.Some? then t.carState.value else s.carState;
      var reset := if t.carState.Some? && s'.driverEngaged
                   then [UpdateCall({}, true, car.cruiseEnabled, car.standstill)] else [];
      var policy := if t.model.Some? then [SetPolicyCall(t.model.value)] else [];
      var calRpy := if t.liveCalibration.Some? && Accepts(t.liveCalibration.value)
                    then t.liveCalibration.value.rpyCalib else s.calRpy;
      var before := s.driverCalls + reset + policy;
      && (t.driverState.None? ==> s'.driverCalls == before)
      && (t.driverState.Some? ==>
            && |s'.driverCalls| == |before| + 2
            && s'.driverCalls[..|before| + 1] == before + [GetPoseCall(t.driverState.value, calRpy, car.vEgo, car.cruiseEnabled)]
            && s'.driverCalls[|before| + 1].UpdateCall?
            && s'.driverCalls[|before| + 1].engaged == s'.driverEngaged)
  {
    var p := Prepare(s, t);
    PrepareCalls(s, t);
    PerceiveFrame(env, p, t.driverState.Some?);
    if t.driverState.Some? {
      PerceiveDriverCalls(env, p);
    }
  }

  /**
   * The message a batch with a driverState sample publishes: the startup RHD
   * fields, never a preview, and the hands-on-wheel state the tracker has
   * after this batch.
   */
  lemma StepMessage(env: Env, s: State, t: Tick)
    requires t.driverState.Some?
    ensures var s' := StepSpec(env, s, t);
      var msg := s'.published[|s.published|];
      && msg.isRHD == s.isRhdRegion && msg.rhdChecked == s.isRhdRegionChecked
      && !msg.isPreview
      && msg.handsOnWheelState == env.hands(s'.handsCalls).handsOnWheelState
  {
    var prepared := Prepare(s, t);
    PerceiveFrame(env, prepared, true);
    PerceiveMessage(env, prepared);
  }

  /**
   * The lockout gate of a batch with a driverState sample: the last call the
   * driver tracker receives is an update whose events hold tooDistracted
   * exactly when the lockout held just before it (after get_pose), and the
   * published message carries those events.
   */
  lemma StepLockout(env: Env, s: State, t: Tick)
    requires t.driverState.Some?
    ensures var s' := StepSpec(env, s, t);
      var n := |s'.driverCalls|;
      && n >= |s.driverCalls| + 2
      && s'.driverCalls[..|s.driverCalls|] == s.driverCalls
      && s'.driverCalls[n - 1].UpdateCall?
      && (TooDistracted in s'.driverCalls[n - 1].events <==> LockedOut(env, env.driver(s'.driverCalls[..n - 1])))
      && s'.driverCalls[n - 1].events <= s'.published[|s.published|].events
  {
    var prepared := Prepare(s, t);
    PerceiveFrame(env, prepared, true);
    PerceiveDriverCalls(env, prepared);
    PerceiveMessage(env, prepared);
    var s' := Perceive(env, prepared, true);
    assert s.driverCalls <= prepared.driverCalls;
    assert s'.driverCalls[..|s'.driverCalls| - 1] == prepared.driverCalls + [s'.driverCalls[|prepared.driverCalls|]];
  }

  /** The number of batches in which driverState was updated. */
  function PerceptionTicks(ts: seq<Tick>): nat
    decreases |ts|
  {
    if ts == [] then 0
    else PerceptionTicks(ts[..|ts| - 1]) + (if ts[|ts| - 1].driverState.Some? then 1 else 0)
  }

  /** The loop run on a finite sequence of batches, in order. */
  function RunSpec(env: Env, s: State, ts: seq<Tick>): (s': State)
    ensures |s'.published| == |s.published| + PerceptionTicks(ts)
    ensures s'.published[..|s.published|] == s.published
    ensures s'.isRhdRegion == s.isRhdRegion && s'.isRhdRegionChecked == s.isRhdRegionChecked
    ensures s'.handsOnWheelMonitoringEnabled == s.handsOnWheelMonitoringEnabled
    decreases |ts|
  {
    if ts == [] then s
    else
      var before := RunSpec(env, s, ts[..|ts| - 1]);
      StepKeeps(env, before, ts[|ts| - 1]);
      StepSpec(env, before, ts[|ts| - 1])
  }
}
