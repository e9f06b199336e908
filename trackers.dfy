/**
 * The two trackers the loop drives, DriverStatus and HandsOnWheelStatus. Their
 * scoring is not part of this model: each tracker's state is the history of
 * the calls it has received, and what the loop can read back from it (counts,
 * flags, the events its update raises) is a fixed function of that history,
 * its `behaviour`. The loop's event accumulator, `Events`, is shared by
 * reference between the two trackers and the published message.
 */
module Trackers {
  import opened Messages

  /** A call the loop makes on DriverStatus, with its arguments. */
  datatype DriverCall =
    | GetPoseCall(sample: DriverState, calRpy: seq<real>, vEgo: real, cruiseEnabled: bool)
    | UpdateCall(events: set<EventName>, engaged: bool, cruiseEnabled: bool, standstill: bool)
    | SetPolicyCall(meta: ModelMeta)

  /**
   * What the loop reads from DriverStatus: the lockout counters, the events the
   * most recent update call adds to its accumulator, and the published fields.
   */
  datatype DriverReadings = DriverReadings(
    terminalAlertCnt: int,
    terminalTime: int,
    alerts: set<EventName>,
    faceDetected: bool,
    driverDistracted: bool,
    awareness: real,
    pitchOffset: real,
    pitchValidCount: int,
    yawOffset: real,
    yawValidCount: int,
    stepChange: real,
    awarenessActive: real,
    awarenessPassive: real,
    lowStd: bool,
    hiStds: int)

  /** A call the loop makes on HandsOnWheelStatus: update(events, engaged, cruiseEnabled, vEgo). */
  datatype HandsCall = HandsUpdate(events: set<EventName>, engaged: bool, cruiseEnabled: bool, vEgo: real)

  /** What the loop reads from HandsOnWheelStatus. */
  datatype HandsReadings = HandsReadings(alerts: set<EventName>, handsOnWheelState: nat)

  type DriverBehaviour = seq<DriverCall> -> DriverReadings

  type HandsBehaviour = seq<HandsCall> -> HandsReadings

  /** The event accumulator (`Events()` with `add`), as a set of names. */
  class Events {
    var names: set<EventName>

    constructor ()
      ensures names == {}
    {
      names := {};
    }

    method Add(name: EventName)
      modifies this
      ensures names == old(names) + {name}
    {
      names := names + {name};
    }
  }

  class DriverStatus {
    const behaviour: DriverBehaviour
    var calls: seq<DriverCall>
    var isRhdRegion: bool
    var isRhdRegionChecked: bool

    constructor (behaviour: DriverBehaviour)
      ensures this.behaviour == behaviour
      ensures calls == [] && !isRhdRegion && !isRhdRegionChecked
    {
      this.behaviour := behaviour;
      calls := [];
      isRhdRegion := false;
      isRhdRegionChecked := false;
    }

    function Readings(): DriverReadings
      reads this
    {
      behaviour(calls)
    }

    method GetPose(sample: DriverState, calRpy: seq<real>, vEgo: real, cruiseEnabled: bool)
      modifies this`calls
      ensures calls == old(calls) + [GetPoseCall(sample, calRpy, vEgo, cruiseEnabled)]
    {
      calls := calls + [GetPoseCall(sample, calRpy, vEgo, cruiseEnabled)];
    }

    /** update(events, engaged, cruiseEnabled, standstill): records the call and adds its alerts to `events`. */
    method Update(events: Events, engaged: bool, cruiseEnabled: bool, standstill: bool)
      modifies this`calls, events
      ensures calls == old(calls) + [UpdateCall(old(events.names), engaged, cruiseEnabled, standstill)]
      ensures events.names == old(events.names) + behaviour(calls).alerts
    {
      calls := calls + [UpdateCall(events.names, engaged, cruiseEnabled, standstill)];
      events.names := events.names + behaviour(calls).alerts;
    }

    method SetPolicy(meta: ModelMeta)
      modifies this`calls
      ensures calls == old(calls) + [SetPolicyCall(meta)]
    {
      calls := calls + [SetPolicyCall(meta)];
    }
  }

  class HandsOnWheelStatus {
    const behaviour: HandsBehaviour
    var calls: seq<HandsCall>

    constructor (behaviour: HandsBehaviour)
      ensures this.behaviour == behaviour && calls == []
    {
      this.behaviour := behaviour;
      calls := [];
    }

    function Readings(): HandsReadings
      reads this
    {
      behaviour(calls)
    }

    /** update(events, engaged, cruiseEnabled, vEgo): records the call and adds its alerts to `events`. */
    method Update(events: Events, engaged: bool, cruiseEnabled: bool, vEgo: real)
      modifies this, events
      ensures calls == old(calls) + [HandsUpdate(old(events.names), engaged, cruiseEnabled, vEgo)]
      ensures events.names == old(events.names) + behaviour(calls).alerts
    {
      calls := calls + [HandsUpdate(events.names, engaged, cruiseEnabled, vEgo)];
      events.names := events.names + behaviour(calls).alerts;
    }
  }
}
