/**
 * The messages the monitoring loop consumes and publishes, reduced to the
 * fields it reads or writes. Numeric fields it only copies or compares for
 * equality are `real`; messages it only forwards carry an opaque payload.
 */
module Messages {
  import opened Wrappers

  /** liveCalibration.calStatus. */
  datatype CalStatus = Uncalibrated | Calibrating | Calibrated | Invalid

  /** liveCalibration: a status and the roll/pitch/yaw vector (possibly of the wrong length). */
  datatype LiveCalibration = LiveCalibration(calStatus: CalStatus, rpyCalib: seq<real>)

  /** One entry of carState.buttonEvents; the loop only counts them. */
  datatype ButtonEvent = ButtonEvent(kind: nat, pressed: bool)

  /** The carState fields the loop reads. */
  datatype CarState = CarState(
    vEgo: real,
    cruiseEnabled: bool,
    cruiseSpeed: real,
    buttonEvents: seq<ButtonEvent>,
    steeringPressed: bool,
    standstill: bool)

  /** The model topic's metadata, forwarded unread to the driver tracker. */
  datatype ModelMeta = ModelMeta(payload: seq<real>)

  /** A driverState perception sample, forwarded unread to the driver tracker. */
  datatype DriverState = DriverState(payload: seq<real>)

  /** Car event names: the one the loop raises itself, and any other the trackers raise. */
  datatype EventName = TooDistracted | OtherEvent(code: nat)

  /** One batch from the subscriber: for each topic, the new sample if it was updated. */
  datatype Tick = Tick(
    liveCalibration: Option<LiveCalibration>,
    carState: Option<CarState>,
    model: Option<ModelMeta>,
    driverState: Option<DriverState>)

  /**
   * The published dMonitoringState message. The pose statistics and awareness
   * scores are copied from the driver tracker and not interpreted here.
   */
  datatype DMonitoringState = DMonitoringState(
    events: set<EventName>,
    faceDetected: bool,
    isDistracted: bool,
    awarenessStatus: real,
    isRHD: bool,
    rhdChecked: bool,
    posePitchOffset: real,
    posePitchValidCount: int,
    poseYawOffset: real,
    poseYawValidCount: int,
    stepChange: real,
    awarenessActive: real,
    awarenessPassive: real,
    isLowStd: bool,
    hiStdCount: int,
    isPreview: bool,
    handsOnWheelState: nat)
}
