/**
 * The values the tack controller works on: its configuration, its session
 * state, the wind and navigation readings of one control cycle, and what one
 * cycle produces.  Angles are in degrees, timestamps are uint32_t milliseconds.
 */
module SailTypes {
  import opened Clock

  datatype Option<T> = None | Some(value: T)

  /** The USE_MOTOR states of the motor: never used, used to assist, always on. */
  datatype UseMotor = Never | Assist | Always

  /** The numeric value of each motor state. */
  function UseMotorCode(m: UseMotor): (c: int)
    ensures 0 <= c <= 2
  {
    match m
    case Never => 0
    case Assist => 1
    case Always => 2
  }

  /** The motor state with a given numeric value, if there is one. */
  function UseMotorFromCode(c: int): (m: Option<UseMotor>)
    ensures m.Some? <==> 0 <= c <= 2
  {
    if c == 0 then Some(Never)
    else if c == 1 then Some(Assist)
    else if c == 2 then Some(Always)
    else None
  }

  /** The side of the boat the wind comes over, as the wind vane reports it. */
  datatype Tack = Port | Starboard

  /**
   * The configuration the controller reads: ENABLE, NO_GO_ANGLE (degrees),
   * WNDSPD_MIN, XTRACK_MAX, LOIT_RADIUS, TACK_TYPE and WAYP_TYPE.
   */
  datatype Params = Params(
    enable: int,
    noGo: real,
    windSpeedMin: real,
    xtrackMax: real,
    loitRadius: real,
    tackType: int,
    waypointType: int)
  {
    /** sail_enabled(): the boat is a sailboat. */
    predicate SailEnabled()
      ensures SailEnabled() <==> enable > 0
    {
      enable > 0
    }
  }

  /** The session fields that the controller updates in place. */
  datatype Session = Session(
    currentlyTacking: bool,
    tackHeading: real,
    tackRequestMs: U32,
    autoTackStartMs: U32,
    tackClearMs: U32,
    tackAssist: bool,
    motorState: UseMotor)

  /**
   * The session invariant kept by every operation: the tack heading is a
   * wrapped heading, and the motor only assists a tack that is under way.
   */
  predicate SessionOk(s: Session)
  {
    0.0 <= s.tackHeading < 360.0 && (s.tackAssist ==> s.currentlyTacking)
  }

  /** The state before the first cycle: every field zero, so the motor is NEVER used. */
  const InitialSession: Session := Session(false, 0.0, 0, 0, 0, false, Never)

  /** What the wind vane reports in one cycle. */
  datatype WindReading = WindReading(
    trueDir: real,
    apparentDir: real,
    speedEnabled: bool,
    trueSpeed: real,
    currentTack: Tack)

  /** The inputs of one call of calc_heading. */
  datatype Cycle = Cycle(
    desired: real,
    wind: WindReading,
    yaw: real,
    xte: real,
    now: U32)

  /** Which hardware can drive the boat forward. */
  datatype MotorHardware = MotorHardware(
    skidSteering: bool,
    throttleAssigned: bool,
    frameDefined: bool)
  {
    predicate HasMotor() { skidSteering || throttleAssigned || frameDefined }
  }

  /** The text messages the controller sends to ground stations. */
  datatype Notice = TackingStarted | TackingTimedOut | MotorEnableFailed

  /** The heading a cycle commands, the session after it, and the messages it sent. */
  datatype Outcome = Outcome(heading: real, session: Session, notices: seq<Notice>)
}
