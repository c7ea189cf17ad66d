/**
 * The tack decision policy as pure functions of the session value and the
 * readings of one cycle: whether tacking is enabled, whether the motor assists,
 * the no-go boundaries, the tack triggers, and the effect of each operation of
 * the Sailboat class on the session.  The class in sailboat.dfy performs these
 * operations in place and is specified by the functions here.
 */
module TackPolicy {
  import opened Angles
  import opened Clock
  import opened SailTypes

  /** A tack that has not completed after this many milliseconds has timed out. */
  const AutoTackingTimeoutMs: int := 5000
  /** A tack is complete when the yaw is this close to the tack heading, in degrees. */
  const TackingAccuracyDeg: real := 10.0
  /** The no-go zone is padded by this much when choosing the indirect route, in degrees. */
  const NoGoPadDeg: real := 10.0
  /** No new tack may start until this many milliseconds after the last one was cleared. */
  const TackRetryTimeMs: int := 5000
  /** A user tack request is honoured only within this many milliseconds. */
  const RequestWindowMs: int := 500
  /** With motor assistance a tack may run this long before it is abandoned. */
  const AssistedTimeoutMs: int := 3 * AutoTackingTimeoutMs

  // ---------------------------------------------------------------------------
  // Motor policy and enabling

  /** motor_assist_low_wind(): the motor assists because the wind is too light to sail. */
  function MotorAssistLowWind(p: Params, m: UseMotor, w: WindReading): (r: bool)
    ensures r <==> m == Assist && p.windSpeedMin > 0.0 && w.speedEnabled && w.trueSpeed < p.windSpeedMin
  {
    if m != Assist then false
    else p.windSpeedMin > 0.0 && w.speedEnabled && w.trueSpeed < p.windSpeedMin
  }

  /** tack_enabled(): the controller may tack at all. */
  function TackEnabled(p: Params, m: UseMotor, w: WindReading): (r: bool)
    ensures r <==>
      p.enable > 0 &&
      (m == Never || (m == Assist && !(p.windSpeedMin > 0.0 && w.speedEnabled && w.trueSpeed < p.windSpeedMin)))
  {
    if !p.SailEnabled() then false
    else if m == Always then false
    else if MotorAssistLowWind(p, m, w) then false
    else true
  }

  /** motor_assist_tack(): the motor helps a slow tack. */
  function MotorAssistTack(s: Session): (r: bool)
    ensures r ==> s.tackAssist
    ensures s.motorState != Assist ==> !r
    ensures s.motorState == Assist ==> r == s.tackAssist
  {
    if s.motorState != Assist then false else s.tackAssist
  }

  /** tacking(): a tack is under way and tacking is enabled. */
  function Tacking(p: Params, s: Session, w: WindReading): (r: bool)
    ensures r <==> s.currentlyTacking && TackEnabled(p, s.motorState, w)
  {
    TackEnabled(p, s.motorState, w) && s.currentlyTacking
  }

  /** The outcome of set_motor_state: the new motor state and the warning it may send. */
  function SetMotorStateSpec(m: UseMotor, requested: UseMotor, hw: MotorHardware, reportFailure: bool)
    : (r: (UseMotor, seq<Notice>))
    ensures requested == Never ==> r.0 == Never && r.1 == []
    ensures requested != Never && hw.HasMotor() ==> r.0 == requested
    ensures requested != Never && !hw.HasMotor() ==> r.0 == m
    ensures r.1 == [] || r.1 == [MotorEnableFailed]
    ensures r.1 == [MotorEnableFailed] <==> requested != Never && !hw.HasMotor() && reportFailure
  {
    if requested == Never then (requested, [])
    else if hw.HasMotor() then (requested, [])
    else if reportFailure then (m, [MotorEnableFailed])
    else (m, [])
  }

  // ---------------------------------------------------------------------------
  // Wind geometry

  /** The signed angle from the heading to the true wind, in (-180, 180]. */
  function WindAngle(trueWind: real, heading: real): (r: real)
  {
    WrapPI(trueWind - heading)
  }

  /** The heading at the left edge of the no-go zone, looking upwind. */
  function LeftNoGo(trueWind: real, noGo: real): (r: real)
    ensures 0.0 <= r < FullTurn
  {
    WrapTwoPI(trueWind + noGo)
  }

  /** The heading at the right edge of the no-go zone, looking upwind. */
  function RightNoGo(trueWind: real, noGo: real): (r: real)
    ensures 0.0 <= r < FullTurn
  {
    WrapTwoPI(trueWind - noGo)
  }

  /**
   * Looking upwind, the left no-go edge lies `noGo` degrees to port of the
   * wind and the right edge `noGo` degrees to starboard of it.
   */
  lemma NoGoEdgeAngles(trueWind: real, noGo: real)
    requires 0.0 <= noGo < HalfTurn
    ensures WindAngle(trueWind, LeftNoGo(trueWind, noGo)) == -noGo
    ensures WindAngle(trueWind, RightNoGo(trueWind, noGo)) == noGo
  {
    var l := LeftNoGo(trueWind, noGo);
    var i :| trueWind + noGo == l + Turns(i);
    assert trueWind - l == -noGo + Turns(i);
    WrapPIPeriodic(-noGo, i);
    WrapPIIdentity(-noGo);
    var r := RightNoGo(trueWind, noGo);
    var j :| trueWind - noGo == r + Turns(j);
    assert trueWind - r == noGo + Turns(j);
    WrapPIPeriodic(noGo, j);
    WrapPIIdentity(noGo);
  }

  /** The tack a heading would be on: port when the wind angle is negative, starboard otherwise. */
  function TackOf(windAngle: real): (r: Tack)
    ensures r == Port <==> windAngle < 0.0
  {
    if windAngle < 0.0 then Port else Starboard
  }

  /**
   * Turning onto the new heading takes the bow, not the stern, through the
   * wind: the apparent wind and the new wind angle together span less than a
   * half turn.
   */
  predicate IsTackNotGybe(apparentWind: real, windAngle: real)
    ensures IsTackNotGybe(apparentWind, windAngle) ==> Abs(apparentWind) < HalfTurn && Abs(windAngle) < HalfTurn
    ensures Abs(apparentWind) < HalfTurn / 2.0 && Abs(windAngle) < HalfTurn / 2.0 ==>
              IsTackNotGybe(apparentWind, windAngle)
  {
    Abs(apparentWind) + Abs(windAngle) < HalfTurn
  }

  /** The heading to hold on the current tack: the no-go edge on that side. */
  function BoundaryHeading(p: Params, w: WindReading): (r: real)
    ensures 0.0 <= r < FullTurn
  {
    if w.currentTack == Port then LeftNoGo(w.trueDir, p.noGo) else RightNoGo(w.trueDir, p.noGo)
  }

  /** The heading a new tack aims for: the no-go edge on the other side. */
  function TackTarget(p: Params, w: WindReading): (r: real)
    ensures 0.0 <= r < FullTurn
  {
    if w.currentTack == Port then RightNoGo(w.trueDir, p.noGo) else LeftNoGo(w.trueDir, p.noGo)
  }

  /**
   * The edge held on the current tack is on that tack, and the edge a new tack
   * aims for is on the other one; both are `noGo` degrees off the wind.
   */
  lemma EdgesOnTheirTacks(p: Params, w: WindReading)
    requires 0.0 < p.noGo < HalfTurn
    ensures TackOf(WindAngle(w.trueDir, BoundaryHeading(p, w))) == w.currentTack
    ensures TackOf(WindAngle(w.trueDir, TackTarget(p, w))) != w.currentTack
    ensures Abs(WindAngle(w.trueDir, BoundaryHeading(p, w))) == p.noGo
    ensures Abs(WindAngle(w.trueDir, TackTarget(p, w))) == p.noGo
  {
    NoGoEdgeAngles(w.trueDir, p.noGo);
  }

  /** use_indirect_route(): the sailboat heading controller, not the direct one, must steer. */
  function UseIndirectRoute(p: Params, s: Session, w: WindReading, desired: real): (r: bool)
    ensures !TackEnabled(p, s.motorState, w) ==> !r
    ensures TackEnabled(p, s.motorState, w) && s.currentlyTacking ==> r
    ensures TackEnabled(p, s.motorState, w) && !s.currentlyTacking ==>
              (r <==> -(p.noGo + NoGoPadDeg) <= WrapPI(w.trueDir - desired) <= p.noGo + NoGoPadDeg)
  {
    if !TackEnabled(p, s.motorState, w) then false
    else if s.currentlyTacking then true
    else Abs(WindAngle(w.trueDir, desired)) <= p.noGo + NoGoPadDeg
  }

  // ---------------------------------------------------------------------------
  // Tack triggers

  /** The desired heading is outside the no-go zone and no tack is under way. */
  predicate OutsideNoGo(p: Params, s: Session, c: Cycle)
    ensures OutsideNoGo(p, s, c) <==>
              !s.currentlyTacking &&
              (WindAngle(c.wind.trueDir, c.desired) < -p.noGo || WindAngle(c.wind.trueDir, c.desired) > p.noGo)
  {
    Abs(WindAngle(c.wind.trueDir, c.desired)) > p.noGo && !s.currentlyTacking
  }

  /** The desired heading is on the other tack and reaching it is a tack, not a gybe. */
  predicate CrossesWind(c: Cycle)
    ensures CrossesWind(c) ==>
              (WindAngle(c.wind.trueDir, c.desired) < 0.0 <==> c.wind.currentTack == Starboard)
    ensures CrossesWind(c) ==> Abs(c.wind.apparentDir) < HalfTurn
  {
    var angle := WindAngle(c.wind.trueDir, c.desired);
    TackOf(angle) != c.wind.currentTack && IsTackNotGybe(c.wind.apparentDir, angle)
  }

  /** The cross-track corridor is breached on the side the current tack is heading to. */
  predicate CorridorTrigger(xtrackMax: real, xte: real, tack: Tack)
    ensures CorridorTrigger(xtrackMax, xte, tack) ==> xtrackMax != 0.0 && Abs(xte) >= xtrackMax
    ensures CorridorTrigger(xtrackMax, xte, tack) ==> xte != 0.0 && (tack == Starboard <==> xte > 0.0)
  {
    Abs(xte) >= xtrackMax && xtrackMax != 0.0 &&
    ((xte > 0.0 && tack == Starboard) || (xte < 0.0 && tack == Port))
  }

  // ---------------------------------------------------------------------------
  // Operations on the session

  /** clear_tack(): end the tack at time `now`; the tack heading is kept. */
  function Clear(s: Session, now: U32): (r: Session)
  {
    s.(currentlyTacking := false, tackAssist := false, tackRequestMs := 0, tackClearMs := now)
  }

  /** handle_tack_request_acro(): start a tack onto the mirror image of the yaw about the wind. */
  function AcroRequest(p: Params, s: Session, w: WindReading, yaw: real, now: U32): (r: Session)
  {
    if !TackEnabled(p, s.motorState, w) || s.currentlyTacking then s
    else s.(currentlyTacking := true,
            tackHeading := WrapTwoPI(yaw + 2.0 * WrapPI(w.trueDir - yaw)),
            tackRequestMs := now)
  }

  /** get_tack_heading_rad(): the acro tack heading, clearing the tack once reached or after the timeout. */
  function AcroTackHeading(s: Session, yaw: real, now: U32): (o: Outcome)
  {
    if Abs(WrapPI(s.tackHeading - yaw)) < TackingAccuracyDeg
       || Elapsed(now, s.tackRequestMs) > AutoTackingTimeoutMs
    then Outcome(s.tackHeading, Clear(s, now), [])
    else Outcome(s.tackHeading, s, [])
  }

  /** handle_tack_request_auto(): record the time of a user tack request. */
  function AutoRequest(p: Params, s: Session, w: WindReading, now: U32): (r: Session)
  {
    if !TackEnabled(p, s.motorState, w) || s.currentlyTacking then s
    else s.(tackRequestMs := now)
  }

  /**
   * The part of calc_heading that runs while a tack is under way: hold the tack
   * heading, clear on arrival, let the motor assist a slow tack, give up on a
   * tack that takes too long.
   */
  function TackProgress(s: Session, yaw: real, now: U32, sent: seq<Notice>): (o: Outcome)
    ensures o.heading == s.tackHeading && o.session.tackHeading == s.tackHeading
    ensures o.session.motorState == s.motorState
  {
    if Abs(WrapPI(s.tackHeading - yaw)) <= TackingAccuracyDeg then
      Outcome(s.tackHeading, Clear(s, now), sent)
    else if Elapsed(now, s.autoTackStartMs) > AutoTackingTimeoutMs then
      if s.motorState == Assist && Elapsed(now, s.autoTackStartMs) < AssistedTimeoutMs then
        Outcome(s.tackHeading, s.(tackAssist := true), sent)
      else
        Outcome(s.tackHeading, Clear(s, now), sent + [TackingTimedOut])
    else
      Outcome(s.tackHeading, s, sent)
  }

  /**
   * The triggers calc_heading checks after the no-go test: a pending user
   * request (honoured only when recent, and reset whenever it is examined),
   * then the corridor.  `boundary` is the trigger already raised by the no-go
   * test.  The result is whether a tack is wanted and the session afterwards.
   */
  function TriggerCheck(p: Params, s: Session, c: Cycle, boundary: bool): (r: (bool, Session))
  {
    var examined := s.tackRequestMs != 0 && !boundary && !s.currentlyTacking;
    var requested := examined && Elapsed(c.now, s.tackRequestMs) < RequestWindowMs;
    var s1 := if examined then s.(tackRequestMs := 0) else s;
    var corridor := !boundary && !requested && !s.currentlyTacking &&
                    CorridorTrigger(p.xtrackMax, c.xte, c.wind.currentTack);
    (boundary || requested || corridor, s1)
  }

  /** A wanted tack starts only after the retry time since the last tack was cleared. */
  function TackStart(p: Params, s: Session, c: Cycle, shouldTack: bool): (r: (Session, seq<Notice>))
  {
    if shouldTack && Elapsed(c.now, s.tackClearMs) > TackRetryTimeMs then
      (s.(tackHeading := TackTarget(p, c.wind), currentlyTacking := true, autoTackStartMs := c.now),
       [TackingStarted])
    else (s, [])
  }

  /**
   * The part of calc_heading after the no-go test: the triggers, the start of a
   * tack, then the tack heading while one is under way or else the no-go edge
   * of the current tack.  `boundary` is the trigger raised by the no-go test.
   */
  function SteerSpec(p: Params, s: Session, c: Cycle, boundary: bool): (o: Outcome)
    ensures o.session.motorState == s.motorState
    ensures SessionOk(s) ==> SessionOk(o.session)
    ensures o.heading == o.session.tackHeading || o.heading == BoundaryHeading(p, c.wind)
    ensures o.notices == [] || o.notices == [TackingStarted] || o.notices == [TackingTimedOut] ||
            o.notices == [TackingStarted, TackingTimedOut]
  {
    var t := TriggerCheck(p, s, c, boundary);
    var started := TackStart(p, t.1, c, t.0);
    if started.0.currentlyTacking then TackProgress(started.0, c.yaw, c.now, started.1)
    else Outcome(BoundaryHeading(p, c.wind), started.0, started.1)
  }

  /**
   * calc_heading(): one control cycle of the tack state machine.  The triggers
   * are tried in the source's order (crossing onto the other tack, a recent user
   * request, a corridor breach); a trigger starts a tack only after the retry
   * time since the last tack was cleared.
   */
  function CalcHeadingSpec(p: Params, s: Session, c: Cycle): (o: Outcome)
    ensures o.session.motorState == s.motorState
    ensures SessionOk(s) ==> SessionOk(o.session)
    ensures o.heading == c.desired || o.heading == o.session.tackHeading ||
            o.heading == BoundaryHeading(p, c.wind)
  {
    if !TackEnabled(p, s.motorState, c.wind) then Outcome(c.desired, s, [])
    else if OutsideNoGo(p, s, c) && !CrossesWind(c) then Outcome(c.desired, s, [])
    else SteerSpec(p, s, c, OutsideNoGo(p, s, c))
  }
}
