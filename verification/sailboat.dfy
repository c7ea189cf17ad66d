/**
 * The Sailboat object: the tack session fields, updated in place by the
 * controller's operations, one cycle at a time.  Each method follows the
 * source's statements in order and is specified by the matching function of
 * TackPolicy on the session value.  The ground-station messages and the tack
 * counter of the metrics collaborator are kept as ghost state.
 */
module SailboatController {
  import opened Angles
  import opened Clock
  import opened SailTypes
  import opened TackPolicy

  class Sailboat {
    /** The configuration parameters; the controller never changes them. */
    const params: Params

    var currentlyTacking: bool
    var tackHeading: real
    var tackRequestMs: U32
    var autoTackStartMs: U32
    var tackClearMs: U32
    var tackAssist: bool
    var motorState: UseMotor

    /** Every message sent to the ground stations, oldest first. */
    ghost var notices: seq<Notice>
    /** The number of tacks reported to the metrics collaborator. */
    ghost var tackCount: nat

    /** The session fields as one value. */
    function State(): Session
      reads this
    {
      Session(currentlyTacking, tackHeading, tackRequestMs, autoTackStartMs,
              tackClearMs, tackAssist, motorState)
    }

    ghost predicate Valid()
      reads this
    {
      SessionOk(State())
    }

    /** A new controller: every session field starts at zero. */
    constructor (p: Params)
      ensures Valid()
      ensures params == p && State() == InitialSession
      ensures notices == [] && tackCount == 0
    {
      params := p;
      currentlyTacking := false;
      tackHeading := 0.0;
      tackRequestMs := 0;
      autoTackStartMs := 0;
      tackClearMs := 0;
      tackAssist := false;
      motorState := Never;
      notices := [];
      tackCount := 0;
    }

    /** clear_tack(): end the tack; the tack heading and the start time are kept. */
    method ClearTack(now: U32)
      modifies this
      ensures State() == Clear(old(State()), now)
      ensures !currentlyTacking && !tackAssist && tackRequestMs == 0 && tackClearMs == now
      ensures tackHeading == old(tackHeading) && autoTackStartMs == old(autoTackStartMs)
      ensures motorState == old(motorState)
      ensures notices == old(notices) && tackCount == old(tackCount)
      ensures old(Valid()) ==> Valid()
    {
      currentlyTacking := false;
      tackAssist := false;
      tackRequestMs := 0;
      tackClearMs := now;
    }

    /** handle_tack_request_acro(): tack onto the mirror image of the yaw about the true wind. */
    method HandleTackRequestAcro(w: WindReading, yaw: real, now: U32)
      requires Valid()
      modifies this
      ensures Valid()
      ensures State() == AcroRequest(params, old(State()), w, yaw, now)
      ensures notices == old(notices) && tackCount == old(tackCount)
    {
      if !TackEnabled(params, motorState, w) || currentlyTacking {
        return;
      }
      currentlyTacking := true;
      tackHeading := WrapTwoPI(yaw + 2.0 * WrapPI(w.trueDir - yaw));
      tackRequestMs := now;
    }

    /** get_tack_heading_rad(): the acro target heading; clears the tack once reached or timed out. */
    method GetTackHeading(yaw: real, now: U32) returns (heading: real)
      requires Valid()
      modifies this
      ensures Valid()
      ensures heading == old(tackHeading)
      ensures heading == AcroTackHeading(old(State()), yaw, now).heading
      ensures State() == AcroTackHeading(old(State()), yaw, now).session
      ensures notices == old(notices) && tackCount == old(tackCount)
    {
      if Abs(WrapPI(tackHeading - yaw)) < TackingAccuracyDeg
         || Elapsed(now, tackRequestMs) > AutoTackingTimeoutMs {
        ClearTack(now);
      }
      heading := tackHeading;
    }

    /** handle_tack_request_auto(): note the time of a user tack request for calc_heading. */
    method HandleTackRequestAuto(w: WindReading, now: U32)
      requires Valid()
      modifies this
      ensures Valid()
      ensures State() == AutoRequest(params, old(State()), w, now)
      ensures notices == old(notices) && tackCount == old(tackCount)
    {
      if !TackEnabled(params, motorState, w) || currentlyTacking {
        return;
      }
      tackRequestMs := now;
    }

    /** set_motor_state(): NEVER is always accepted, the others only with a motor to drive. */
    method SetMotorState(state: UseMotor, hw: MotorHardware, reportFailure: bool := true)
      requires Valid()
      modifies this
      ensures Valid()
      ensures motorState == SetMotorStateSpec(old(motorState), state, hw, reportFailure).0
      ensures notices == old(notices) + SetMotorStateSpec(old(motorState), state, hw, reportFailure).1
      ensures State() == old(State()).(motorState := motorState)
      ensures tackCount == old(tackCount)
    {
      if state == Never {
        motorState := state;
        return;
      }
      if hw.skidSteering || hw.throttleAssigned || hw.frameDefined {
        motorState := state;
      } else if reportFailure {
        notices := notices + [MotorEnableFailed];
      }
    }

    /**
     * calc_heading(): the heading to command this cycle.  A tack that starts is
     * reported by a TackingStarted message and one more on the tack counter.
     */
    method CalcHeading(c: Cycle) returns (heading: real)
      requires Valid()
      modifies this
      ensures Valid()
      ensures heading == CalcHeadingSpec(params, old(State()), c).heading
      ensures State() == CalcHeadingSpec(params, old(State()), c).session
      ensures notices == old(notices) + CalcHeadingSpec(params, old(State()), c).notices
      ensures tackCount == old(tackCount) +
                           (if TackingStarted in CalcHeadingSpec(params, old(State()), c).notices then 1 else 0)
    {
      if !TackEnabled(params, motorState, c.wind) {
        return c.desired;
      }
      var shouldTack := false;
      var currentTack := c.wind.currentTack;
      var trueWind := c.wind.trueDir;

      // a desired heading outside the no-go zone is kept unless reaching it is a tack
      if Abs(WrapPI(trueWind - c.desired)) > params.noGo && !currentlyTacking {
        var newAngle := WrapPI(trueWind - c.desired);
        var newTack := if newAngle < 0.0 then Port else Starboard;
        if newTack != currentTack {
          if Abs(c.wind.apparentDir) + Abs(newAngle) < HalfTurn {
            shouldTack := true;
          }
        }
        assert shouldTack == CrossesWind(c);
        if !shouldTack {
          return c.desired;
        }
      }
      assert shouldTack == OutsideNoGo(params, old(State()), c);
      heading := Steer(c, shouldTack);
    }

    /**
     * The rest of calc_heading: the triggers, the start of a tack, then the tack
     * heading while one is under way or else the no-go edge of the current tack.
     */
    method Steer(c: Cycle, boundary: bool) returns (heading: real)
      requires Valid()
      modifies this
      ensures Valid()
      ensures heading == SteerSpec(params, old(State()), c, boundary).heading
      ensures State() == SteerSpec(params, old(State()), c, boundary).session
      ensures notices == old(notices) + SteerSpec(params, old(State()), c, boundary).notices
      ensures tackCount == old(tackCount) +
                           (if TackingStarted in SteerSpec(params, old(State()), c, boundary).notices then 1 else 0)
    {
      var shouldTack := CheckTriggers(c, boundary);
      StartTack(c, shouldTack);
      if currentlyTacking {
        heading := ContinueTack(c.yaw, c.now);
        return;
      }

      // no tack under way: hold the no-go edge of the current tack
      if c.wind.currentTack == Port {
        return WrapTwoPI(c.wind.trueDir + params.noGo);
      } else {
        return WrapTwoPI(c.wind.trueDir - params.noGo);
      }
    }

    /** The user-request and corridor triggers of calc_heading. */
    method CheckTriggers(c: Cycle, boundary: bool) returns (shouldTack: bool)
      requires Valid()
      modifies this
      ensures Valid()
      ensures shouldTack == TriggerCheck(params, old(State()), c, boundary).0
      ensures State() == TriggerCheck(params, old(State()), c, boundary).1
      ensures notices == old(notices) && tackCount == old(tackCount)
    {
      shouldTack := boundary;
      var now := c.now;
      if tackRequestMs != 0 && !shouldTack && !currentlyTacking {
        shouldTack := Elapsed(now, tackRequestMs) < RequestWindowMs;
        tackRequestMs := 0;
      }
      // the corridor trigger turns the boat back towards the course line
      if Abs(c.xte) >= params.xtrackMax && params.xtrackMax != 0.0 && !shouldTack && !currentlyTacking {
        if c.xte > 0.0 && c.wind.currentTack == Starboard {
          shouldTack := true;
        }
        if c.xte < 0.0 && c.wind.currentTack == Port {
          shouldTack := true;
        }
      }
    }

    /** The start of a tack in calc_heading, onto the no-go edge of the other tack. */
    method StartTack(c: Cycle, shouldTack: bool)
      requires Valid()
      modifies this
      ensures Valid()
      ensures State() == TackStart(params, old(State()), c, shouldTack).0
      ensures notices == old(notices) + TackStart(params, old(State()), c, shouldTack).1
      ensures tackCount == old(tackCount) + |TackStart(params, old(State()), c, shouldTack).1|
    {
      var left := WrapTwoPI(c.wind.trueDir + params.noGo);
      var right := WrapTwoPI(c.wind.trueDir - params.noGo);
      if shouldTack && Elapsed(c.now, tackClearMs) > TackRetryTimeMs {
        notices := notices + [TackingStarted];
        tackCount := tackCount + 1;
        match c.wind.currentTack {
          case Port => tackHeading := right;
          case Starboard => tackHeading := left;
        }
        currentlyTacking := true;
        autoTackStartMs := c.now;
      }
    }

    /** The part of calc_heading that runs while a tack is under way. */
    method ContinueTack(yaw: real, now: U32) returns (heading: real)
      requires Valid() && currentlyTacking
      modifies this
      ensures Valid()
      ensures heading == TackProgress(old(State()), yaw, now, []).heading
      ensures State() == TackProgress(old(State()), yaw, now, []).session
      ensures notices == old(notices) + TackProgress(old(State()), yaw, now, []).notices
      ensures tackCount == old(tackCount)
    {
      if Abs(WrapPI(tackHeading - yaw)) <= TackingAccuracyDeg {
        ClearTack(now);
      } else if Elapsed(now, autoTackStartMs) > AutoTackingTimeoutMs {
        if motorState == Assist && Elapsed(now, autoTackStartMs) < AssistedTimeoutMs {
          // the motor helps for two more timeout periods
          tackAssist := true;
        } else {
          notices := notices + [TackingTimedOut];
          ClearTack(now);
        }
      }
      heading := tackHeading;
    }
  }
}
