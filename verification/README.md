# Sailboat tack controller — a Dafny model

This project models the tack decision core of the ArduPilot Rover `Sailboat`
class (`APMrover2/sailboat.cpp`, `APMrover2/sailboat.h`): the per-cycle state
machine that decides whether the boat must tack to make progress against the
wind's no-go zone, which heading to command while it does, when a tack is
complete or has timed out, when the motor assists, and the exact-arithmetic
skeleton of the deliberative tack planner that lays out a zig-zag of tack
points between two waypoints.

Layout:

- `angles.dfy` (`Angles`): angles in degrees as exact reals (a half turn is
  180); `WrapTwoPI` and `WrapPI` bring an angle into [0, 360) and (-180, 180]
  by whole turns, with uniqueness and periodicity lemmas.
- `clock.dfy` (`Clock`): `uint32_t` millisecond timestamps and the wrapping
  difference `now - t` modulo 2^32.
- `sail_types.dfy` (`SailTypes`): the configuration (`Params`), the seven
  session fields as one value (`Session`), the wind and navigation readings of
  a cycle (`WindReading`, `Cycle`), the motor modes (`UseMotor`), the ground
  station messages (`Notice`) and what a cycle produces (`Outcome`).
- `tack_policy.dfy` (`TackPolicy`): the pure policy (`tack_enabled`,
  `motor_assist_low_wind`, `motor_assist_tack`, `tacking`,
  `use_indirect_route`, the no-go edges, the triggers) and the effect of each
  state-changing operation on the session value.
- `sailboat.dfy` (`SailboatController.Sailboat`): the class with the seven
  fields `currentlyTacking`, `tackHeading`, `tackRequestMs`,
  `autoTackStartMs`, `tackClearMs`, `tackAssist`, `motorState`, updated in
  place by methods that follow the source statement by statement. Each method
  is proved against the matching function of `TackPolicy` and keeps the
  invariant `Valid()`: the tack heading is a wrapped heading in [0, 360), and
  the motor assists only a tack that is under way. The tack counter of the
  metrics collaborator (`tackCount`) and the messages sent to ground stations
  (`notices`) are ghost state.
- `tack_lemmas.dfy` (`TackLemmas`): what one cycle of `calc_heading` does in
  each situation, the acro tack, and properties of runs of cycles.
- `tack_planner.dfy` (`TackPlanner`): line A, the projection with its
  1e-10 guards, the rails L1 and L2, the waypoint loop and the conversion to
  geodetic locations.

Readings that the source takes from global vehicle state are parameters: the
true and apparent wind direction, the true wind speed and whether it is
measured, the current tack, the yaw, the cross-track error, the clock (`now`)
and which motor hardware exists (`MotorHardware`). Headings are in degrees
throughout; `calc_heading` takes and returns them in degrees where the source
uses centidegrees at its interface and radians inside.

Behaviour of the code worth knowing, which the model reproduces:

- A new tack needs strictly more than 5000 ms since the last tack was cleared
  (`> TACK_RETRY_TIME_MS`, `sailboat.cpp:626`); at exactly 5000 ms it is still
  blocked.
- An acro tack request starts the tack at once, setting the tack heading to the
  mirror image of the yaw about the true wind (`sailboat.cpp:489-492`); the
  autonomous request only records its time (`sailboat.cpp:513-514`).
- The acro completion test is strict (`< 10` degrees, `sailboat.cpp:498`), the
  autonomous one inclusive (`<= 10` degrees, `sailboat.cpp:647`).
- The motor-assisted extension of a slow tack depends only on the elapsed time
  (`< 15000` ms) in ASSIST mode (`sailboat.cpp:651`); nothing records that the
  assistance has been used up.
- A desired heading outside the no-go zone, with no tack under way, is passed
  through only when it is on the current tack or reaching it is a gybe
  (`sailboat.cpp:572-595`); otherwise a tack is triggered, and if the retry
  time blocks that tack the no-go edge of the current tack is commanded instead
  (`sailboat.cpp:663-668`).

## Model

| member | source | states |
|---|---|---|
| `Angles.WrapTwoPI` | APMrover2/sailboat.cpp:622-623 | the wrapped heading lies in [0, 360) and differs from the input by whole turns |
| `Angles.WrapPI` | APMrover2/sailboat.cpp:572-575 | the wrapped angle lies in (-180, 180] and differs from the input by whole turns |
| `Clock.Elapsed` | APMrover2/sailboat.cpp:602 | `now - t` on `uint32_t`: the plain difference when `now >= t`, the difference plus 2^32 otherwise, and adding it back to `t` modulo 2^32 gives `now` |
| `Clock.ElapsedAfter` | APMrover2/sailboat.cpp:649-651 | the elapsed time from `t` to the timestamp `k` ms later is `k`, across the 2^32 wrap, for every `k < 2^32` |
| `SailTypes.UseMotorCode` | APMrover2/sailboat.h:76-80 | each motor state has a code between 0 and 2 |
| `SailTypes.UseMotorFromCode` | APMrover2/sailboat.h:76-80 | a code names a motor state exactly when it is 0, 1 or 2 |
| `TackLemmas.UseMotorCodeRoundTrip` | APMrover2/sailboat.h:76-80 | NEVER, ASSIST and ALWAYS are 0, 1, 2 and decoding a code gives back the state that has it |
| `SailTypes.Params.SailEnabled` | APMrover2/sailboat.h:33 | `sail_enabled()` holds exactly when ENABLE is positive |
| `TackPolicy.MotorAssistLowWind` | APMrover2/sailboat.cpp:703-714 | the motor assists for low wind iff the mode is ASSIST, the minimum wind speed is positive, wind speed is measured and the true wind speed is below the minimum |
| `TackPolicy.TackEnabled` | APMrover2/sailboat.cpp:210-229 | tacking is enabled iff ENABLE > 0 and the motor is NEVER, or ASSIST without the low-wind condition; ALWAYS disables it |
| `TackPolicy.MotorAssistTack` | APMrover2/sailboat.cpp:691-700 | the motor helps a tack only in ASSIST mode and then exactly when `tack_assist` is set |
| `TackLemmas.MotorAssistsOnlyWhileTacking` | APMrover2/sailboat.cpp:691-700 | in any session that keeps the invariant, the motor helps a tack only while the tack is under way and the mode is ASSIST |
| `TackLemmas.AssistBranchEngagesMotor` | APMrover2/sailboat.cpp:649-653 | in ASSIST, a tack past 5000 ms but under 15000 ms that has not reached its heading goes on, and `motor_assist_tack()` then holds |
| `TackLemmas.ClearStopsMotor` | APMrover2/sailboat.cpp:518-524 | after `clear_tack` no tack is under way and `motor_assist_tack()` is false |
| `TackPolicy.Tacking` | APMrover2/sailboat.cpp:527-530 | `tacking()` holds iff a tack is under way and tacking is enabled |
| `TackPolicy.SetMotorStateSpec` | APMrover2/sailboat.cpp:672-688 | NEVER is always taken with no message; ASSIST/ALWAYS are taken iff skid steering, a throttle channel or a frame type exists, otherwise the old state stays and a warning is sent iff failures are reported |
| `TackPolicy.LeftNoGo` | APMrover2/sailboat.cpp:622 | the left no-go edge is a heading in [0, 360) |
| `TackPolicy.RightNoGo` | APMrover2/sailboat.cpp:623 | the right no-go edge is a heading in [0, 360) |
| `TackPolicy.NoGoEdgeAngles` | APMrover2/sailboat.cpp:621-623 | for a no-go angle from 0 up to (not including) 180 degrees, the left edge is exactly `noGo` to port of the wind (wind angle `-noGo`) and the right edge exactly `noGo` to starboard (wind angle `+noGo`) |
| `TackPolicy.TackOf` | APMrover2/sailboat.cpp:574-581 | a heading is on the port tack exactly when its wind angle is negative (`is_negative`); a wind angle of 0 counts as starboard |
| `TackPolicy.IsTackNotGybe` | APMrover2/sailboat.cpp:583-590 | the tack test holds only when both the apparent wind and the new wind angle are within a half turn, and always holds when both are within a quarter turn |
| `TackPolicy.CrossesWind` | APMrover2/sailboat.cpp:574-591 | when it holds, the desired heading is on the other tack (negative wind angle exactly when on starboard) and the apparent wind is within a half turn |
| `TackPolicy.CorridorTrigger` | APMrover2/sailboat.cpp:606-619 | when it holds, the corridor is enabled (`xtrack_max != 0`), the error reaches `xtrack_max`, and the boat is on starboard exactly when the error is positive |
| `TackPolicy.OutsideNoGo` | APMrover2/sailboat.cpp:572 | the test holds exactly when no tack is under way and the desired heading's wind angle lies beyond the no-go angle on either side |
| `TackLemmas.InsideConeUsesIndirectRoute` | APMrover2/sailboat.cpp:534-551 | a desired heading that fails the no-go test (inside the zone, or while tacking) is one for which `use_indirect_route` is true, so `calc_heading` is reached |
| `TackPolicy.BoundaryHeading` | APMrover2/sailboat.cpp:663-668 | the heading held on the current tack is a heading in [0, 360): the left edge on port, the right edge on starboard |
| `TackPolicy.TackTarget` | APMrover2/sailboat.cpp:631-639 | the heading a new tack aims for is a heading in [0, 360): the right edge from port, the left edge from starboard |
| `TackPolicy.EdgesOnTheirTacks` | APMrover2/sailboat.cpp:621-639 | for a no-go angle strictly between 0 and 180 degrees, the edge held on the current tack is on that tack, the tack target is on the other tack, and both are `noGo` degrees off the wind |
| `TackPolicy.UseIndirectRoute` | APMrover2/sailboat.cpp:534-551 | false when tacking is disabled, true while a tack is under way, otherwise true iff the wind angle of the desired heading is within the no-go angle plus 10 degrees on either side |
| `TackPolicy.TackProgress` | APMrover2/sailboat.cpp:645-661 | while tacking, the command is the tack heading, the tack heading is kept and the motor state is untouched |
| `TackPolicy.SteerSpec` | APMrover2/sailboat.cpp:598-668 | after the no-go test the motor state is kept, the session invariant holds, the command is the tack heading or the current no-go edge, and at most a "Tacking" and a "timed out" message are sent |
| `TackPolicy.CalcHeadingSpec` | APMrover2/sailboat.cpp:555-669 | one cycle never changes the motor state, keeps the session invariant, and commands the desired heading, the tack heading or the no-go edge of the current tack |
| `SailboatController.Sailboat.constructor` | APMrover2/sailboat.h:162-168 | a new controller has every session field zero: not tacking, motor NEVER, no messages, no tacks counted |
| `SailboatController.Sailboat.ClearTack` | APMrover2/sailboat.cpp:518-524 | clears `currentlyTacking` and `tackAssist`, sets the request time to 0 and the clear time to `now`; the tack heading, start time and motor state are kept |
| `SailboatController.Sailboat.HandleTackRequestAcro` | APMrover2/sailboat.cpp:483-493 | no change when tacking is disabled or a tack is under way; otherwise the tack starts at once onto `wrap_2PI(yaw + 2 wrap_PI(wind - yaw))` with the request time `now` |
| `SailboatController.Sailboat.GetTackHeading` | APMrover2/sailboat.cpp:496-504 | returns the stored tack heading in every case, and clears the tack iff the yaw is strictly within 10 degrees of it or more than 5000 ms passed since the request |
| `SailboatController.Sailboat.HandleTackRequestAuto` | APMrover2/sailboat.cpp:507-515 | only records the request time, and only when tacking is enabled and no tack is under way |
| `SailboatController.Sailboat.SetMotorState` | APMrover2/sailboat.cpp:672-688 | changes only the motor state, as `SetMotorStateSpec` says, and logs the warning it sends; failures are reported unless the caller says otherwise |
| `SailboatController.Sailboat.CalcHeading` | APMrover2/sailboat.cpp:555-669 | the commanded heading and new session are those of `CalcHeadingSpec`, the session invariant is kept, and the tack counter grows by one exactly when a "Tacking" message is sent |
| `SailboatController.Sailboat.Steer` | APMrover2/sailboat.cpp:598-668 | the commanded heading and new session are those of `SteerSpec`, the invariant is kept, and the tack counter grows by one exactly when a "Tacking" message is sent |
| `SailboatController.Sailboat.CheckTriggers` | APMrover2/sailboat.cpp:598-618 | the user-request and corridor triggers, with the request reset whenever it is examined |
| `SailboatController.Sailboat.StartTack` | APMrover2/sailboat.cpp:620-642 | a wanted tack starts only after the retry time, aiming at the no-go edge of the other tack, with one message and one count |
| `SailboatController.Sailboat.ContinueTack` | APMrover2/sailboat.cpp:644-661 | completion, motor assistance and timeout of a tack under way, with the timed-out message |
| `TackLemmas.TackingUsesIndirectRoute` | APMrover2/sailboat.cpp:527-551 | whenever `tacking()` holds, `use_indirect_route` is true for any desired heading |
| `TackLemmas.DisabledPassesThrough` | APMrover2/sailboat.cpp:557-559 | with tacking disabled the desired heading is returned, the session is unchanged and nothing is sent |
| `TackLemmas.OutsideNoGoKept` | APMrover2/sailboat.cpp:569-592 | outside the no-go zone with no tack under way, the desired heading is returned unchanged unless it is on the other tack and reaching it passes the bow through the wind |
| `TackLemmas.GybeIsNotATack` | APMrover2/sailboat.cpp:584-589 | apparent wind 30 degrees and a desired heading 170 degrees off the wind on the other tack is a gybe: no tack, heading passed through |
| `TackLemmas.CorridorSideRule` | APMrover2/sailboat.cpp:606-618 | on a corridor breach a positive error triggers only from starboard and a negative one only from port |
| `TackLemmas.InConeNoTrigger` | APMrover2/sailboat.cpp:598-668 | with no tack under way, the desired heading inside the no-go zone and no trigger, the no-go edge of the current tack is commanded, nothing is sent and only a pending request is reset |
| `TackLemmas.TackStartsExactly` | APMrover2/sailboat.cpp:569-642 | a tack starts iff tacking is enabled, none is under way, a trigger holds (the other-tack trigger outside the no-go zone; inside it a request younger than 500 ms or a corridor breach) and more than 5000 ms passed since the last clear; it then targets the other no-go edge and records the start time |
| `TackLemmas.BlockedTriggerHoldsBoundary` | APMrover2/sailboat.cpp:626-668 | a trigger within 5000 ms of the last clear starts nothing and the no-go edge of the current tack is commanded |
| `TackLemmas.PendingRequestConsumed` | APMrover2/sailboat.cpp:598-604 | an examined request is reset to 0 even when stale; a stale request with no corridor breach leaves the boat on its current no-go edge |
| `TackLemmas.WhileTacking` | APMrover2/sailboat.cpp:644-661 | while tacking the tack heading is commanded, also on the clearing cycle; within 10 degrees inclusive it clears; after 5000 ms it assists in ASSIST mode below 15000 ms, otherwise clears with a timed-out message |
| `TackLemmas.AssistedTackStillRunning` | APMrover2/sailboat.cpp:649-653 | in ASSIST mode a tack 14999 ms old is still under way, now with motor assistance |
| `TackLemmas.AssistedTackTimesOut` | APMrover2/sailboat.cpp:649-658 | in ASSIST mode a tack 15001 ms old is cleared with a timed-out message |
| `TackLemmas.AcroTackMirrorsYaw` | APMrover2/sailboat.cpp:483-493 | the acro tack heading makes the same angle with the true wind as the yaw did, on the other side, and only the three tack fields change |
| `TackLemmas.AccuracyBoundaryDiffers` | APMrover2/sailboat.cpp:498-647 | at exactly 10 degrees from the tack heading the acro tack is not complete but the autonomous tack is |
| `TackLemmas.AcroHeadingUnchanged` | APMrover2/sailboat.cpp:496-504 | the acro heading query returns the stored tack heading, either leaves the session alone or clears it, and keeps the invariant |
| `TackLemmas.HeadingHeldWhileTacking` | APMrover2/sailboat.cpp:644-661 | over any run of cycles in which the tack neither completes nor times out, every command is the tack heading, the tack stays under way and no message is sent |
| `TackLemmas.NoTackDuringRetryTime` | APMrover2/sailboat.cpp:626-642 | over any run of cycles within 5000 ms of the last clear no tack starts; each command is the desired heading or the current no-go edge |
| `TackLemmas.ClearingCycle` | APMrover2/sailboat.cpp:645-661 | a cycle in which a tack under way reaches its heading or runs out of time clears the tack and starts no other |
| `TackLemmas.RunFirstCycle` | APMrover2/sailboat.cpp:555-669 | a run of cycles continues from the session its first cycle leaves, and its messages are those of the first cycle followed by the rest |
| `TackLemmas.RetryTimeAfterClear` | APMrover2/sailboat.cpp:645-661 | a cycle that ends a tack at time `now` is followed by no new tack in any run of cycles within 5000 ms of `now` |
| `TackPlanner.Clamp` | APMrover2/sailboat.cpp:884-889 | a guarded value has magnitude at least 1e-10, and a value already that large is kept |
| `TackPlanner.NormalCrossesLine` | APMrover2/sailboat.cpp:891-894 | the normal slope `-1/m` never equals `m`, so the projection never divides by zero |
| `TackPlanner.Projection` | APMrover2/sailboat.cpp:880-898 | the result lies on the guarded line and is the foot of the perpendicular from the point |
| `TackPlanner.LineA` | APMrover2/sailboat.cpp:747-754 | line A passes through the origin, and through the destination unless the leg is within 1e-12 of vertical, when its slope is 1e8 |
| `TackPlanner.RailL1` | APMrover2/sailboat.cpp:812-813 | L1 has line A's slope and passes through the first tack point |
| `TackPlanner.RailL2` | APMrover2/sailboat.cpp:815-821 | L2 has line A's slope and, in both branches, intercept `2 A.y - L1.y`: the mirror image of L1 about A |
| `TackPlanner.RailsFor` | APMrover2/sailboat.cpp:805-833 | the rails share line A's slope, L1 passes through the first tack point and L2 mirrors L1, the first points `p0_L1` and `p0_L2` lie on the (guarded) rails L1 and L2, and the step is twice the projection of the first tack point onto line A |
| `TackPlanner.StepLeavesRails` | APMrover2/sailboat.cpp:805-829 | for a line through the origin (line A) whose slope is not itself guarded, the projection lands exactly 1e-10 above the line, so the step, twice the projection, leaves the rails' direction by exactly 2e-10 |
| `TackPlanner.RailPoint` | APMrover2/sailboat.cpp:836-853 | the z-th tack point lies z steps from the first point of its rail: L1 for even z, L2 for odd z |
| `TackPlanner.TackPointsOnRails` | APMrover2/sailboat.cpp:836-854 | with a step parallel to the rails, even tack points lie on L1 and odd ones on L2 |
| `TackPlanner.SameRailTwoStepsApart` | APMrover2/sailboat.cpp:836-854 | tack points two indices apart are on the same rail, two steps apart |
| `TackPlanner.TackPointsAlongRails` | APMrover2/sailboat.cpp:836-854 | the list is `t` then, for z = 1 .. n-1, `p0_L1 + z step` for even z and `p0_L2 + z step` for odd z |
| `TackPlanner.DeliberativeTackPointsNE` | APMrover2/sailboat.cpp:717-863 | the planar tack points are the first tack point followed by the rail points of the rails built for the leg |
| `TackPlanner.LocationsFromNE` | APMrover2/sailboat.cpp:900-917 | the result has two more entries than the input, the input points offset from the origin in order, then the destination twice |
| `TackPlanner.CalcTackPoints` | APMrover2/sailboat.cpp:919-921 | the geodetic tack list has `max(n, 1) + 2` entries: the first tack point, then for z = 1 .. n-1 the origin offset by rail point z of the leg's rails, then the destination twice |

## Left out

- Sail trim and throttle (`get_throttle_and_mainsail_out`), VMG (`get_VMG`),
  pilot mainsail input, `init_rc_in`, `init` and the parameter table: float PID
  outputs, trigonometry and RC/parameter I/O outside the tack decision core.
  `init` would call `set_motor_state(ASSIST, false)`; the model starts from the
  zero-initialised session instead.
- `Log.cpp` and the metrics accumulators: logging and float integrals; the tack
  counter is kept only as the ghost count `tackCount`.
- Message texts: only the kind of each ground-station message is recorded.
- Unit conversions (centidegrees, radians) and float rounding: all angles are
  exact reals in degrees, so a float `wrap_2PI` that rounds up to a full turn
  is not modelled. The uint32-to-float conversion in the 15000 ms test is exact
  for every elapsed time that can lie near the threshold, and is modelled as an
  integer comparison.
- The library's `is_negative`, `is_positive` and `is_zero` compare against the
  float epsilon; the model uses exact sign and zero tests.
- `get_loiter_radius`, `get_tack_type`, `get_waypoint_type`: the configuration
  is the immutable value `Sailboat.params`, and these getters are its field
  selectors `loitRadius`, `tackType` and `waypointType`.
- Planner numerics: the apparent-wind angle of attack, line B (`tan`), the
  circle-line quadratic and its `sqrt` roots, the choice of the root nearer the
  destination (`get_distance`, `norm`), and the `floor` of the distance ratio.
  The first tack point `t`, the destination's north/east offset and the number
  of spacings `nT` are parameters; an infinite or NaN `n_t` (a zero spacing) is
  not modelled.
- The geodetic library (`Location::offset`, `get_distance_NE`,
  `get_bearing_to`): `LocationsFromNE` takes the offset operation as a function
  parameter.
- `TackPlanner.TackPointsOnRails` holds when the step runs parallel to the
  rails. In the source, line A passes through the origin, so its intercept is 0
  and the projection guard raises it to 1e-10. The step then leaves the rails'
  direction by exactly 2e-10 per step (`TackPlanner.StepLeavesRails`), so tack
  point z sits about 2z·1e-10 m off its rail, a gap that grows with z. The
  model proves the exact statement only under the parallelism hypothesis.
- The constructor only loads parameter defaults; the session fields start at
  zero because the controller object has static storage. The model's
  constructor sets them to zero explicitly.
- The model reads the clock once per cycle: `now` is both the cycle's time and
  the clear time that `clear_tack` records. The source reads `AP_HAL::millis()`
  again inside `clear_tack` (`sailboat.cpp:523`) when it is called from
  `calc_heading` and `get_tack_heading_rad`, so there `tack_clear_ms` can be a
  few milliseconds later than the time the cycle tested against.
- `TackPolicy.EdgesOnTheirTacks` requires a no-go angle strictly between 0 and
  180 degrees. The parameter's documented range is 0 to 90, but at exactly 0
  both edges point straight into the wind. There the wind angle is 0, which
  counts as starboard, so the held edge on port is not on port.
