/**
 * Properties of the tack state machine: what one cycle of calc_heading does
 * in each situation, the acro tack, and what holds over a run of cycles
 * (the tack heading is held until the tack ends; no tack starts during the
 * retry time after a tack is cleared).
 */
module TackLemmas {
  import opened Angles
  import opened Clock
  import opened SailTypes
  import opened TackPolicy

  // ---------------------------------------------------------------------------
  // Motor states and enabling

  /** The three motor states have the codes 0, 1 and 2, and no other code names a state. */
  lemma UseMotorCodeRoundTrip(m: UseMotor, c: int)
    ensures UseMotorFromCode(UseMotorCode(m)) == Some(m)
    ensures UseMotorFromCode(c).Some? ==> UseMotorCode(UseMotorFromCode(c).value) == c
    ensures UseMotorCode(Never) == 0 && UseMotorCode(Assist) == 1 && UseMotorCode(Always) == 2
  {
  }

  /** The motor assists a tack only while the tack is under way, and only in ASSIST mode. */
  lemma MotorAssistsOnlyWhileTacking(s: Session)
    requires SessionOk(s)
    ensures MotorAssistTack(s) ==> s.currentlyTacking && s.motorState == Assist
  {
  }

  /**
   * In ASSIST mode, a tack that has run past the timeout but not yet three
   * timeouts, and has not reached its heading, engages the motor and goes on.
   */
  lemma AssistBranchEngagesMotor(p: Params, s: Session, c: Cycle)
    requires TackEnabled(p, s.motorState, c.wind) && s.currentlyTacking && s.motorState == Assist
    requires Abs(WrapPI(s.tackHeading - c.yaw)) > TackingAccuracyDeg
    requires AutoTackingTimeoutMs < Elapsed(c.now, s.autoTackStartMs) < AssistedTimeoutMs
    ensures MotorAssistTack(CalcHeadingSpec(p, s, c).session)
    ensures CalcHeadingSpec(p, s, c).session.currentlyTacking
  {
  }

  /** Clearing a tack stops the motor assistance. */
  lemma ClearStopsMotor(s: Session, now: U32)
    ensures !MotorAssistTack(Clear(s, now))
    ensures !Clear(s, now).currentlyTacking
  {
  }

  /**
   * A desired heading inside the no-go zone, with no tack under way, is one for
   * which use_indirect_route hands control to calc_heading.
   */
  lemma InsideConeUsesIndirectRoute(p: Params, s: Session, c: Cycle)
    requires TackEnabled(p, s.motorState, c.wind)
    requires !OutsideNoGo(p, s, c)
    ensures UseIndirectRoute(p, s, c.wind, c.desired)
  {
  }

  /** While tacking() holds, the caller is told to use the sailboat heading controller. */
  lemma TackingUsesIndirectRoute(p: Params, s: Session, w: WindReading, desired: real)
    requires Tacking(p, s, w)
    ensures UseIndirectRoute(p, s, w, desired)
  {
  }

  // ---------------------------------------------------------------------------
  // One cycle of calc_heading

  /** With tacking disabled the desired heading passes through and nothing changes. */
  lemma DisabledPassesThrough(p: Params, s: Session, c: Cycle)
    requires !TackEnabled(p, s.motorState, c.wind)
    ensures CalcHeadingSpec(p, s, c) == Outcome(c.desired, s, [])
  {
  }

  /**
   * A desired heading outside the no-go zone is kept, with no state change,
   * unless it lies on the other tack and reaching it is a tack rather than a gybe.
   */
  lemma OutsideNoGoKept(p: Params, s: Session, c: Cycle)
    requires TackEnabled(p, s.motorState, c.wind) && !s.currentlyTacking
    requires Abs(WrapPI(c.wind.trueDir - c.desired)) > p.noGo
    requires TackOf(WrapPI(c.wind.trueDir - c.desired)) == c.wind.currentTack ||
             Abs(c.wind.apparentDir) + Abs(WrapPI(c.wind.trueDir - c.desired)) >= HalfTurn
    ensures CalcHeadingSpec(p, s, c) == Outcome(c.desired, s, [])
  {
  }

  /**
   * Apparent wind 30 degrees and a desired heading 170 degrees off the true
   * wind on the other tack: the turn would take the stern through the wind
   * (30 + 170 >= 180), so it is a gybe and no tack is triggered.
   */
  lemma GybeIsNotATack(p: Params, s: Session, c: Cycle)
    requires TackEnabled(p, s.motorState, c.wind) && !s.currentlyTacking
    requires p.noGo < 170.0
    requires c.desired == 0.0 && c.wind.trueDir == 170.0 && c.wind.apparentDir == 30.0
    requires c.wind.currentTack == Port
    ensures CalcHeadingSpec(p, s, c) == Outcome(c.desired, s, [])
  {
    WrapPIIdentity(170.0);
  }

  /** A corridor breach turns the boat back: exactly one of the two tacks triggers. */
  lemma CorridorSideRule(xtrackMax: real, xte: real)
    requires xtrackMax != 0.0 && Abs(xte) >= xtrackMax && xte != 0.0
    ensures CorridorTrigger(xtrackMax, xte, Starboard) <==> xte > 0.0
    ensures CorridorTrigger(xtrackMax, xte, Port) <==> xte < 0.0
  {
  }

  /**
   * The reason for a tack, judged when no tack is under way: from outside the
   * no-go zone only a tack onto the desired heading; otherwise a user request
   * younger than 500 ms or a corridor breach.
   */
  predicate TackWanted(p: Params, s: Session, c: Cycle)
  {
    if Abs(WrapPI(c.wind.trueDir - c.desired)) > p.noGo then CrossesWind(c)
    else (s.tackRequestMs != 0 && Elapsed(c.now, s.tackRequestMs) < RequestWindowMs)
         || CorridorTrigger(p.xtrackMax, c.xte, c.wind.currentTack)
  }

  /**
   * The most common cycle: no tack under way, the desired heading inside the
   * no-go zone and nothing that wants a tack.  The no-go edge of the current
   * tack is commanded, nothing is sent, and a pending request is only reset.
   */
  lemma InConeNoTrigger(p: Params, s: Session, c: Cycle)
    requires TackEnabled(p, s.motorState, c.wind) && !s.currentlyTacking
    requires Abs(WrapPI(c.wind.trueDir - c.desired)) <= p.noGo
    requires !TackWanted(p, s, c)
    ensures var o := CalcHeadingSpec(p, s, c);
      o.heading == BoundaryHeading(p, c.wind) && o.notices == [] &&
      o.session == (if s.tackRequestMs != 0 then s.(tackRequestMs := 0) else s)
  {
  }

  /**
   * A tack starts exactly when tacking is enabled, no tack is under way, a
   * trigger holds and more than 5000 ms have passed since the last tack was
   * cleared.  It aims at the no-go edge of the other tack, records the start
   * time, and commands the new tack heading in the same cycle.
   */
  lemma TackStartsExactly(p: Params, s: Session, c: Cycle)
    ensures var o := CalcHeadingSpec(p, s, c);
      TackingStarted in o.notices <==>
        TackEnabled(p, s.motorState, c.wind) && !s.currentlyTacking && TackWanted(p, s, c) &&
        Elapsed(c.now, s.tackClearMs) > TackRetryTimeMs
    ensures var o := CalcHeadingSpec(p, s, c);
      TackingStarted in o.notices ==>
        o.heading == TackTarget(p, c.wind) && o.session.tackHeading == TackTarget(p, c.wind) &&
        o.session.autoTackStartMs == c.now
  {
    var o := CalcHeadingSpec(p, s, c);
    if TackEnabled(p, s.motorState, c.wind) && !(OutsideNoGo(p, s, c) && !CrossesWind(c)) {
      var t := TriggerCheck(p, s, c, OutsideNoGo(p, s, c));
      var started := TackStart(p, t.1, c, t.0);
      if started.0.currentlyTacking {
        assert o == TackProgress(started.0, c.yaw, c.now, started.1);
        assert TackingTimedOut != TackingStarted;
      }
    }
  }

  /**
   * A trigger that comes within the retry time falls through: no tack starts
   * and the no-go edge of the current tack is commanded, even when the
   * desired heading itself lies outside the no-go zone.
   */
  lemma BlockedTriggerHoldsBoundary(p: Params, s: Session, c: Cycle)
    requires TackEnabled(p, s.motorState, c.wind) && !s.currentlyTacking
    requires TackWanted(p, s, c)
    requires Elapsed(c.now, s.tackClearMs) <= TackRetryTimeMs
    ensures var o := CalcHeadingSpec(p, s, c);
      o.heading == BoundaryHeading(p, c.wind) && !o.session.currentlyTacking && o.notices == [] &&
      o.session.tackHeading == s.tackHeading && o.session.tackClearMs == s.tackClearMs
  {
  }

  /**
   * A pending user request is reset whenever calc_heading examines it, even
   * when it is too old to trigger; a stale request alone starts no tack.
   */
  lemma PendingRequestConsumed(p: Params, s: Session, c: Cycle)
    requires TackEnabled(p, s.motorState, c.wind) && !s.currentlyTacking
    requires Abs(WrapPI(c.wind.trueDir - c.desired)) <= p.noGo
    requires s.tackRequestMs != 0
    ensures CalcHeadingSpec(p, s, c).session.tackRequestMs == 0
    ensures Elapsed(c.now, s.tackRequestMs) >= RequestWindowMs &&
            !CorridorTrigger(p.xtrackMax, c.xte, c.wind.currentTack) ==>
              CalcHeadingSpec(p, s, c) == Outcome(BoundaryHeading(p, c.wind), s.(tackRequestMs := 0), [])
  {
  }

  /**
   * While a tack is under way its heading is commanded, also in the cycle
   * that ends it.  The tack ends when the yaw is within 10 degrees (inclusive)
   * of the tack heading; after 5000 ms the motor assists, in ASSIST mode,
   * until 15000 ms; otherwise the tack is cleared with a timed-out message.
   */
  lemma WhileTacking(p: Params, s: Session, c: Cycle)
    requires TackEnabled(p, s.motorState, c.wind) && s.currentlyTacking
    ensures var o := CalcHeadingSpec(p, s, c);
      o.heading == s.tackHeading && o.session.tackHeading == s.tackHeading
    ensures var o := CalcHeadingSpec(p, s, c);
      Abs(WrapPI(s.tackHeading - c.yaw)) <= TackingAccuracyDeg ==>
        o.session == Clear(s, c.now) && o.notices == []
    ensures var o := CalcHeadingSpec(p, s, c);
      var e := Elapsed(c.now, s.autoTackStartMs);
      Abs(WrapPI(s.tackHeading - c.yaw)) > TackingAccuracyDeg ==>
        (e <= AutoTackingTimeoutMs ==> o.session == s && o.notices == []) &&
        (e > AutoTackingTimeoutMs && s.motorState == Assist && e < AssistedTimeoutMs ==>
           o.session == s.(tackAssist := true) && o.notices == []) &&
        (e > AutoTackingTimeoutMs && !(s.motorState == Assist && e < AssistedTimeoutMs) ==>
           o.session == Clear(s, c.now) && o.notices == [TackingTimedOut])
  {
  }

  /** With the motor assisting, a tack 14999 ms old is still under way, with assistance. */
  lemma AssistedTackStillRunning(p: Params, s: Session, c: Cycle)
    requires TackEnabled(p, s.motorState, c.wind) && s.currentlyTacking && s.motorState == Assist
    requires Abs(WrapPI(s.tackHeading - c.yaw)) > TackingAccuracyDeg
    requires c.now == After(s.autoTackStartMs, 14999)
    ensures CalcHeadingSpec(p, s, c) == Outcome(s.tackHeading, s.(tackAssist := true), [])
  {
    ElapsedAfter(s.autoTackStartMs, 14999);
  }

  /** With the motor assisting, a tack 15001 ms old is cleared with a timed-out message. */
  lemma AssistedTackTimesOut(p: Params, s: Session, c: Cycle)
    requires TackEnabled(p, s.motorState, c.wind) && s.currentlyTacking && s.motorState == Assist
    requires Abs(WrapPI(s.tackHeading - c.yaw)) > TackingAccuracyDeg
    requires c.now == After(s.autoTackStartMs, 15001)
    ensures CalcHeadingSpec(p, s, c) == Outcome(s.tackHeading, Clear(s, c.now), [TackingTimedOut])
  {
    ElapsedAfter(s.autoTackStartMs, 15001);
  }

  // ---------------------------------------------------------------------------
  // Acro tacks

  /**
   * An acro tack aims at the mirror image of the yaw about the true wind:
   * the new heading is as far from the wind as the yaw was, on the other side.
   */
  lemma AcroTackMirrorsYaw(p: Params, s: Session, w: WindReading, yaw: real, now: U32)
    requires TackEnabled(p, s.motorState, w) && !s.currentlyTacking
    ensures var s' := AcroRequest(p, s, w, yaw, now);
      s'.currentlyTacking && s'.tackRequestMs == now &&
      WrapPI(s'.tackHeading - w.trueDir) == WrapPI(w.trueDir - yaw) &&
      s' == s.(currentlyTacking := true, tackHeading := s'.tackHeading, tackRequestMs := now)
  {
    var d := WrapPI(w.trueDir - yaw);
    var h := WrapTwoPI(yaw + 2.0 * d);
    var k1 :| yaw + 2.0 * d == h + Turns(k1);
    var k2 :| w.trueDir - yaw == d + Turns(k2);
    assert h - w.trueDir == d + Turns(-k1 - k2);
    WrapPIUnique(h - w.trueDir, d, -k1 - k2);
  }

  /**
   * At exactly 10 degrees from the tack heading an acro tack is not yet
   * complete (strict test) while an autonomous tack is (inclusive test).
   */
  lemma AccuracyBoundaryDiffers(p: Params, s: Session, c: Cycle)
    requires TackEnabled(p, s.motorState, c.wind) && s.currentlyTacking
    requires Abs(WrapPI(s.tackHeading - c.yaw)) == TackingAccuracyDeg
    requires Elapsed(c.now, s.tackRequestMs) <= AutoTackingTimeoutMs
    ensures AcroTackHeading(s, c.yaw, c.now) == Outcome(s.tackHeading, s, [])
    ensures CalcHeadingSpec(p, s, c) == Outcome(s.tackHeading, Clear(s, c.now), [])
  {
  }

  /** The acro tack heading is returned unchanged whether or not the tack is cleared. */
  lemma AcroHeadingUnchanged(s: Session, yaw: real, now: U32)
    ensures AcroTackHeading(s, yaw, now).heading == s.tackHeading
    ensures AcroTackHeading(s, yaw, now).session == s ||
            AcroTackHeading(s, yaw, now).session == Clear(s, now)
    ensures SessionOk(s) ==> SessionOk(AcroTackHeading(s, yaw, now).session)
  {
  }

  // ---------------------------------------------------------------------------
  // Runs of cycles

  /** The commanded headings, the final session and every message of calc_heading run over `cs`. */
  function Run(p: Params, s: Session, cs: seq<Cycle>): (r: (seq<real>, Session, seq<Notice>))
    ensures |r.0| == |cs|
    decreases |cs|
  {
    if cs == [] then ([], s, [])
    else
      var o := CalcHeadingSpec(p, s, cs[0]);
      var rest := Run(p, o.session, cs[1..]);
      ([o.heading] + rest.0, rest.1, o.notices + rest.2)
  }

  /** A tack under way that neither reaches its heading nor runs out of time. */
  predicate TackContinues(s: Session, c: Cycle)
  {
    var e := Elapsed(c.now, s.autoTackStartMs);
    Abs(WrapPI(s.tackHeading - c.yaw)) > TackingAccuracyDeg &&
    (e <= AutoTackingTimeoutMs || (s.motorState == Assist && e < AssistedTimeoutMs))
  }

  /**
   * Once a tack is under way, every cycle commands the same tack heading
   * until the yaw reaches it or the tack times out, whatever the desired
   * heading, and no message is sent.
   */
  lemma {:induction false} HeadingHeldWhileTacking(p: Params, s: Session, cs: seq<Cycle>)
    requires s.currentlyTacking
    requires forall i :: 0 <= i < |cs| ==> TackEnabled(p, s.motorState, cs[i].wind) && TackContinues(s, cs[i])
    ensures forall i :: 0 <= i < |cs| ==> Run(p, s, cs).0[i] == s.tackHeading
    ensures Run(p, s, cs).1.currentlyTacking && Run(p, s, cs).1.tackHeading == s.tackHeading
    ensures Run(p, s, cs).2 == []
    decreases |cs|
  {
    if cs != [] {
      var o := CalcHeadingSpec(p, s, cs[0]);
      var s' := o.session;
      assert o.heading == s.tackHeading && o.notices == [];
      assert s' == s || s' == s.(tackAssist := true);
      forall i | 0 <= i < |cs[1..]|
        ensures TackEnabled(p, s'.motorState, cs[1..][i].wind) && TackContinues(s', cs[1..][i])
      {
        assert cs[1..][i] == cs[i + 1];
      }
      HeadingHeldWhileTacking(p, s', cs[1..]);
      var r := Run(p, s, cs);
      forall i | 0 <= i < |cs| ensures r.0[i] == s.tackHeading {
        if i > 0 {
          assert r.0[i] == Run(p, s', cs[1..]).0[i - 1];
        }
      }
    }
  }

  /**
   * No tack starts while at most 5000 ms have passed since the last one was
   * cleared: every cycle commands the desired heading or the no-go edge of the
   * current tack, and the clear time and the tack heading are kept.
   */
  lemma {:induction false} NoTackDuringRetryTime(p: Params, s: Session, cs: seq<Cycle>)
    requires !s.currentlyTacking
    requires forall i :: 0 <= i < |cs| ==> Elapsed(cs[i].now, s.tackClearMs) <= TackRetryTimeMs
    ensures !Run(p, s, cs).1.currentlyTacking
    ensures Run(p, s, cs).1.tackClearMs == s.tackClearMs && Run(p, s, cs).1.tackHeading == s.tackHeading
    ensures TackingStarted !in Run(p, s, cs).2
    ensures forall i :: 0 <= i < |cs| ==>
              Run(p, s, cs).0[i] == cs[i].desired || Run(p, s, cs).0[i] == BoundaryHeading(p, cs[i].wind)
    decreases |cs|
  {
    if cs != [] {
      var o := CalcHeadingSpec(p, s, cs[0]);
      var s' := o.session;
      assert !s'.currentlyTacking && s'.tackClearMs == s.tackClearMs && s'.tackHeading == s.tackHeading;
      assert o.notices == [];
      assert o.heading == cs[0].desired || o.heading == BoundaryHeading(p, cs[0].wind);
      forall i | 0 <= i < |cs[1..]| ensures Elapsed(cs[1..][i].now, s'.tackClearMs) <= TackRetryTimeMs {
        assert cs[1..][i] == cs[i + 1];
      }
      NoTackDuringRetryTime(p, s', cs[1..]);
      var r := Run(p, s, cs);
      forall i | 0 <= i < |cs| ensures r.0[i] == cs[i].desired || r.0[i] == BoundaryHeading(p, cs[i].wind) {
        if i > 0 {
          assert r.0[i] == Run(p, s', cs[1..]).0[i - 1];
          assert cs[1..][i - 1] == cs[i];
        }
      }
    }
  }

  /** A cycle that ends a tack clears it and starts no other. */
  lemma ClearingCycle(p: Params, s: Session, c: Cycle)
    requires TackEnabled(p, s.motorState, c.wind) && s.currentlyTacking
    requires !TackContinues(s, c)
    ensures CalcHeadingSpec(p, s, c).session == Clear(s, c.now)
    ensures TackingStarted !in CalcHeadingSpec(p, s, c).notices
  {
    WhileTacking(p, s, c);
  }

  /** A run that starts with cycle `c` continues from the session that cycle leaves. */
  lemma RunFirstCycle(p: Params, s: Session, c: Cycle, cs: seq<Cycle>)
    ensures Run(p, s, [c] + cs).1 == Run(p, CalcHeadingSpec(p, s, c).session, cs).1
    ensures Run(p, s, [c] + cs).2 == CalcHeadingSpec(p, s, c).notices + Run(p, CalcHeadingSpec(p, s, c).session, cs).2
  {
    assert ([c] + cs)[1..] == cs;
  }

  /** A cycle that ends a tack at time `now` opens a retry time in which no tack starts. */
  lemma RetryTimeAfterClear(p: Params, s: Session, c: Cycle, cs: seq<Cycle>)
    requires TackEnabled(p, s.motorState, c.wind) && s.currentlyTacking
    requires !TackContinues(s, c)
    requires forall i :: 0 <= i < |cs| ==> Elapsed(cs[i].now, c.now) <= TackRetryTimeMs
    ensures !Run(p, s, [c] + cs).1.currentlyTacking
    ensures TackingStarted !in Run(p, s, [c] + cs).2
  {
    ClearingCycle(p, s, c);
    RunFirstCycle(p, s, c, cs);
    NoTackDuringRetryTime(p, Clear(s, c.now), cs);
  }
}
