/** The one way past the safety door: a run in which a cycle start is executed in the middle of
    a restore delay, and which at the next opened door leaves the door state unrestored. */
module DoorCounterexample {
  import opened DoorModel
  import opened DoorTheorems

  const QUIET := Pending(false, false, false, false, false)
  const START := QUIET.(cycleStart := true)
  const STOP := QUIET.(cycleStop := true)
  const HOLD := QUIET.(feedHold := true)
  const DOOR := QUIET.(safetyDoor := true)
  const AJAR := Sight(true, true, false, true, false)
  const SHUT := Sight(false, true, false, true, false)
  const LOOK := PollRt(Poll(true, false, false, false), SHUT)

  /** A milestone of the run: the spindle is the only accessory in use. */
  function At(state: State, suspend: Suspend, pending: Pending, spindleOn: bool, place: Place, log: seq<Mark>): System {
    System(state, suspend, pending, false, STOP_OVR_DISABLED, spindleOn, false, place, log)
  }

  const OFF := SUSPEND_DISABLE
  const PARKED := OFF.(holdComplete := true, retractComplete := true)

  /** The door opens at rest, everything is switched off, the door closes, and a cycle start
      initiates the restore. */
  const FIRST := [Opened, Retracted, ReadClosed, RestoreStarted]
  const AFTER_FIRST := At(SafetyDoor, PARKED.(initiateRestore := true), QUIET, false, LoopTop, FIRST)

  lemma FirstOpening()
    ensures RunsTo(PowerUp, [Command(DOOR), LOOK, Pass(AJAR), LOOK, Pass(SHUT), Command(START), LOOK], AFTER_FIRST)
  {
    var s2 := At(SafetyDoor, OFF.(holdComplete := true, doorAjar := true), QUIET, false, LoopTop, [Opened]);
    var s4 := At(SafetyDoor, PARKED.(doorAjar := true), QUIET, false, LoopTop, [Opened, Retracted]);
    Two(PowerUp, Command(DOOR), LOOK, s2);
    Two(s2, Pass(AJAR), LOOK, s4);
    ThirdStep(s4);
    Join(PowerUp, [Command(DOOR), LOOK], s2, [Pass(AJAR), LOOK], s4);
    Join(PowerUp, [Command(DOOR), LOOK] + [Pass(AJAR), LOOK], s4, [Pass(SHUT), Command(START), LOOK], AFTER_FIRST);
    assert [Command(DOOR), LOOK] + [Pass(AJAR), LOOK] + [Pass(SHUT), Command(START), LOOK] ==
           [Command(DOOR), LOOK, Pass(AJAR), LOOK, Pass(SHUT), Command(START), LOOK];
  }

  lemma ThirdStep(s: System)
    requires s == At(SafetyDoor, PARKED.(doorAjar := true), QUIET, false, LoopTop, [Opened, Retracted])
    ensures RunsTo(s, [Pass(SHUT), Command(START), LOOK], AFTER_FIRST)
  {
    var s1 := At(SafetyDoor, PARKED, QUIET, false, LoopEnd, [Opened, Retracted, ReadClosed]);
    assert Step(s, Pass(SHUT)) == s1;
    Two(s1, Command(START), LOOK, AFTER_FIRST);
    assert [Pass(SHUT), Command(START), LOOK][1..] == [Command(START), LOOK];
  }

  /** Two steps that lead from one milestone to the next. */
  lemma Two(s: System, e: Event, f: Event, s': System)
    requires Allowed(s, e) && Allowed(Step(s, e), f) && Step(Step(s, e), f) == s'
    ensures RunsTo(s, [e, f], s')
  {
    assert [e, f][1..] == [f] && [f][1..] == [];
    hide Step;
    assert RunsTo(Step(s, e), [f], s') by {
      assert RunsTo(s', [], s');
    }
  }

  lemma {:induction false} Join(s: System, es: seq<Event>, m: System, fs: seq<Event>, s': System)
    requires RunsTo(s, es, m) && RunsTo(m, fs, s')
    ensures RunsTo(s, es + fs, s')
    decreases |es|
  {
    hide Step;
    if es == [] {
      assert es + fs == fs;
    } else {
      assert (es + fs)[1..] == es[1..] + fs && (es + fs)[0] == es[0];
      Join(Step(s, es[0]), es[1..], m, fs, s');
    }
  }

  /** The restore is completed, but a feed hold arrives together with its cycle start. */
  const BLOCKED := At(SafetyDoor, PARKED.(initiateRestore := true, restoreComplete := true), QUIET, true, LoopTop,
                      FIRST + [ReadClosed, RestoreDone])

  lemma StartBlocked()
    ensures RunsTo(AFTER_FIRST, [Pass(SHUT), Elapsed(SHUT)] + [Command(HOLD), LOOK], BLOCKED)
  {
    var s := BLOCKED.(place := LoopEnd, pending := START);
    assert FIRST + [ReadClosed] + [RestoreDone] == FIRST + [ReadClosed, RestoreDone];
    Two(AFTER_FIRST, Pass(SHUT), Elapsed(SHUT), s);
    Two(s, Command(HOLD), LOOK, BLOCKED);
    Join(AFTER_FIRST, [Pass(SHUT), Elapsed(SHUT)], s, [Command(HOLD), LOOK], BLOCKED);
  }

  /** The restore is repeated; a cycle start during its delay resumes the cycle, and when the
      delay is over the restore is flagged as complete once more. */
  const RESUMED := BLOCKED.log + [ReadClosed, Resumed]
  const STRAY := At(Cycle, OFF.(restoreComplete := true), QUIET, true, LoopTop, RESUMED + [RestoreDone])

  lemma ResumedInDelay()
    ensures RunsTo(BLOCKED, [Pass(SHUT), Command(START)] + [LOOK, Elapsed(SHUT)],
                   STRAY.(place := LoopEnd, pending := START))
    ensures RunsTo(STRAY.(place := LoopEnd, pending := START), [LOOK, Pass(SHUT)], STRAY.(place := LoopEnd))
  {
    var s := BLOCKED.(place := SpindleDelay, pending := START, log := BLOCKED.log + [ReadClosed]);
    var t := STRAY.(place := LoopEnd, pending := START);
    assert BLOCKED.log + [ReadClosed] + [Resumed] == RESUMED;
    Two(BLOCKED, Pass(SHUT), Command(START), s);
    Two(s, LOOK, Elapsed(SHUT), t);
    Two(t, LOOK, Pass(SHUT), STRAY.(place := LoopEnd));
    Join(BLOCKED, [Pass(SHUT), Command(START)], s, [LOOK, Elapsed(SHUT)], t);
  }

  /** The door opens in the middle of the cycle, and closes again after everything is off. */
  const AGAIN := STRAY.log + [Opened, Retracted, ReadClosed]
  const LAST := At(SafetyDoor, PARKED.(restoreComplete := true), START, false, LoopEnd, AGAIN)

  lemma SecondOpening()
    ensures RunsTo(STRAY.(place := LoopEnd), [Command(DOOR), LOOK] + [Pass(AJAR), Command(STOP)] + [LOOK, Pass(AJAR)] +
                                             [LOOK, Pass(SHUT)] + [Command(START)], LAST)
  {
    var s0 := STRAY.(place := LoopEnd);
    var open := OFF.(restoreComplete := true, doorAjar := true);
    var s1 := At(SafetyDoor, open, QUIET, true, LoopTop, STRAY.log + [Opened]).(executeHold := true);
    var s2 := s1.(place := LoopEnd, pending := STOP);
    var s3 := At(SafetyDoor, open.(holdComplete := true, retractComplete := true), QUIET, false, LoopEnd,
                 STRAY.log + [Opened] + [Retracted]);
    var s4 := LAST.(pending := QUIET);
    assert STRAY.log + [Opened] + [Retracted] + [ReadClosed] == AGAIN;
    Two(s0, Command(DOOR), LOOK, s1);
    Two(s1, Pass(AJAR), Command(STOP), s2);
    Two(s2, LOOK, Pass(AJAR), s3);
    Two(s3, LOOK, Pass(SHUT), s4);
    assert RunsTo(s4, [Command(START)], LAST) by {
      assert [Command(START)][1..] == [] && Step(s4, Command(START)) == LAST;
    }
    hide RunsTo;
    Join(s0, [Command(DOOR), LOOK], s1, [Pass(AJAR), Command(STOP)], s2);
    Join(s0, [Command(DOOR), LOOK] + [Pass(AJAR), Command(STOP)], s2, [LOOK, Pass(AJAR)], s3);
    Join(s0, [Command(DOOR), LOOK] + [Pass(AJAR), Command(STOP)] + [LOOK, Pass(AJAR)], s3, [LOOK, Pass(SHUT)], s4);
    Join(s0, [Command(DOOR), LOOK] + [Pass(AJAR), Command(STOP)] + [LOOK, Pass(AJAR)] + [LOOK, Pass(SHUT)], s4,
         [Command(START)], LAST);
  }

  lemma UpToBlocked() returns (es: seq<Event>)
    ensures RunsTo(PowerUp, es, BLOCKED)
  {
    FirstOpening();
    StartBlocked();
    hide RunsTo, Step, At;
    es := [Command(DOOR), LOOK, Pass(AJAR), LOOK, Pass(SHUT), Command(START), LOOK];
    Join(PowerUp, es, AFTER_FIRST, [Pass(SHUT), Elapsed(SHUT)] + [Command(HOLD), LOOK], BLOCKED);
    es := es + ([Pass(SHUT), Elapsed(SHUT)] + [Command(HOLD), LOOK]);
  }

  lemma UpToStray() returns (es: seq<Event>)
    ensures RunsTo(PowerUp, es, STRAY.(place := LoopEnd))
  {
    es := UpToBlocked();
    ResumedInDelay();
    hide RunsTo, Step, At;
    var t := STRAY.(place := LoopEnd, pending := START);
    Join(PowerUp, es, BLOCKED, [Pass(SHUT), Command(START)] + [LOOK, Elapsed(SHUT)], t);
    es := es + ([Pass(SHUT), Command(START)] + [LOOK, Elapsed(SHUT)]);
    Join(PowerUp, es, t, [LOOK, Pass(SHUT)], STRAY.(place := LoopEnd));
    es := es + [LOOK, Pass(SHUT)];
  }

  /** THE PROMISE IS NOT KEPT on this run: the cycle is resumed from the door state with the
      spindle still off, and no restore has been made since the door was last opened. */
  lemma DoorLeftUnrestored() returns (es: seq<Event>)
    ensures RunsTo(PowerUp, es, LAST)
    ensures LAST.state == SafetyDoor && Step(LAST, LOOK).state == Cycle && !Step(LAST, LOOK).spindleOn
    ensures !exists off, closed, started, restored :: Secured(LAST.log, off, closed, started, restored)
  {
    es := UpToStray();
    SecondOpening();
    assert Step(LAST, LOOK).state == Cycle && !Step(LAST, LOOK).spindleOn;
    NotSecured();
    hide RunsTo, Step, At, Secured;
    var last := [Command(DOOR), LOOK] + [Pass(AJAR), Command(STOP)] + [LOOK, Pass(AJAR)] + [LOOK, Pass(SHUT)]
        + [Command(START)];
    Join(PowerUp, es, STRAY.(place := LoopEnd), last, LAST);
    es := es + last;
  }

  lemma NotSecured()
    ensures !exists off, closed, started, restored :: Secured(LAST.log, off, closed, started, restored)
  {
    var log, n := LAST.log, |LAST.log|;
    assert log[n - 3] == Opened && log[n - 2] == Retracted && log[n - 1] == ReadClosed;
    forall off, closed, started, restored ensures !Secured(log, off, closed, started, restored) {
      if Secured(log, off, closed, started, restored) {
        ClosedAfterOpened(log, n - 3, off, closed, started, restored);
      }
    }
  }

  lemma ClosedAfterOpened(log: seq<Mark>, i: int, off: int, closed: int, started: int, restored: int)
    requires Secured(log, off, closed, started, restored) && 0 <= i < |log| && log[i] == Opened
    ensures i < closed < started < restored < |log|
  {
  }
}
