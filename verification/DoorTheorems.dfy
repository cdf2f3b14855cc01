/** The safety door: on every run but those that resume in the middle of a restore, the door
    state is left in good order only; and a run of the other kind that is left in bad order. */
module DoorTheorems {
  import opened DoorModel

  /** How far the door procedure has come, going by the record alone. */
  datatype Stage =
    | Clear                     // the door is closed and nothing is going on
    | Open                      // opened, and spindle or coolant may be on
    | Parked(closed: bool)      // switched off, and the door read as closed since it was last opened, or not
    | Restoring
    | Restored
    | Broken                    // something has happened out of order

  /** The order in which things may happen. */
  function Next(stage: Stage, mark: Mark): Stage {
    match mark
    case Opened => if stage == Broken then Broken else if stage.Parked? then Parked(false) else Open
    case Retracted => if stage == Open then Parked(false) else Broken
    case ReadClosed =>
      if stage.Parked? then Parked(true) else if stage == Restoring || stage == Restored then stage else Broken
    case RestoreStarted => if stage == Parked(true) then Restoring else Broken
    case RestoreDone => if stage == Restoring || stage == Restored then Restored else Broken
    case Resumed => if stage == Restored then Clear else Broken
  }

  function StageOf(log: seq<Mark>): Stage {
    if log == [] then Clear else Next(StageOf(log[..|log| - 1]), log[|log| - 1])
  }

  lemma Appended(log: seq<Mark>, mark: Mark)
    ensures StageOf(log + [mark]) == Next(StageOf(log), mark)
  {
    assert (log + [mark])[..|log|] == log;
  }

  /** The flags agree with the record, whatever the main program is doing. */
  ghost predicate Agrees(s: System) {
    var f, stage := s.suspend, StageOf(s.log);
    if s.state == SafetyDoor then
      && !f.jogCancel
      && if f.retractComplete then
           && f.holdComplete && !f.restartRetract
           && if f.initiateRestore then !f.doorAjar && stage == (if f.restoreComplete then Restored else Restoring)
              else !f.restoreComplete && !s.spindleOn && !s.coolantOn
                   && stage.Parked? && (!f.doorAjar ==> stage.closed)
         else !f.initiateRestore && !f.restoreComplete && f.doorAjar && stage == Open
    else
      && !f.retractComplete && !f.initiateRestore && !f.restoreComplete && !f.restartRetract
      && (f.jogCancel ==> s.state == Jog) && (f.doorAjar ==> f.jogCancel)
      && stage == if f.doorAjar then Open else Clear
  }

  /** ... and the main program is in the suspend loop whenever it should be. */
  ghost predicate Orderly(s: System) {
    && Agrees(s)
    && (s.place == Main ==> s.suspend == SUSPEND_DISABLE)
    && (Delaying(s) ==> s.state == SafetyDoor && s.suspend.initiateRestore)
  }

  lemma EnterHoldKeeps(s: System)
    requires Agrees(s)
    ensures var s' := EnterHold(s); Agrees(s') && s'.place == s.place && (s.state == SafetyDoor ==> s' == s)
  {
    hide StageOf;
  }

  lemma CancelKeeps(s: System, p: Pending)
    requires Agrees(s)
    ensures var s' := CancelOrHold(s, p);
            && Agrees(s') && s'.place == s.place
            && (s.state == SafetyDoor ==>
                  s'.state == SafetyDoor && s'.suspend == s.suspend.(motionCancel := s'.suspend.motionCancel))
  {
    hide StageOf;
  }

  lemma DoorOpensKeeps(s: System)
    requires Agrees(s)
    ensures var s' := DoorOpens(s);
            && Agrees(s') && s'.place == s.place
            && (s.state == SafetyDoor ==> s'.state == SafetyDoor)
            && (s.state == SafetyDoor && s.suspend.initiateRestore ==>
                s'.suspend.restartRetract && !s'.suspend.initiateRestore)
  {
    Appended(s.log, Opened);
    hide StageOf;
  }

  /** In a restore, a hold section either leaves it alone or demands another retraction. */
  lemma HoldKeeps(s: System, p: Pending)
    requires Agrees(s)
    ensures var s' := HoldSection(s, p); Agrees(s') && s'.place == s.place
    ensures var s' := HoldSection(s, p); s.state == SafetyDoor ==> s'.state == SafetyDoor
    ensures var s' := HoldSection(s, p);
            s.state == SafetyDoor && s.suspend.initiateRestore ==>
              s'.suspend.initiateRestore != s'.suspend.restartRetract
  {
    EnterHoldKeeps(s);
    var s1 := EnterHold(s);
    CancelKeeps(s1, p);
    var s2 := CancelOrHold(s1, p);
    DoorOpensKeeps(s2);
    hide StageOf, EnterHold, CancelOrHold, DoorOpens;
  }

  /** The cycle start finds a closed door and everything restored. */
  predicate Resumes(s: System, p: Pending) {
    && p.cycleStart && !p.feedHold && !p.motionCancel && !p.safetyDoor
    && s.state == SafetyDoor && !s.suspend.doorAjar && s.suspend.restoreComplete
  }

  /** As `Agrees`, when the door state has just been left for IDLE and the flags still stand. */
  ghost predicate JustLeft(s: System) {
    s.state == Idle && !s.suspend.jogCancel && !s.suspend.doorAjar && StageOf(s.log) == Clear
  }

  lemma DoorStartKeeps(s: System)
    requires Agrees(s)
    ensures var s' := DoorStart(s);
            && s'.place == s.place && s'.pending == s.pending
            && (if s.state == SafetyDoor && !s.suspend.doorAjar && s.suspend.restoreComplete then JustLeft(s')
                else Agrees(s') && s'.state == s.state && s'.suspend.restartRetract == s.suspend.restartRetract
                     && (s.suspend.initiateRestore ==> s'.suspend.initiateRestore))
  {
    Appended(s.log, Resumed);
    Appended(s.log, RestoreStarted);
    hide StageOf;
  }

  lemma CycleStartKeeps(s: System, haveBlock: bool)
    requires Agrees(s) || JustLeft(s)
    ensures var s' := CycleStart(s, haveBlock);
            && Agrees(s') && s'.place == s.place && s'.pending == s.pending
            && (s.state == SafetyDoor ==> s' == s)
            && (JustLeft(s) ==> s'.state != SafetyDoor && !s'.suspend.doorAjar && !s'.suspend.restartRetract)
            && (s'.suspend.restartRetract ==> s.suspend.restartRetract && s'.state == SafetyDoor)
  {
    hide StageOf;
  }

  lemma StartKeeps(s: System, p: Pending, haveBlock: bool)
    requires Agrees(s)
    ensures var s' := StartSection(s, p, haveBlock); Agrees(s') && s'.place == s.place
    ensures var s' := StartSection(s, p, haveBlock); s.state == SafetyDoor ==>
            (s'.state != SafetyDoor <==> Resumes(s, p))
    ensures var s' := StartSection(s, p, haveBlock);
            s.state == SafetyDoor && Resumes(s, p) ==> !s'.suspend.doorAjar && !s'.suspend.restartRetract
    ensures var s' := StartSection(s, p, haveBlock);
            s.state == SafetyDoor && !Resumes(s, p) ==>
              && s'.suspend.restartRetract == s.suspend.restartRetract
              && (s.suspend.initiateRestore ==> s'.suspend.initiateRestore)
    ensures s.state != SafetyDoor && !s.suspend.doorAjar ==> StartSection(s, p, haveBlock).state != SafetyDoor
  {
    DoorStartKeeps(s);
    CycleStartKeeps(DoorStart(s), haveBlock);
    CycleStartLeaves(s, haveBlock);
    hide StageOf, Agrees, JustLeft, CycleStart;
  }

  lemma CycleStartLeaves(s: System, haveBlock: bool)
    ensures s.state != SafetyDoor ==> CycleStart(DoorStart(s), haveBlock).state != SafetyDoor
  {
  }

  lemma StopKeeps(s: System, p: Pending)
    requires Agrees(s)
    ensures var s' := StopSection(s, p);
            && Agrees(s') && s'.place == s.place
            && (s.state == SafetyDoor ==>
                  s'.state == SafetyDoor && s'.suspend.initiateRestore == s.suspend.initiateRestore)
            && s'.suspend.restartRetract == s.suspend.restartRetract
            && (s.state != SafetyDoor && !s.suspend.doorAjar ==> s'.state != SafetyDoor)
  {
    hide StageOf;
  }

  lemma AccessoryKeeps(s: System, poll: Poll)
    requires Agrees(s)
    ensures var s' := AccessorySection(s, poll);
            && Agrees(s') && s'.place == s.place && s'.state == s.state && s'.suspend == s.suspend
  {
    hide StageOf;
  }

  /** A poll in the middle of a restore delay that resumes the cycle. */
  predicate ResumesInDelay(s: System, e: Event) {
    e.PollRt? && Delaying(s) && Resumes(s, s.pending)
  }

  /** One poll: whatever is pending, flags and record go on agreeing; the door state is left
      exactly if the poll resumes; and a restore goes on unless the door has been opened. */
  lemma PollKeeps(s: System, poll: Poll)
    requires Agrees(s)
    ensures var s' := ExecRtSystem(s, poll); Agrees(s') && s'.place == s.place
    ensures var s' := ExecRtSystem(s, poll);
            s.state == SafetyDoor && s.suspend.initiateRestore && !Resumes(s, s.pending) ==>
              s'.state == SafetyDoor && (s'.suspend.restartRetract || s'.suspend.initiateRestore)
    ensures s.state == SafetyDoor ==> (ExecRtSystem(s, poll).state != SafetyDoor <==> Resumes(s, s.pending))
    ensures s.suspend.initiateRestore && Resumes(s, s.pending) ==> !ExecRtSystem(s, poll).suspend.restartRetract
  {
    var p := s.pending;
    HoldKeeps(s, p);
    var s1 := HoldSection(s, p);
    StartKeeps(s1, p, poll.haveBlock);
    var s2 := StartSection(s1, p, poll.haveBlock);
    StopKeeps(s2, p);
    var s3 := StopSection(s2, p);
    AccessoryKeeps(s3, poll);
    HoldLeavesAlone(s, p);
    hide StageOf, HoldSection, StartSection, StopSection, AccessorySection;
  }

  lemma HoldLeavesAlone(s: System, p: Pending)
    ensures !p.motionCancel && !p.feedHold && !p.safetyDoor ==> HoldSection(s, p) == s
  {
  }

  lemma AfterDelayKeeps(s: System, see: Sight)
    requires Agrees(s) && s.state == SafetyDoor && Delaying(s)
    requires s.suspend.initiateRestore != s.suspend.restartRetract
    ensures Orderly(AfterDelay(s, see))
  {
    Appended(s.log, RestoreDone);
    hide StageOf;
  }

  lemma PassKeeps(s: System, see: Sight)
    requires Orderly(s) && s.place == LoopTop
    ensures Orderly(SuspendPass(s, see))
  {
    hide StageOf, RestoreSpindle;
    if s.suspend.holdComplete && s.state == SafetyDoor {
      if !s.suspend.retractComplete {
        Appended(s.log, Retracted);
      } else {
        ReadKeeps(s, see.ajar);
        var s1 := ReadDoor(s, see.ajar);
        if s1.suspend.initiateRestore {
          RestoreKeeps(s1, see);
        }
      }
    }
  }

  lemma ReadKeeps(s: System, ajar: bool)
    requires Agrees(s) && s.state == SafetyDoor && s.suspend.retractComplete
    ensures var s1 := ReadDoor(s, ajar);
            && Agrees(s1) && s1.state == SafetyDoor && s1.place == s.place
            && s1.suspend.initiateRestore == s.suspend.initiateRestore && s1.suspend.retractComplete
  {
    Appended(s.log, ReadClosed);
    hide StageOf;
  }

  lemma RestoreKeeps(s: System, see: Sight)
    requires Agrees(s) && s.state == SafetyDoor && s.suspend.initiateRestore
    ensures Orderly(RestoreSpindle(s, see))
  {
    Appended(s.log, RestoreDone);
    hide StageOf;
  }

  /** THE DOOR IS KEPT IN ORDER by every step, exactly unless a poll resumes the cycle in the
      middle of a restore delay. (That takes a restore which was completed before, and whose
      automatic cycle start was blocked by a hold command arriving at the same time.) */
  lemma StepKeepsOrderIff(s: System, e: Event)
    requires Orderly(s) && Allowed(s, e)
    ensures Orderly(Step(s, e)) <==> !ResumesInDelay(s, e)
  {
    hide StageOf, ExecRtSystem, SuspendPass, AfterDelay, Agrees;
    match e
    case Command(p) => CommandKeeps(s, p);
    case PollRt(poll, see) => PollStep(s, poll, see);
    case Pass(see) => PassKeeps(s, see);
    case Elapsed(see) => RestoringNotRestarting(s); AfterDelayKeeps(s, see);
    case StartJog => ProgramKeeps(s, e);
    case Accessory(spindle, coolant) => ProgramKeeps(s, e);
  }

  lemma RestoringNotRestarting(s: System)
    requires Agrees(s) && s.state == SafetyDoor && s.suspend.initiateRestore
    ensures !s.suspend.restartRetract
  {
  }

  lemma CommandKeeps(s: System, p: Pending)
    requires Orderly(s)
    ensures Orderly(Step(s, Command(p)))
  {
    hide StageOf;
  }

  lemma ProgramKeeps(s: System, e: Event)
    requires Orderly(s) && Allowed(s, e) && (e.StartJog? || e.Accessory?)
    ensures Orderly(Step(s, e))
  {
    hide StageOf;
  }

  lemma PollStep(s: System, poll: Poll, see: Sight)
    requires Orderly(s) && s.place != LoopTop
    ensures Orderly(Step(s, PollRt(poll, see))) <==> !ResumesInDelay(s, PollRt(poll, see))
  {
    PollKeeps(s, poll);
    var s1 := ExecRtSystem(s, poll);
    hide StageOf, ExecRtSystem, AfterDelay;
    if Delaying(s) {
      if s1.suspend.restartRetract {
        AfterDelayKeeps(s1, see);
      }
    } else {
      var s' := s1.(place := if s1.suspend == SUSPEND_DISABLE then Main else LoopTop);
      assert Agrees(s');
    }
  }

  // ---------------------------------------------------------------------------
  // Whole runs
  // ---------------------------------------------------------------------------

  /** No poll of the run resumes the cycle in the middle of a restore delay. */
  ghost predicate Undisturbed(s: System, es: seq<Event>)
    decreases |es|
  {
    es == [] || (Allowed(s, es[0]) && !ResumesInDelay(s, es[0]) && Undisturbed(Step(s, es[0]), es[1..]))
  }

  lemma {:induction false} EveryRunOrderly(s: System, es: seq<Event>, s': System)
    requires Orderly(s) && RunsTo(s, es, s') && Undisturbed(s, es)
    ensures Orderly(s')
    decreases |es|
  {
    hide StageOf, Step, Orderly;
    if es != [] {
      StepKeepsOrderIff(s, es[0]);
      EveryRunOrderly(Step(s, es[0]), es[1..], s');
    }
  }

  ghost predicate NoneOpened(log: seq<Mark>, from: int) {
    forall i :: 0 <= i && from <= i < |log| ==> log[i] != Opened
  }

  /** The door was shut and everything restored in order: spindle and coolant switched off, the
      door then read as closed and not opened again, a restore started, and the restore done. */
  ghost predicate Secured(log: seq<Mark>, off: int, closed: int, started: int, restored: int) {
    && 0 <= off < closed < started < restored < |log|
    && log[off] == Retracted && log[closed] == ReadClosed && log[started] == RestoreStarted
       && log[restored] == RestoreDone
    && NoneOpened(log, closed)
  }

  /** What a stage says about the record that has led to it. */
  ghost predicate History(log: seq<Mark>, off: int, closed: int, started: int, restored: int) {
    var stage := StageOf(log);
    && (stage.Parked? || stage == Restoring || stage == Restored ==> 0 <= off < |log| && log[off] == Retracted)
    && (stage == Parked(true) || stage == Restoring || stage == Restored ==>
          off < closed < |log| && log[closed] == ReadClosed && NoneOpened(log, closed))
    && (stage == Restoring || stage == Restored ==> closed < started < |log| && log[started] == RestoreStarted)
    && (stage == Restored ==> started < restored < |log| && log[restored] == RestoreDone)
  }

  lemma {:induction false} StageHistory(log: seq<Mark>) returns (off: int, closed: int, started: int, restored: int)
    ensures History(log, off, closed, started, restored)
  {
    if log == [] {
      off, closed, started, restored := 0, 0, 0, 0;
    } else {
      var n := |log| - 1;
      off, closed, started, restored := StageHistory(log[..n]);
      var stage := StageOf(log[..n]);
      assert StageOf(log) == Next(stage, log[n]);
      hide StageOf;
      match log[n]
      case Opened =>
      case Retracted => off := n;
      case ReadClosed => if stage.Parked? { closed := n; }
      case RestoreStarted => started := n;
      case RestoreDone => if stage == Restoring { restored := n; }
      case Resumed =>
    }
  }

  /** SAFETY AT THE DOOR: on every run in which no cycle start is executed in the middle of a
      restore delay, whenever the door state is left, spindle and coolant had been switched off,
      the door was then read as closed and has not been opened since, a cycle start then
      initiated the restore, and the restore has been completed. */
  lemma DoorSafety(es: seq<Event>, s: System, e: Event)
    requires RunsTo(PowerUp, es, s) && Undisturbed(PowerUp, es) && Allowed(s, e)
    requires s.state == SafetyDoor && Step(s, e).state != SafetyDoor
    ensures exists off, closed, started, restored :: Secured(s.log, off, closed, started, restored)
  {
    PowerUpOrderly();
    EveryRunOrderly(PowerUp, es, s);
    LeftRestored(s, e);
    hide StageOf, Step;
    var off, closed, started, restored := StageHistory(s.log);
    assert Secured(s.log, off, closed, started, restored);
  }

  lemma PowerUpOrderly()
    ensures Orderly(PowerUp)
  {
  }

  lemma LeftRestored(s: System, e: Event)
    requires Orderly(s) && Allowed(s, e) && s.state == SafetyDoor && Step(s, e).state != SafetyDoor
    ensures StageOf(s.log) == Restored
  {
    hide StageOf, ExecRtSystem, AfterDelay;
    match e
    case PollRt(poll, see) => PollKeeps(s, poll); DelayKeepsState(ExecRtSystem(s, poll), see);
    case Elapsed(see) => DelayKeepsState(s, see);
    case Pass(see) => PassKeepsState(s, see);
    case Command(p) =>
    case StartJog =>
    case Accessory(spindle, coolant) =>
  }

  lemma DelayKeepsState(s: System, see: Sight)
    ensures AfterDelay(s, see).state == s.state
  {
  }

  lemma PassKeepsState(s: System, see: Sight)
    ensures SuspendPass(s, see).state == s.state
  {
    RestoreKeepsState(s, see);
    RestoreKeepsState(ReadDoor(s, see.ajar), see);
    HoldManagerKeepsState(s, see);
    hide RestoreSpindle, HoldManager;
  }

  lemma RestoreKeepsState(s: System, see: Sight)
    ensures RestoreSpindle(s, see).state == s.state
  {
  }

  lemma HoldManagerKeepsState(s: System, see: Sight)
    ensures HoldManager(s, see).state == s.state
  {
  }

  /** ... and from the switching off to the start of the restore nothing is switched on. */
  lemma OffWhileParked(es: seq<Event>, s: System)
    requires RunsTo(PowerUp, es, s) && Undisturbed(PowerUp, es)
    ensures s.state == SafetyDoor && StageOf(s.log).Parked? ==> !s.spindleOn && !s.coolantOn
    ensures StageOf(s.log) != Broken
  {
    PowerUpOrderly();
    EveryRunOrderly(PowerUp, es, s);
    hide StageOf;
  }
}
