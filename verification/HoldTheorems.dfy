/** Feed hold and cycle start: the state every poll leads to, that every hold comes to its end, and that it
    can then be resumed. */
module HoldTheorems {
  import opened DoorModel

  const NONE_PENDING := Pending(false, false, false, false, false)

  /** A command that brings motion to a hold, or keeps it there. */
  predicate HoldCommand(p: Pending) {
    p.feedHold || p.motionCancel || p.safetyDoor
  }

  /** What the flags say of the state: a hold is being executed or complete, only a jog is cancelled with
      the flag of its own, and the door has been noticed where it is shown, or while a jog is cancelled. */
  predicate Sound(s: System) {
    var f := s.suspend;
    && (s.state == Hold || s.state == SafetyDoor ==> s.executeHold || f.holdComplete)
    && (s.state == Cycle && f.motionCancel ==> s.executeHold)
    && (f.jogCancel ==> s.state == Jog && s.executeHold)
    && (s.state == Jog ==> !f.motionCancel)
    && (f.doorAjar ==> f.jogCancel || s.state == SafetyDoor)
  }

  /** A cycle start that is not blocked takes effect when idle, when a hold is complete, unless the spindle
      has been stopped in it, and at a closed door when all has been restored. */
  predicate Starts(s: System) {
    && s.pending.cycleStart && !HoldCommand(s.pending)
    && (s.state == Idle
        || (s.state == Hold && s.suspend.holdComplete && s.spindleStop == STOP_OVR_DISABLED)
        || (s.state == SafetyDoor && s.suspend.restoreComplete && !s.suspend.doorAjar))
  }

  /** In a hold, or brought into one, the door's included. */
  predicate Holds(s: System) {
    s.state == Hold || s.state == SafetyDoor
    || ((s.state == Idle || s.state == Cycle) && (s.pending.feedHold || s.pending.safetyDoor))
  }

  predicate JogCancelled(s: System) {
    s.state == Jog && (s.suspend.jogCancel || HoldCommand(s.pending))
  }

  predicate DoorNoticed(s: System) {
    s.suspend.doorAjar || s.pending.safetyDoor
  }

  predicate CancelNoticed(s: System) {
    || (s.pending.motionCancel && s.state != Jog)
    || (s.suspend.motionCancel && !(HoldCommand(s.pending) && s.state == Idle))
  }

  /** Motion is being brought to a hold, or is to be from now on. */
  predicate Braking(s: System) {
    s.executeHold || (HoldCommand(s.pending) && (s.state == Cycle || s.state == Jog))
  }

  /** What a section leaves alone: the place of the main program, and a spindle that is not stopped. */
  predicate Frame(s: System, s': System) {
    s'.place == s.place && (s.spindleStop == STOP_OVR_DISABLED ==> s'.spindleStop == STOP_OVR_DISABLED)
  }

  // ---------------------------------------------------------------------------
  // One section of the poll at a time
  // ---------------------------------------------------------------------------

  lemma EnterOutcome(s: System)
    requires Sound(s)
    ensures var s1 := EnterHold(s);
            && Frame(s, s1) && s1.state == s.state && s1.pending == s.pending
            && s1.executeHold == (s.executeHold || s.state == Cycle || s.state == Jog)
            && s1.suspend.jogCancel == (s.state == Jog)
            && s1.suspend.holdComplete == (s.suspend.holdComplete || s.state == Idle)
            && s1.suspend.doorAjar == (s.suspend.doorAjar && s.state != Idle)
            && s1.suspend.motionCancel == (s.suspend.motionCancel && s.state != Idle)
  {
  }

  lemma CancelOutcome(s: System, p: Pending)
    ensures var s1 := CancelOrHold(s, p);
            && s1.state == (if p.feedHold && s.state != SafetyDoor && s.state != Jog then Hold else s.state)
            && Frame(s, s1) && s1.executeHold == s.executeHold && s1.pending == s.pending
            && s1.suspend.motionCancel == (s.suspend.motionCancel || (p.motionCancel && s.state != Jog))
            && s1.suspend.jogCancel == s.suspend.jogCancel && s1.suspend.doorAjar == s.suspend.doorAjar
            && s1.suspend.holdComplete == s.suspend.holdComplete
  {
  }

  lemma DoorOutcome(s: System)
    ensures var s1 := DoorOpens(s);
            && s1.state == (if s.suspend.jogCancel then s.state else SafetyDoor)
            && s1.suspend.doorAjar && s1.executeHold == s.executeHold && s1.suspend.jogCancel == s.suspend.jogCancel
            && s1.suspend.holdComplete == s.suspend.holdComplete
            && s1.suspend.motionCancel == s.suspend.motionCancel && s1.pending == s.pending && Frame(s, s1)
  {
  }

  /** The system after the hold commands. */
  ghost predicate Held(s: System, s1: System) {
    var p := s.pending;
    && s1.state == (if p.safetyDoor && s.state != Jog then SafetyDoor
                    else if p.feedHold && (s.state == Idle || s.state == Cycle) then Hold else s.state)
    && s1.executeHold == Braking(s) && s1.suspend.jogCancel == JogCancelled(s)
    && s1.suspend.holdComplete == (s.suspend.holdComplete || (HoldCommand(p) && s.state == Idle))
    && s1.suspend.doorAjar == DoorNoticed(s)
    && s1.suspend.motionCancel == CancelNoticed(s)
    && s1.pending.cycleStart == p.cycleStart && s1.pending.cycleStop == p.cycleStop
    && !HoldCommand(s1.pending) && Frame(s, s1)
  }

  lemma HoldOutcome(s: System)
    requires Sound(s)
    ensures Held(s, HoldSection(s, s.pending))
    ensures !HoldCommand(s.pending) ==> HoldSection(s, s.pending) == s
  {
    var p := s.pending;
    if HoldCommand(p) {
      EnterOutcome(s);
      CancelOutcome(EnterHold(s), p);
      DoorOutcome(CancelOrHold(EnterHold(s), p));
      hide EnterHold, CancelOrHold, DoorOpens;
    }
  }

  ghost predicate SameButRestore(f: Suspend, f': Suspend) {
    && f'.holdComplete == f.holdComplete && f'.jogCancel == f.jogCancel && f'.doorAjar == f.doorAjar
    && f'.motionCancel == f.motionCancel
  }

  lemma BlockedOutcome(s: System, p: Pending, haveBlock: bool)
    requires !p.cycleStart || HoldCommand(p)
    ensures var s2 := StartSection(s, p, haveBlock);
            && Frame(s, s2) && s2.state == s.state && s2.executeHold == s.executeHold && s2.suspend == s.suspend
            && s2.pending == if p.cycleStart then s.pending.(cycleStart := false) else s.pending
  {
  }

  lemma CycleOutcome(s: System, haveBlock: bool)
    ensures var s2 := CycleStart(s, haveBlock);
            && s2.pending == s.pending && Frame(s, s2)
            && if s.state == Idle || (s.state == Hold && s.suspend.holdComplete && s.spindleStop == STOP_OVR_DISABLED)
               then
                 && s2.state == (if haveBlock && !s.suspend.motionCancel then Cycle else Idle)
                 && !s2.executeHold && s2.suspend == SUSPEND_DISABLE
               else s2.state == s.state && s2.executeHold == s.executeHold && s2.suspend == s.suspend
  {
  }

  lemma DoorStartOutcome(s: System)
    ensures var s1 := DoorStart(s);
            && s1.state == (if s.state == SafetyDoor && s.suspend.restoreComplete && !s.suspend.doorAjar then Idle
                            else s.state)
            && s1.pending == s.pending && s1.executeHold == s.executeHold && s1.spindleStop == s.spindleStop
            && Frame(s, s1) && SameButRestore(s.suspend, s1.suspend)
  {
  }

  lemma StartOutcome(s: System, haveBlock: bool)
    requires s.pending.cycleStart && !HoldCommand(s.pending)
    ensures var s2 := StartSection(s, s.pending, haveBlock);
            && s2.pending == s.pending.(cycleStart := false) && Frame(s, s2)
            && if Starts(s) then
                 && s2.state == (if haveBlock && !s.suspend.motionCancel then Cycle else Idle)
                 && !s2.executeHold && s2.suspend == SUSPEND_DISABLE
               else
                 s2.state == s.state && s2.executeHold == s.executeHold && SameButRestore(s.suspend, s2.suspend)
  {
    DoorStartOutcome(s);
    CycleOutcome(DoorStart(s), haveBlock);
    hide DoorStart, CycleStart;
  }

  ghost predicate Started(s: System, s1: System, haveBlock: bool, s2: System) {
    && s2.pending == NONE_PENDING.(cycleStop := s.pending.cycleStop) && Frame(s, s2)
    && if Starts(s) then
         && s2.state == (if haveBlock && !s.suspend.motionCancel then Cycle else Idle)
         && !s2.executeHold && s2.suspend == SUSPEND_DISABLE
       else s2.state == s1.state && s2.executeHold == s1.executeHold && SameButRestore(s1.suspend, s2.suspend)
  }

  ghost predicate Stopped(s: System, stop: bool, s': System) {
    && s'.pending == NONE_PENDING && s'.place == s.place
    && if !stop then s'.state == s.state && s'.executeHold == s.executeHold && s'.suspend == s.suspend
       else if s.state == Hold || s.state == SafetyDoor then
         && s'.state == s.state && !s'.executeHold
         && s'.suspend == s.suspend.(holdComplete := s.suspend.holdComplete || s.executeHold)
       else
         && s'.state == (if s.suspend.doorAjar then SafetyDoor else Idle)
         && s'.executeHold == (s.executeHold && !s.suspend.jogCancel)
         && s'.suspend == (if s.suspend.doorAjar then s.suspend.(jogCancel := false, holdComplete := true)
                           else SUSPEND_DISABLE)
  }

  lemma StartedOutcome(s: System, s1: System, haveBlock: bool)
    requires Held(s, s1) && (!HoldCommand(s.pending) ==> s1 == s)
    ensures Started(s, s1, haveBlock, StartSection(s1, s.pending, haveBlock))
  {
    var p := s.pending;
    if p.cycleStart && !HoldCommand(p) {
      StartOutcome(s, haveBlock);
    } else {
      BlockedOutcome(s1, p, haveBlock);
    }
    hide StartSection;
  }

  lemma StopOutcome(s: System, p: Pending)
    requires s.suspend.jogCancel ==> s.state == Jog
    requires s.pending == NONE_PENDING.(cycleStop := p.cycleStop)
    ensures Stopped(s, p.cycleStop, StopSection(s, p)) && Frame(s, StopSection(s, p))
  {
  }

  lemma AccessoryOutcome(s: System, poll: Poll)
    ensures var s4 := AccessorySection(s, poll);
            && s4.state == s.state && s4.suspend == s.suspend && s4.executeHold == s.executeHold
            && s4.pending == s.pending && s4.place == s.place
            && (!poll.spindleStopKey ==> s4.spindleStop == s.spindleStop)
  {
  }

  lemma Sections(s: System, poll: Poll) returns (s1: System, s2: System)
    requires Sound(s)
    ensures Held(s, s1) && Started(s, s1, poll.haveBlock, s2) && Stopped(s2, s.pending.cycleStop, ExecRtSystem(s, poll))
    ensures !poll.spindleStopKey ==> Frame(s, ExecRtSystem(s, poll))
  {
    var p := s.pending;
    HoldOutcome(s);
    s1 := HoldSection(s, p);
    StartedOutcome(s, s1, poll.haveBlock);
    s2 := StartSection(s1, p, poll.haveBlock);
    JogAlone(s, s1, poll.haveBlock, s2);
    StopOutcome(s2, p);
    AccessoryOutcome(StopSection(s2, p), poll);
    hide HoldSection, StartSection, StopSection, AccessorySection, Held, Started;
  }

  lemma JogAlone(s: System, s1: System, haveBlock: bool, s2: System)
    requires Held(s, s1) && Started(s, s1, haveBlock, s2)
    ensures Frame(s, s2) && (s2.suspend.jogCancel ==> s2.state == Jog)
            && s2.pending == NONE_PENDING.(cycleStop := s.pending.cycleStop)
  {
  }

  /** THE OUTCOME OF A POLL, from flags and state alone. A cycle goes on, or is started or resumed, if there is
      a block and its motion has not been cancelled; a hold begins, or is not yet resumed; a jog goes on,
      also while it is being cancelled; the door is noticed at once, but after a jog only; otherwise the
      machine is idle. */
  lemma PollOutcome(s: System, poll: Poll)
    requires Sound(s)
    ensures var s', p := ExecRtSystem(s, poll), s.pending;
            && (s'.state == Cycle <==> !p.cycleStop
                                       && ((s.state == Cycle && !p.feedHold && !p.safetyDoor)
                                           || (Starts(s) && poll.haveBlock && !s.suspend.motionCancel)))
            && (s'.state == Hold <==> (s.state == Hold || (p.feedHold && (s.state == Idle || s.state == Cycle)))
                                      && !p.safetyDoor && !Starts(s))
            && (s'.state == Jog <==> s.state == Jog && !p.cycleStop)
            && (s'.state == SafetyDoor <==> if s.state == Jog then p.cycleStop && DoorNoticed(s)
                                            else (s.state == SafetyDoor || p.safetyDoor) && !Starts(s))
            && s'.pending == NONE_PENDING
  {
    var s1, s2 := Sections(s, poll);
    hide ExecRtSystem;
  }

  /** Motion brakes from the hold command until the interrupt stops or a cycle starts; then the hold is
      complete, and so it stays until it is resumed. Resumed, or at the end of a motion, nothing is suspended. */
  lemma HoldProgress(s: System, poll: Poll)
    requires Sound(s)
    ensures var s', p := ExecRtSystem(s, poll), s.pending;
            && Sound(s')
            && (s'.executeHold <==> Braking(s) && !Starts(s) && !(p.cycleStop && (Holds(s) || JogCancelled(s))))
            && (s'.suspend.holdComplete <==>
                && !Starts(s)
                && if p.cycleStop then Holds(s) || (s.state == Jog && DoorNoticed(s))
                   else s.suspend.holdComplete || (HoldCommand(p) && s.state == Idle))
            && (Starts(s) || (p.cycleStop && !Holds(s) && !(s.state == Jog && DoorNoticed(s))) ==>
                  s'.suspend == SUSPEND_DISABLE)
            && (!Starts(s) && (p.cycleStop ==> Holds(s)) ==> s'.suspend.motionCancel == CancelNoticed(s))
            && s'.place == s.place && (!poll.spindleStopKey ==> Frame(s, s'))
  {
    var s1, s2 := Sections(s, poll);
    hide ExecRtSystem;
  }

  // ---------------------------------------------------------------------------
  // Whole runs
  // ---------------------------------------------------------------------------

  /** ... and outside the suspend loop nothing is suspended. */
  ghost predicate SoundInPlace(s: System) {
    Sound(s) && (s.place == Main ==> s.suspend == SUSPEND_DISABLE)
  }

  /** What the suspend loop leaves alone. */
  predicate StillHolds(s: System, s': System) {
    && s'.state == s.state && s'.executeHold == s.executeHold && s'.place != Main
    && s'.suspend.holdComplete == s.suspend.holdComplete && s'.suspend.jogCancel == s.suspend.jogCancel
    && s'.suspend.motionCancel == s.suspend.motionCancel && (s'.suspend.doorAjar ==> s.suspend.doorAjar)
  }

  lemma FinishOutcome(s: System)
    ensures StillHolds(s, FinishRestore(s))
  {
  }

  lemma CoolantOutcome(s: System, see: Sight)
    ensures StillHolds(s, RestoreCoolant(s, see))
  {
    FinishOutcome(s);
    hide FinishRestore;
  }

  lemma RestoreOutcome(s: System, see: Sight)
    ensures StillHolds(s, RestoreSpindle(s, see))
  {
    CoolantOutcome(s, see);
    hide RestoreCoolant;
  }

  lemma DelayOutcome(s: System, see: Sight)
    ensures StillHolds(s, AfterDelay(s, see))
  {
    FinishOutcome(s);
    CoolantOutcome(s, see);
    hide RestoreCoolant, FinishRestore;
  }

  lemma ManagerOutcome(s: System, see: Sight)
    ensures StillHolds(s, HoldManager(s, see)) && HoldManager(s, see).place == LoopEnd
    ensures s.spindleStop == STOP_OVR_DISABLED ==>
              HoldManager(s, see).spindleStop == STOP_OVR_DISABLED && HoldManager(s, see).pending == s.pending
  {
  }

  lemma RetractOutcome(s: System)
    ensures StillHolds(s, Retract(s))
  {
  }

  lemma PassOutcome(s: System, see: Sight)
    ensures StillHolds(s, SuspendPass(s, see))
  {
    RestoreOutcome(ReadDoor(s, see.ajar), see);
    ManagerOutcome(s, see);
    RetractOutcome(s);
    hide RestoreSpindle, HoldManager, Retract;
  }

  lemma StepKeepsSound(s: System, e: Event)
    requires SoundInPlace(s) && Allowed(s, e)
    ensures SoundInPlace(Step(s, e))
  {
    hide ExecRtSystem, AfterDelay, SuspendPass;
    match e
    case PollRt(poll, see) =>
      HoldProgress(s, poll);
      DelayOutcome(ExecRtSystem(s, poll), see);
    case Pass(see) => PassOutcome(s, see);
    case Elapsed(see) => DelayOutcome(s, see);
    case _ => ProgramKeepsSound(s, e);
  }

  lemma ProgramKeepsSound(s: System, e: Event)
    requires SoundInPlace(s) && Allowed(s, e) && (e.Command? || e.StartJog? || e.Accessory?)
    ensures SoundInPlace(Step(s, e))
  {
  }

  lemma {:induction false} EveryRunSound(s: System, es: seq<Event>, s': System)
    requires SoundInPlace(s) && RunsTo(s, es, s')
    ensures SoundInPlace(s')
    decreases |es|
  {
    hide Step, SoundInPlace;
    if es != [] {
      StepKeepsSound(s, es[0]);
      EveryRunSound(Step(s, es[0]), es[1..], s');
    }
  }

  /** EVERY HOLD COMES TO ITS END, on every run: a hold, and that at the door, is being executed or is
      complete; and once the interrupt has stopped it is complete, and waits for a cycle start. */
  lemma EveryHoldEnds(es: seq<Event>, s: System, poll: Poll)
    requires RunsTo(PowerUp, es, s) && (s.state == Hold || s.state == SafetyDoor)
    ensures s.executeHold || s.suspend.holdComplete
    ensures s.pending.cycleStop && !s.pending.cycleStart ==>
              var s' := ExecRtSystem(s, poll);
              (s'.state == Hold || s'.state == SafetyDoor) && s'.suspend.holdComplete && !s'.executeHold
  {
    EveryRunSound(PowerUp, es, s);
    PollOutcome(s, poll);
    HoldProgress(s, poll);
    hide ExecRtSystem, RunsTo;
  }

  /** A HOLD IS RESUMED, on every run: a cycle start alone, in a complete hold in which the spindle has not been
      stopped, leads back into the cycle exactly if there is a block and its motion has not been cancelled,
      otherwise to idle; and then nothing is held or suspended. */
  lemma HoldResumes(es: seq<Event>, s: System, poll: Poll)
    requires RunsTo(PowerUp, es, s) && s.state == Hold && s.pending == NONE_PENDING.(cycleStart := true)
    ensures var s' := ExecRtSystem(s, poll);
            if s.suspend.holdComplete && s.spindleStop == STOP_OVR_DISABLED then
              && s'.state == (if poll.haveBlock && !s.suspend.motionCancel then Cycle else Idle)
              && s'.suspend == SUSPEND_DISABLE && !s'.executeHold
            else s'.state == Hold
  {
    EveryRunSound(PowerUp, es, s);
    PollOutcome(s, poll);
    HoldProgress(s, poll);
    hide ExecRtSystem, RunsTo;
  }

  lemma HeldAtOnce(s: System, poll: Poll)
    requires Sound(s) && s.state == Cycle && s.pending == NONE_PENDING.(feedHold := true)
    ensures ExecRtSystem(s, poll).suspend == s.suspend
  {
  }

  /** FEED HOLD AND RESUME: a feed hold in a cycle holds it, the cycle stop behind it completes the hold, and
      a cycle start then goes on with the cycle, while the main program looks at nothing else. */
  lemma HoldAndResume(s: System, polls: seq<Poll>, see: Sight)
    requires SoundInPlace(s) && s.place == Main && s.state == Cycle && s.spindleStop == STOP_OVR_DISABLED
    requires s.pending == NONE_PENDING.(feedHold := true)
    requires |polls| == 3 && forall poll :: poll in polls ==> poll.haveBlock && !poll.spindleStopKey
    ensures var held := Step(s, PollRt(polls[0], see));
            && held.state == Hold && held.executeHold && held.place == Main
            && var stopped := Step(held, Command(NONE_PENDING.(cycleStop := true)));
            var complete := Step(stopped, PollRt(polls[1], see));
            && complete.state == Hold && complete.suspend.holdComplete && complete.place == LoopTop
            && var waiting := Step(complete, Pass(see));
            var started := Step(waiting, Command(NONE_PENDING.(cycleStart := true)));
            && Allowed(started, PollRt(polls[2], see))
            && var resumed := Step(started, PollRt(polls[2], see));
            && resumed.state == Cycle && resumed.suspend == SUSPEND_DISABLE && !resumed.executeHold
            && resumed.place == Main
  {
    hide ExecRtSystem, HoldManager;
    HeldAtOnce(s, polls[0]);
    PollOutcome(s, polls[0]);
    HoldProgress(s, polls[0]);
    var held := Step(s, PollRt(polls[0], see));
    var stopped := Step(held, Command(NONE_PENDING.(cycleStop := true)));
    PollOutcome(stopped, polls[1]);
    HoldProgress(stopped, polls[1]);
    var complete := Step(stopped, PollRt(polls[1], see));
    var waiting := Step(complete, Pass(see));
    PassOutcome(complete, see);
    ManagerOutcome(complete, see);
    var started := Step(waiting, Command(NONE_PENDING.(cycleStart := true)));
    PollOutcome(started, polls[2]);
    HoldProgress(started, polls[2]);
  }

  // ---------------------------------------------------------------------------
  // Spindle and coolant
  // ---------------------------------------------------------------------------

  lemma IdlePoll(s: System, poll: Poll)
    requires !s.pending.cycleStop && !HoldCommand(s.pending)
    requires s.pending.cycleStart ==> s.state == Hold && s.suspend.holdComplete && s.spindleStop != STOP_OVR_DISABLED
    ensures ExecRtSystem(s, poll) ==
            AccessorySection(if s.pending.cycleStart then
                               s.(spindleStop := s.spindleStop.(restoreCycle := true),
                                  pending := s.pending.(cycleStart := false))
                             else s, poll)
  {
  }

  /** SPINDLE STOP: in a complete hold the key stops the spindle; ... */
  lemma SpindleStops(s: System, key: Poll, see: Sight)
    requires s.state == Hold && s.suspend.holdComplete && s.place == LoopEnd && s.pending == NONE_PENDING
    requires s.spindleStop == STOP_OVR_DISABLED && key.spindleStopKey && see.modalSpindle
    ensures Step(s, PollRt(key, see)).place == LoopTop
    ensures var off := Step(Step(s, PollRt(key, see)), Pass(see));
            && off.state == Hold && off.suspend == s.suspend && off.place == LoopEnd && off.pending == NONE_PENDING
            && !off.spindleOn && off.spindleStop == STOP_OVR_DISABLED.(enabled := true)
  {
    hide ExecRtSystem;
    IdlePoll(s, key);
  }

  /** ... pressed again it brings the spindle up as it was commanded; ... */
  lemma SpindleStartsAgain(off: System, key: Poll, see: Sight)
    requires off.state == Hold && off.suspend.holdComplete && off.place == LoopEnd && off.pending == NONE_PENDING
    requires off.spindleStop == STOP_OVR_DISABLED.(enabled := true) && key.spindleStopKey && see.modalSpindle
    ensures Step(off, PollRt(key, see)).place == LoopTop
    ensures var on := Step(Step(off, PollRt(key, see)), Pass(see));
            && on.spindleOn == see.restoreSpindle && on.spindleStop == STOP_OVR_DISABLED && on.pending == NONE_PENDING
            && on.state == Hold && on.suspend == off.suspend
  {
    hide ExecRtSystem;
    IdlePoll(off, key);
  }

  /** ... and a cycle start does so too, and is then repeated. */
  lemma SpindleStartsFirst(off: System, poll: Poll, see: Sight)
    requires off.state == Hold && off.suspend.holdComplete && off.place == LoopEnd
    requires off.pending == NONE_PENDING.(cycleStart := true) && off.spindleStop == STOP_OVR_DISABLED.(enabled := true)
    requires !poll.spindleStopKey && see.modalSpindle
    ensures Step(off, PollRt(poll, see)).place == LoopTop
    ensures var on := Step(Step(off, PollRt(poll, see)), Pass(see));
            && on.spindleOn == see.restoreSpindle && on.spindleStop == STOP_OVR_DISABLED
            && on.pending == NONE_PENDING.(cycleStart := true) && on.state == Hold && on.suspend == off.suspend
  {
    hide ExecRtSystem;
    IdlePoll(off, poll);
  }

  /** What has become of spindle and coolant at the end of a restore. */
  ghost predicate RestoredTo(s: System, spindle: bool, coolant: bool) {
    && s.place == LoopEnd && s.state == SafetyDoor && s.suspend.restoreComplete && s.pending.cycleStart
    && s.spindleOn == spindle && s.coolantOn == coolant && s.log != [] && s.log[|s.log| - 1] == RestoreDone
  }

  lemma CoolantRestored(s: System, see: Sight)
    requires s.state == SafetyDoor && !s.suspend.restartRetract
    ensures var s1 := RestoreCoolant(s, see);
            && (see.modalCoolant <==> s1.place == CoolantDelay) && s1.place != SpindleDelay
            && RestoredTo(if Delaying(s1) then AfterDelay(s1, see) else s1, s.spindleOn,
                          if see.modalCoolant then see.restoreCoolant else s.coolantOn)
  {
  }

  /** RESTORE AT THE DOOR: once it is started, and unless the door is opened again, spindle and coolant are brought
      up as they were commanded, each with its delay; then a cycle start is repeated. */
  lemma DoorRestores(s: System, see: Sight)
    requires s.state == SafetyDoor && s.place == LoopTop && s.suspend.holdComplete && s.suspend.retractComplete
    requires s.suspend.initiateRestore && !s.suspend.restartRetract
    ensures var s1 := Step(s, Pass(see));
            && (see.modalSpindle <==> s1.place == SpindleDelay)
            && var s2 := if see.modalSpindle then Step(s1, Elapsed(see)) else s1;
            && (see.modalCoolant <==> s2.place == CoolantDelay)
            && RestoredTo(if see.modalCoolant then Step(s2, Elapsed(see)) else s2,
                          if see.modalSpindle then see.restoreSpindle else s.spindleOn,
                          if see.modalCoolant then see.restoreCoolant else s.coolantOn)
  {
    var s0 := ReadDoor(s, see.ajar);
    CoolantRestored(if see.modalSpindle then s0.(spindleOn := see.restoreSpindle, place := SpindleDelay) else s0, see);
    hide RestoreCoolant, FinishRestore, RestoredTo;
  }

  /** The coolant key works everywhere but at the door and in a jog; nothing else a poll does touches spindle or
      coolant. */
  lemma CoolantKey(s: System, poll: Poll)
    ensures var s' := ExecRtSystem(s, poll);
            && s'.spindleOn == s.spindleOn
            && s'.coolantOn == if poll.coolantKey && s'.state != SafetyDoor && s'.state != Jog then poll.coolantTo
                               else s.coolantOn
  {
    var p := s.pending;
    var s1 := HoldSection(s, p);
    var s2 := StartSection(s1, p, poll.haveBlock);
    HoldFrame(s, p);
    StartFrame(s1, p, poll.haveBlock);
    StopFrame(s2, p);
    hide HoldSection, StartSection, StopSection;
  }

  lemma HoldFrame(s: System, p: Pending)
    ensures HoldSection(s, p).spindleOn == s.spindleOn && HoldSection(s, p).coolantOn == s.coolantOn
  {
    EnterFrame(s);
    CancelFrame(EnterHold(s), p);
    DoorFrame(CancelOrHold(EnterHold(s), p));
    hide EnterHold, CancelOrHold, DoorOpens;
  }

  lemma EnterFrame(s: System)
    ensures EnterHold(s).spindleOn == s.spindleOn && EnterHold(s).coolantOn == s.coolantOn
  {
  }

  lemma CancelFrame(s: System, p: Pending)
    ensures CancelOrHold(s, p).spindleOn == s.spindleOn && CancelOrHold(s, p).coolantOn == s.coolantOn
  {
  }

  lemma DoorFrame(s: System)
    ensures DoorOpens(s).spindleOn == s.spindleOn && DoorOpens(s).coolantOn == s.coolantOn
  {
  }

  lemma StartFrame(s: System, p: Pending, haveBlock: bool)
    ensures StartSection(s, p, haveBlock).spindleOn == s.spindleOn
    ensures StartSection(s, p, haveBlock).coolantOn == s.coolantOn
  {
  }

  lemma StopFrame(s: System, p: Pending)
    ensures StopSection(s, p).spindleOn == s.spindleOn && StopSection(s, p).coolantOn == s.coolantOn
  {
  }

  // ---------------------------------------------------------------------------
  // At the door, step by step
  // ---------------------------------------------------------------------------

  /** THE DOOR IS LEFT AGAIN. Opened in a cycle, it holds the cycle at once, ... */
  lemma DoorHolds(s: System, poll: Poll, see: Sight)
    requires s.place == Main && s.state == Cycle && s.suspend == SUSPEND_DISABLE
    requires s.pending == NONE_PENDING.(safetyDoor := true)
    ensures var s' := Step(s, PollRt(poll, see));
            && s'.state == SafetyDoor && s'.executeHold && s'.place == LoopTop && s'.pending == NONE_PENDING
            && s'.suspend == SUSPEND_DISABLE.(doorAjar := true)
  {
  }

  /** ... and when the interrupt has stopped, spindle and coolant are switched off. ... */
  lemma DoorRetracts(s: System, poll: Poll, see: Sight)
    requires s.place == LoopEnd && s.state == SafetyDoor && s.executeHold && !s.suspend.jogCancel
    requires s.pending == NONE_PENDING.(cycleStop := true) && !s.suspend.retractComplete
    ensures var s1 := Step(s, PollRt(poll, see));
            && s1.place == LoopTop && s1.suspend == s.suspend.(holdComplete := true) && !s1.executeHold
            && var s2 := Step(s1, Pass(see));
            && s2.state == SafetyDoor && s2.place == LoopEnd && s2.pending == NONE_PENDING
            && !s2.spindleOn && !s2.coolantOn
            && s2.suspend == s1.suspend.(restartRetract := false, retractComplete := true)
  {
    StopAtDoor(s, poll);
    hide ExecRtSystem;
  }

  lemma StopAtDoor(s: System, poll: Poll)
    requires s.state == SafetyDoor && s.executeHold && !s.suspend.jogCancel
    requires s.pending == NONE_PENDING.(cycleStop := true)
    ensures ExecRtSystem(s, poll) ==
            s.(suspend := s.suspend.(holdComplete := true), executeHold := false, pending := NONE_PENDING)
  {
  }

  /** ... Once the door is closed, ... */
  lemma DoorCloses(s: System, see: Sight)
    requires s.place == LoopTop && s.state == SafetyDoor && s.suspend.holdComplete && s.suspend.retractComplete
    requires !s.suspend.initiateRestore && !see.ajar
    ensures var s' := Step(s, Pass(see));
            && s'.state == SafetyDoor && s'.place == LoopEnd && s'.pending == s.pending
            && s'.suspend == s.suspend.(doorAjar := false)
  {
  }

  /** ... a cycle start starts the restore, ... */
  lemma DoorStarts(s: System, poll: Poll, see: Sight)
    requires s.place == LoopEnd && s.state == SafetyDoor && s.suspend.retractComplete && !s.suspend.doorAjar
    requires !s.suspend.restoreComplete && s.pending == NONE_PENDING.(cycleStart := true)
    ensures var s' := Step(s, PollRt(poll, see));
            && s'.state == SafetyDoor && s'.place == LoopTop && s'.pending == NONE_PENDING
            && s'.suspend == s.suspend.(initiateRestore := true)
  {
    StartAtDoor(s, poll);
    hide ExecRtSystem;
  }

  lemma StartAtDoor(s: System, poll: Poll)
    requires s.state == SafetyDoor && s.suspend.retractComplete && !s.suspend.doorAjar
    requires !s.suspend.restoreComplete && s.pending == NONE_PENDING.(cycleStart := true)
    ensures var s' := ExecRtSystem(s, poll);
            && s'.state == SafetyDoor && s'.place == s.place && s'.pending == NONE_PENDING
            && s'.suspend == s.suspend.(initiateRestore := true)
  {
  }

  /** ... and when that is done (`DoorRestores`), the cycle start it repeats goes on with the cycle. */
  lemma DoorResumes(s: System, poll: Poll, see: Sight)
    requires s.place == LoopEnd && s.state == SafetyDoor && s.suspend.restoreComplete && !s.suspend.doorAjar
    requires Sound(s) && s.pending == NONE_PENDING.(cycleStart := true)
    ensures var s' := Step(s, PollRt(poll, see));
            && s'.state == (if poll.haveBlock && !s.suspend.motionCancel then Cycle else Idle)
            && s'.suspend == SUSPEND_DISABLE && !s'.executeHold && s'.place == Main
  {
    PollOutcome(s, poll);
    HoldProgress(s, poll);
    hide ExecRtSystem;
  }
}
