/** The real-time state machine for hold, safety door and cycle start (protocol.c), and the record
    of what happened at the door. */
module DoorModel {

  datatype State = Idle | Cycle | Hold | Jog | SafetyDoor

  /** sys.suspend */
  datatype Suspend = Suspend(
    holdComplete: bool,
    restartRetract: bool,
    retractComplete: bool,
    initiateRestore: bool,
    restoreComplete: bool,
    doorAjar: bool,
    motionCancel: bool,
    jogCancel: bool)

  const SUSPEND_DISABLE := Suspend(false, false, false, false, false, false, false, false)

  /** sys_rt_exec_state: real-time commands not yet executed. */
  datatype Pending = Pending(cycleStart: bool, cycleStop: bool, feedHold: bool, safetyDoor: bool, motionCancel: bool)

  /** sys.spindle_stop_ovr */
  datatype StopOverride = StopOverride(enabled: bool, initiate: bool, restore: bool, restoreCycle: bool)

  const STOP_OVR_DISABLED := StopOverride(false, false, false, false)

  /** Where the main program is: anywhere outside the suspend loop, at its head, before the poll
      at its end, or waiting for spindle or coolant to come up again. */
  datatype Place = Main | LoopTop | LoopEnd | SpindleDelay | CoolantDelay

  /** What is observed at the door. */
  datatype Mark =
    | Opened            // an opened door has been noticed
    | Retracted         // spindle and coolant have been switched off
    | ReadClosed        // the switch has been read, and the door is closed
    | RestoreStarted    // a cycle start has initiated the restore
    | RestoreDone       // spindle and coolant have been restored
    | Resumed           // the door state has been left

  datatype System = System(
    state: State,
    suspend: Suspend,
    pending: Pending,
    executeHold: bool,          // STEP_CONTROL_EXECUTE_HOLD
    spindleStop: StopOverride,
    spindleOn: bool,
    coolantOn: bool,
    place: Place,
    log: seq<Mark>)

  /** What a poll finds: is there a planner block, and which accessory overrides are pressed? */
  datatype Poll = Poll(haveBlock: bool, spindleStopKey: bool, coolantKey: bool, coolantTo: bool)

  /** What a pass of the suspend loop finds: the door switch, the parser's modal state and the
      accessory condition to restore. */
  datatype Sight = Sight(ajar: bool, modalSpindle: bool, modalCoolant: bool, restoreSpindle: bool, restoreCoolant: bool)

  predicate StopKeyHeld(o: StopOverride) {
    o != STOP_OVR_DISABLED
  }

  // ---------------------------------------------------------------------------
  // protocol_exec_rt_system, section by section
  // ---------------------------------------------------------------------------

  /** Motion cancel, feed hold and safety door: first, bring motion to a hold. */
  function EnterHold(s: System): System {
    if s.state == Idle then s.(suspend := SUSPEND_DISABLE.(holdComplete := true))
    else if (s.state == Cycle || s.state == Jog) && !s.suspend.motionCancel && !s.suspend.jogCancel then
      s.(executeHold := true, suspend := if s.state == Jog then s.suspend.(jogCancel := true) else s.suspend)
    else s
  }

  function DoorOpens(s: System): System {
    var s1 :=
      if s.suspend.jogCancel then s
      else
        var s2 :=
          if s.state == SafetyDoor && s.suspend.initiateRestore then
            s.(suspend := s.suspend.(retractComplete := false, initiateRestore := false, restoreComplete := false,
                                     restartRetract := true))
          else s;
        s2.(state := SafetyDoor);
    s1.(suspend := s1.suspend.(doorAjar := true), log := s1.log + [Opened])
  }

  /** Motion cancel and feed hold proper. */
  function CancelOrHold(s: System, p: Pending): System {
    var s1 := if p.motionCancel && s.state != Jog then s.(suspend := s.suspend.(motionCancel := true)) else s;
    if p.feedHold && s1.state != SafetyDoor && s1.state != Jog then s1.(state := Hold) else s1
  }

  function HoldSection(s: System, p: Pending): System {
    if p.motionCancel || p.feedHold || p.safetyDoor then
      var s1 := CancelOrHold(EnterHold(s), p);
      var s2 := if p.safetyDoor then DoorOpens(s1) else s1;
      s2.(pending := s2.pending.(motionCancel := false, feedHold := false, safetyDoor := false))
    else s
  }

  /** A cycle start at a closed door: resume if all has been restored, else restore. */
  function DoorStart(s: System): System {
    if s.state == SafetyDoor && !s.suspend.doorAjar then
      if s.suspend.restoreComplete then s.(state := Idle, log := s.log + [Resumed])
      else if s.suspend.retractComplete then
        s.(suspend := s.suspend.(initiateRestore := true),
           log := if s.suspend.initiateRestore then s.log else s.log + [RestoreStarted])
      else s
    else s
  }

  function CycleStart(s: System, haveBlock: bool): System {
    if s.state == Idle || (s.state == Hold && s.suspend.holdComplete) then
      if s.state == Hold && StopKeyHeld(s.spindleStop) then s.(spindleStop := s.spindleStop.(restoreCycle := true))
      else
        s.(executeHold := false,
           state := if haveBlock && !s.suspend.motionCancel then Cycle else Idle,
           suspend := SUSPEND_DISABLE)
    else s
  }

  function StartSection(s: System, p: Pending, haveBlock: bool): System {
    if p.cycleStart then
      var s1 := if !p.feedHold && !p.motionCancel && !p.safetyDoor then CycleStart(DoorStart(s), haveBlock) else s;
      s1.(pending := s1.pending.(cycleStart := false))
    else s
  }

  /** The end of a cycle, or of a jog that has been cancelled, perhaps by the door. */
  function MotionEnds(s: System): System {
    var s1 := if s.suspend.jogCancel then s.(executeHold := false) else s;
    if s1.suspend.doorAjar then
      s1.(suspend := s1.suspend.(jogCancel := false, holdComplete := true), state := SafetyDoor)
    else s1.(suspend := SUSPEND_DISABLE, state := Idle)
  }

  function StopSection(s: System, p: Pending): System {
    if p.cycleStop then
      var s1 :=
        if (s.state == Hold || s.state == SafetyDoor) && !s.suspend.jogCancel then
          s.(suspend := if s.executeHold then s.suspend.(holdComplete := true) else s.suspend, executeHold := false)
        else MotionEnds(s);
      s1.(pending := s1.pending.(cycleStop := false))
    else s
  }

  /** Spindle stop works in a hold only, coolant toggles everywhere but at the door. */
  function AccessorySection(s: System, poll: Poll): System {
    var s1 :=
      if poll.spindleStopKey && s.state == Hold then
        if !StopKeyHeld(s.spindleStop) then s.(spindleStop := STOP_OVR_DISABLED.(initiate := true))
        else if s.spindleStop.enabled then s.(spindleStop := s.spindleStop.(restore := true))
        else s
      else s;
    if poll.coolantKey && (s1.state == Idle || s1.state == Cycle || s1.state == Hold)
    then s1.(coolantOn := poll.coolantTo)
    else s1
  }

  /** `protocol_exec_rt_system`: the pending commands are looked at once, and executed in order. */
  function ExecRtSystem(s: System, poll: Poll): System {
    var p := s.pending;
    AccessorySection(StopSection(StartSection(HoldSection(s, p), p, poll.haveBlock), p), poll)
  }

  // ---------------------------------------------------------------------------
  // protocol_exec_rt_suspend
  // ---------------------------------------------------------------------------

  /** Everything is switched off, and the retraction is complete. */
  function Retract(s: System): System {
    s.(spindleStop := STOP_OVR_DISABLED, spindleOn := false, coolantOn := false,
       suspend := s.suspend.(restartRetract := false, retractComplete := true),
       log := s.log + [Retracted], place := LoopEnd)
  }

  function ReadDoor(s: System, ajar: bool): System {
    if ajar then s else s.(suspend := s.suspend.(doorAjar := false), log := s.log + [ReadClosed])
  }

  /** The end of the restore, unless the door has been opened meanwhile. */
  function FinishRestore(s: System): System {
    if s.suspend.restartRetract then s.(place := LoopEnd)
    else
      s.(suspend := s.suspend.(restoreComplete := true), pending := s.pending.(cycleStart := true),
         log := s.log + [RestoreDone], place := LoopEnd)
  }

  function RestoreCoolant(s: System, see: Sight): System {
    if see.modalCoolant && !s.suspend.restartRetract then s.(coolantOn := see.restoreCoolant, place := CoolantDelay)
    else FinishRestore(s)
  }

  function RestoreSpindle(s: System, see: Sight): System {
    if see.modalSpindle && !s.suspend.restartRetract then s.(spindleOn := see.restoreSpindle, place := SpindleDelay)
    else RestoreCoolant(s, see)
  }

  /** Feed hold: the spindle may be stopped and restarted meanwhile. */
  function HoldManager(s: System, see: Sight): System {
    var o := s.spindleStop;
    var s1 :=
      if o.initiate then
        if see.modalSpindle then s.(spindleOn := false, spindleStop := STOP_OVR_DISABLED.(enabled := true))
        else s.(spindleStop := STOP_OVR_DISABLED)
      else if o.restore || o.restoreCycle then
        s.(spindleOn := if see.modalSpindle then see.restoreSpindle else s.spindleOn,
           pending := s.pending.(cycleStart := s.pending.cycleStart || o.restoreCycle),
           spindleStop := STOP_OVR_DISABLED)
      else s;
    s1.(place := LoopEnd)
  }

  /** One pass of the suspend loop, up to its poll or to a delay. */
  function SuspendPass(s: System, see: Sight): System {
    if !s.suspend.holdComplete then s.(place := LoopEnd)
    else if s.state == SafetyDoor then
      if !s.suspend.retractComplete then Retract(s)
      else
        var s1 := ReadDoor(s, see.ajar);
        if s1.suspend.initiateRestore then RestoreSpindle(s1, see) else s1.(place := LoopEnd)
    else HoldManager(s, see)
  }

  // ---------------------------------------------------------------------------
  // Runs
  // ---------------------------------------------------------------------------

  datatype Event =
    | Command(p: Pending)               // interrupts set flags, at any time
    | PollRt(poll: Poll, see: Sight)    // protocol_exec_rt_system, wherever it is called
    | Pass(see: Sight)                  // a pass of the suspend loop
    | Elapsed(see: Sight)               // a restore delay is over
    | StartJog                          // jog_execute from IDLE
    | Accessory(spindle: bool, coolant: bool)   // M3, M5, M7, M8, M9 in a program

  function Union(p: Pending, q: Pending): Pending {
    Pending(p.cycleStart || q.cycleStart, p.cycleStop || q.cycleStop, p.feedHold || q.feedHold,
            p.safetyDoor || q.safetyDoor, p.motionCancel || q.motionCancel)
  }

  predicate Delaying(s: System) {
    s.place == SpindleDelay || s.place == CoolantDelay
  }

  predicate Allowed(s: System, e: Event) {
    match e
    case Command(p) => true
    case PollRt(poll, see) => s.place != LoopTop
    case Pass(see) => s.place == LoopTop
    case Elapsed(see) => Delaying(s)
    case StartJog => s.place == Main && s.state == Idle
    case Accessory(spindle, coolant) => s.place == Main
  }

  /** What follows a delay. */
  function AfterDelay(s: System, see: Sight): System {
    if s.place == SpindleDelay then RestoreCoolant(s, see) else FinishRestore(s)
  }

  function Step(s: System, e: Event): System
    requires Allowed(s, e)
  {
    match e
    case Command(p) => s.(pending := Union(s.pending, p))
    case PollRt(poll, see) =>
      var s1 := ExecRtSystem(s, poll);
      if Delaying(s) then (if s1.suspend.restartRetract then AfterDelay(s1, see) else s1)
      else s1.(place := if s1.suspend == SUSPEND_DISABLE then Main else LoopTop)
    case Pass(see) => SuspendPass(s, see)
    case Elapsed(see) => AfterDelay(s, see)
    case StartJog => s.(state := Jog)
    case Accessory(spindle, coolant) => s.(spindleOn := spindle, coolantOn := coolant)
  }

  const PowerUp := System(Idle, SUSPEND_DISABLE, Pending(false, false, false, false, false), false, STOP_OVR_DISABLED,
                          false, false, Main, [])

  ghost predicate RunsTo(s: System, es: seq<Event>, s': System)
    decreases |es|
  {
    if es == [] then s == s' else Allowed(s, es[0]) && RunsTo(Step(s, es[0]), es[1..], s')
  }
}
