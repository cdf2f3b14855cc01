/** The real-time protocol as the main program runs it, one section of `protocol_exec_rt_system`
    and one pass of `protocol_exec_rt_suspend` at a time. */
module Protocol {
  import opened DoorModel
  import opened DoorTheorems

  class Protocol {
    var state: State               // sys.state
    var suspend: Suspend           // sys.suspend
    var pending: Pending           // sys_rt_exec_state
    var executeHold: bool          // sys.step_control
    var spindleStop: StopOverride  // sys.spindle_stop_ovr
    var spindleOn: bool
    var coolantOn: bool
    var place: Place
    var log: seq<Mark>
    ghost var undisturbed: bool    // no cycle has been resumed in the middle of a restore delay

    ghost function View(): System
      reads this
    {
      System(state, suspend, pending, executeHold, spindleStop, spindleOn, coolantOn, place, log)
    }

    ghost predicate Valid()
      reads this
    {
      undisturbed ==> Orderly(View())
    }

    constructor ()
      ensures Valid() && View() == PowerUp && undisturbed
    {
      state, suspend, pending := Idle, SUSPEND_DISABLE, Pending(false, false, false, false, false);
      executeHold, spindleStop, spindleOn, coolantOn := false, STOP_OVR_DISABLED, false, false;
      place, log, undisturbed := Main, [], true;
    }

    /** Motion is brought to a hold. */
    method BeginHold()
      modifies this`suspend, this`executeHold
      ensures View() == EnterHold(old(View()))
    {
      if state == Cycle || state == Jog {
        if !suspend.motionCancel && !suspend.jogCancel {
          executeHold := true;
          if state == Jog {
            suspend := suspend.(jogCancel := true);
          }
        }
      }
      if state == Idle {
        suspend := SUSPEND_DISABLE.(holdComplete := true);
      }
    }

    /** The door has been opened. */
    method OpenDoor()
      modifies this`state, this`suspend, this`log
      ensures View() == DoorOpens(old(View()))
    {
      if !suspend.jogCancel {
        if state == SafetyDoor {
          if suspend.initiateRestore {
            suspend := suspend.(retractComplete := false, initiateRestore := false, restoreComplete := false);
            suspend := suspend.(restartRetract := true);
          }
        }
        state := SafetyDoor;
      }
      suspend := suspend.(doorAjar := true);
      log := log + [Opened];
    }

    /** Motion cancel, feed hold and safety door. */
    method ExecuteHolds(p: Pending)
      modifies this`state, this`suspend, this`pending, this`executeHold, this`log
      ensures View() == HoldSection(old(View()), p)
    {
      hide EnterHold, DoorOpens;
      if p.motionCancel || p.feedHold || p.safetyDoor {
        BeginHold();
        if p.motionCancel {
          if state != Jog {
            suspend := suspend.(motionCancel := true);
          }
        }
        if p.feedHold {
          if state != SafetyDoor && state != Jog {
            state := Hold;
          }
        }
        if p.safetyDoor {
          OpenDoor();
        }
        pending := pending.(motionCancel := false, feedHold := false, safetyDoor := false);
      }
    }

    /** Cycle start at the door: resume from it, or start the restore. */
    method StartAtDoor()
      modifies this`state, this`suspend, this`log
      ensures View() == DoorStart(old(View()))
    {
      if state == SafetyDoor && !suspend.doorAjar {
        if suspend.restoreComplete {
          state := Idle;
          log := log + [Resumed];
        } else if suspend.retractComplete {
          log := if suspend.initiateRestore then log else log + [RestoreStarted];
          suspend := suspend.(initiateRestore := true);
        }
      }
    }

    /** Cycle start when idle, or when a hold is complete. */
    method StartCycle(haveBlock: bool)
      modifies this`state, this`suspend, this`executeHold, this`spindleStop
      ensures View() == CycleStart(old(View()), haveBlock)
    {
      if state == Idle || (state == Hold && suspend.holdComplete) {
        if state == Hold && StopKeyHeld(spindleStop) {
          spindleStop := spindleStop.(restoreCycle := true);
        } else {
          executeHold := false;
          if haveBlock && !suspend.motionCancel {
            suspend := SUSPEND_DISABLE;
            state := Cycle;
          } else {
            suspend := SUSPEND_DISABLE;
            state := Idle;
          }
        }
      }
    }

    /** Cycle start: resume at the door, or start the cycle. */
    method ExecuteStart(p: Pending, haveBlock: bool)
      modifies this`state, this`suspend, this`pending, this`executeHold, this`spindleStop, this`log
      ensures View() == StartSection(old(View()), p, haveBlock)
    {
      hide DoorStart, CycleStart;
      if p.cycleStart {
        if !p.feedHold && !p.motionCancel && !p.safetyDoor {
          StartAtDoor();
          StartCycle(haveBlock);
        }
        pending := pending.(cycleStart := false);
      }
    }

    /** The end of a cycle, or of a cancelled jog. */
    method EndMotion()
      modifies this`state, this`suspend, this`executeHold
      ensures View() == MotionEnds(old(View()))
    {
      if suspend.jogCancel {
        executeHold := false;
      }
      if suspend.doorAjar {
        suspend := suspend.(jogCancel := false);
        suspend := suspend.(holdComplete := true);
        state := SafetyDoor;
      } else {
        suspend := SUSPEND_DISABLE;
        state := Idle;
      }
    }

    /** Cycle stop: a hold, a cycle or a jog has come to its end. */
    method ExecuteStop(p: Pending)
      modifies this`state, this`suspend, this`pending, this`executeHold
      ensures View() == StopSection(old(View()), p)
    {
      hide MotionEnds;
      if p.cycleStop {
        if (state == Hold || state == SafetyDoor) && !suspend.jogCancel {
          if executeHold {
            suspend := suspend.(holdComplete := true);
          }
          executeHold := false;
        } else {
          EndMotion();
        }
        pending := pending.(cycleStop := false);
      }
    }

    method ExecuteAccessories(poll: Poll)
      modifies this`spindleStop, this`coolantOn
      ensures View() == AccessorySection(old(View()), poll)
    {
      if poll.spindleStopKey {
        if state == Hold {
          if !StopKeyHeld(spindleStop) {
            spindleStop := STOP_OVR_DISABLED.(initiate := true);
          } else if spindleStop.enabled {
            spindleStop := spindleStop.(restore := true);
          }
        }
      }
      if poll.coolantKey {
        if state == Idle || state == Cycle || state == Hold {
          coolantOn := poll.coolantTo;
        }
      }
    }

    /** `protocol_exec_rt_system`. */
    method ExecRtSystem(poll: Poll)
      modifies this`state, this`suspend, this`pending, this`executeHold, this`spindleStop, this`coolantOn, this`log
      ensures View() == DoorModel.ExecRtSystem(old(View()), poll)
    {
      hide HoldSection, StartSection, StopSection, AccessorySection;
      var p := pending;
      ExecuteHolds(p);
      ExecuteStart(p, poll.haveBlock);
      ExecuteStop(p);
      ExecuteAccessories(poll);
    }

    /** A poll by the main program, at the end of the suspend loop, or in a restore delay. */
    method Poll(poll: Poll, see: Sight)
      requires Valid() && place != LoopTop
      modifies this
      ensures Valid() && View() == Step(old(View()), PollRt(poll, see))
      ensures undisturbed == (old(undisturbed) && !ResumesInDelay(old(View()), PollRt(poll, see)))
    {
      hide DoorModel.ExecRtSystem, Orderly, DoorModel.AfterDelay, ResumesInDelay;
      ghost var s, e := View(), PollRt(poll, see);
      if undisturbed {
        StepKeepsOrderIff(s, e);
      }
      ExecRtSystem(poll);
      undisturbed := undisturbed && !ResumesInDelay(s, e);
      if place == SpindleDelay || place == CoolantDelay {
        if suspend.restartRetract {
          AfterDelay(see);
        }
      } else {
        place := if suspend == SUSPEND_DISABLE then Main else LoopTop;
      }
    }

    /** What follows a delay of the restore. */
    method AfterDelay(see: Sight)
      modifies this`suspend, this`pending, this`coolantOn, this`place, this`log
      ensures View() == DoorModel.AfterDelay(old(View()), see)
    {
      if place == SpindleDelay {
        if see.modalCoolant {
          if !suspend.restartRetract {
            coolantOn := see.restoreCoolant;
            place := CoolantDelay;
            return;
          }
        }
      }
      if !suspend.restartRetract {
        suspend := suspend.(restoreComplete := true);
        pending := pending.(cycleStart := true);
        log := log + [RestoreDone];
      }
      place := LoopEnd;
    }

    // -------------------------------------------------------------------------
    // protocol_exec_rt_suspend
    // -------------------------------------------------------------------------

    /** Spindle and coolant are switched off. */
    method RetractAll()
      modifies this`suspend, this`spindleStop, this`spindleOn, this`coolantOn, this`place, this`log
      ensures View() == Retract(old(View()))
    {
      spindleStop := STOP_OVR_DISABLED;
      spindleOn := false;
      coolantOn := false;
      suspend := suspend.(restartRetract := false);
      suspend := suspend.(retractComplete := true);
      log := log + [Retracted];
      place := LoopEnd;
    }

    /** Spindle and coolant are restored, each with a delay during which the door may open again. */
    method RestoreAll(see: Sight)
      modifies this`suspend, this`pending, this`spindleOn, this`coolantOn, this`place, this`log
      ensures View() == RestoreSpindle(old(View()), see)
    {
      if see.modalSpindle {
        if !suspend.restartRetract {
          spindleOn := see.restoreSpindle;
          place := SpindleDelay;
          return;
        }
      }
      if see.modalCoolant {
        if !suspend.restartRetract {
          coolantOn := see.restoreCoolant;
          place := CoolantDelay;
          return;
        }
      }
      if !suspend.restartRetract {
        suspend := suspend.(restoreComplete := true);
        pending := pending.(cycleStart := true);
        log := log + [RestoreDone];
      }
      place := LoopEnd;
    }

    /** The spindle may be stopped and restarted in a hold. */
    method ManageHold(see: Sight)
      modifies this`pending, this`spindleStop, this`spindleOn, this`place
      ensures View() == HoldManager(old(View()), see)
    {
      if spindleStop.initiate {
        if see.modalSpindle {
          spindleOn := false;
          spindleStop := STOP_OVR_DISABLED.(enabled := true);
        } else {
          spindleStop := STOP_OVR_DISABLED;
        }
      } else if spindleStop.restore || spindleStop.restoreCycle {
        if see.modalSpindle {
          spindleOn := see.restoreSpindle;
        }
        if spindleStop.restoreCycle {
          pending := pending.(cycleStart := true);
        }
        spindleStop := STOP_OVR_DISABLED;
      }
      place := LoopEnd;
    }

    /** One pass of the suspend loop, up to its poll or to a delay. */
    method SuspendPass(see: Sight)
      requires Valid() && place == LoopTop
      modifies this`suspend, this`pending, this`spindleStop, this`spindleOn, this`coolantOn, this`place, this`log
      ensures Valid() && View() == Step(old(View()), Pass(see))
    {
      hide Orderly, Retract, RestoreSpindle, HoldManager;
      if undisturbed {
        StepKeepsOrderIff(View(), Pass(see));
      }
      if suspend.holdComplete {
        if state == SafetyDoor {
          if !suspend.retractComplete {
            RetractAll();
          } else {
            if !see.ajar {
              suspend := suspend.(doorAjar := false);
              log := log + [ReadClosed];
            }
            if suspend.initiateRestore {
              RestoreAll(see);
            } else {
              place := LoopEnd;
            }
          }
        } else {
          ManageHold(see);
        }
      } else {
        place := LoopEnd;
      }
    }
  }
}
