/** The coordinate part of `gc_execute_line` as the program runs it. */
module GcodeParser {
  import opened NutsBolts
  import opened Words
  import opened WordOrder
  import opened WorkCoordinates

  class Parser {
    var position: seq<real>
    var coordSelect: nat
    var coordSystem: seq<real>
    var coordOffset: seq<real>
    var toolLengthOffset: real
    var stored: seq<seq<real>>       // EEPROM
    var planned: seq<Motion>         // the motions handed to mc_line, mc_arc and mc_probe_cycle

    function View(): Coordinates
      reads this
    {
      Coordinates(position, coordSelect, coordSystem, coordOffset, toolLengthOffset, stored)
    }

    ghost predicate Valid()
      reads this
    {
      Consistent(View())
    }

    /** `gc_init`, with the EEPROM as it is found. */
    constructor (stored: seq<seq<real>>)
      requires |stored| == SETTING_INDEX_G30 + 1 && forall k :: 0 <= k < |stored| ==> |stored[k]| == N_AXIS
      ensures Valid() && planned == [] && this.stored == stored
    {
      position, coordSelect, coordSystem, coordOffset := [0.0, 0.0, 0.0], 0, stored[0], [0.0, 0.0, 0.0];
      toolLengthOffset, this.stored, planned := 0.0, stored, [];
    }

    /** The target of a motion, axis by axis. */
    method ComputeTarget(p: Parse, xyz0: seq<real>, blockCoordSystem: seq<real>) returns (xyz: seq<real>)
      requires Valid() && Fits(p, View()) && xyz0 == Programmed(p) && blockCoordSystem == BlockSystem(View(), p)
      ensures xyz == Target(View(), p)
    {
      hide Programmed, BlockSystem;
      xyz := xyz0;
      for idx := 0 to N_AXIS
        invariant |xyz| == N_AXIS
        invariant forall i :: 0 <= i < idx ==> xyz[i] == Target(View(), p)[i]
        invariant forall i :: idx <= i < N_AXIS ==> xyz[i] == xyz0[i]
      {
        if idx !in p.axisWords {
          xyz := xyz[idx := position[idx]];
        } else {
          if p.block.nonModalCommand != ABSOLUTE_OVERRIDE {
            if p.block.modal.distance == 0 {
              xyz := xyz[idx := xyz[idx] + (blockCoordSystem[idx] + coordOffset[idx])];
              if idx == TOOL_LENGTH_OFFSET_AXIS {
                xyz := xyz[idx := xyz[idx] + toolLengthOffset];
              }
            } else {
              xyz := xyz[idx := xyz[idx] + position[idx]];
            }
          }
        }
      }
    }

    /** G92. */
    method ComputeOffset(p: Parse, xyz0: seq<real>, blockCoordSystem: seq<real>) returns (xyz: seq<real>)
      requires Valid() && Fits(p, View()) && xyz0 == Programmed(p) && blockCoordSystem == BlockSystem(View(), p)
      ensures xyz == NewOffset(View(), p)
    {
      hide Programmed, BlockSystem;
      xyz := xyz0;
      for idx := 0 to N_AXIS
        invariant |xyz| == N_AXIS
        invariant forall i :: 0 <= i < idx ==> xyz[i] == NewOffset(View(), p)[i]
        invariant forall i :: idx <= i < N_AXIS ==> xyz[i] == xyz0[i]
      {
        if idx in p.axisWords {
          xyz := xyz[idx := position[idx] - blockCoordSystem[idx] - xyz[idx]];
          if idx == TOOL_LENGTH_OFFSET_AXIS {
            xyz := xyz[idx := xyz[idx] - toolLengthOffset];
          }
        } else {
          xyz := xyz[idx := coordOffset[idx]];
        }
      }
    }

    /** G10 L2 and L20. */
    method ComputeSystem(p: Parse, xyz: seq<real>) returns (ijk: seq<real>)
      requires Valid() && Fits(p, View()) && xyz == Programmed(p) && G10Good(p)
      ensures ijk == NewSystem(View(), p)
    {
      hide Programmed, Trunc;
      ijk := stored[G10Select(p)];
      for idx := 0 to N_AXIS
        invariant |ijk| == N_AXIS
        invariant forall i :: 0 <= i < idx ==> ijk[i] == NewSystem(View(), p)[i]
        invariant forall i :: idx <= i < N_AXIS ==> ijk[i] == stored[G10Select(p)][i]
      {
        if idx in p.axisWords {
          if p.block.values.l == 20 {
            ijk := ijk[idx := position[idx] - coordOffset[idx] - xyz[idx]];
            if idx == TOOL_LENGTH_OFFSET_AXIS {
              ijk := ijk[idx := ijk[idx] - toolLengthOffset];
            }
          } else {
            ijk := ijk[idx := xyz[idx]];
          }
        }
      }
    }

    /** G28 and G30. */
    method ComputeHome(p: Parse, k: nat) returns (ijk: seq<real>)
      requires Valid() && Fits(p, View()) && k < |stored|
      ensures ijk == Home(View(), p, k)
    {
      ijk := stored[k];
      if p.axisWords != {} {
        for idx := 0 to N_AXIS
          invariant |ijk| == N_AXIS
          invariant forall i :: 0 <= i < idx ==> ijk[i] == Home(View(), p, k)[i]
          invariant forall i :: idx <= i < N_AXIS ==> ijk[i] == stored[k][i]
        {
          if idx !in p.axisWords {
            ijk := ijk[idx := position[idx]];
          }
        }
      }
    }

    /** Tool length offset and coordinate system selection. */
    method ExecuteOffsets(p: Parse, xyz: seq<real>, blockCoordSystem: seq<real>)
      requires Valid() && Fits(p, View()) && blockCoordSystem == BlockSystem(View(), p)
      requires p.axisCommand == ToolLengthOffset ==> xyz == Programmed(p)
      modifies this`toolLengthOffset, this`coordSelect, this`coordSystem
      ensures View() == OffsetsExecuted(old(View()), p)
    {
      hide Programmed, BlockSystem;
      if p.axisCommand == ToolLengthOffset {
        if p.block.modal.toolLength == 0 {
          toolLengthOffset := 0.0;
        } else {
          toolLengthOffset := xyz[TOOL_LENGTH_OFFSET_AXIS];
        }
      }
      if coordSelect != p.block.modal.coordSelect {
        coordSelect := p.block.modal.coordSelect;
        coordSystem := blockCoordSystem;
      }
    }

    /** The non-modal command of the line, with what has been computed for it. */
    method ExecuteNonModal(p: Parse, ghost s: Coordinates, xyz: seq<real>, ijk: seq<real>)
      requires Sized(s) && Fits(p, s) && ChecksPass(s, p) && View() == OffsetsExecuted(s, p) && Sized(View())
      requires var c := p.block.nonModalCommand;
               && (c == SET_COORDINATE_DATA ==> ijk == NewSystem(s, p))
               && (c == SET_COORDINATE_OFFSET ==> xyz == NewOffset(s, p))
               && (c == GO_HOME_0 ==> xyz == Target(s, p) && ijk == Home(s, p, SETTING_INDEX_G28))
               && (c == GO_HOME_1 ==> xyz == Target(s, p) && ijk == Home(s, p, SETTING_INDEX_G30))
      modifies this`position, this`coordSystem, this`coordOffset, this`stored, this`planned
      ensures View() == NonModalExecuted(s, OffsetsExecuted(s, p), p)
      ensures forall probe: Probe ::
                planned + OwnMotion(s, p, probe) == old(planned) + MotionsPlanned(s, p, probe)
    {
      hide Programmed, Trunc, BlockSystem, Target, NewOffset, NewSystem, Home, G10Select, OwnMotion;
      G10SelectRange(p);
      PositionKept(s, p);
      var command := p.block.nonModalCommand;
      if command == SET_COORDINATE_DATA {
        stored := stored[G10Select(p) := ijk];
        if coordSelect == G10Select(p) {
          coordSystem := ijk;
        }
      } else if command == GO_HOME_0 || command == GO_HOME_1 {
        if p.axisWords != {} {
          planned := planned + [Straight(xyz, true)];
        }
        planned := planned + [Straight(ijk, true)];
        position := ijk;
      } else if command == SET_HOME_0 {
        stored := stored[SETTING_INDEX_G28 := position];
      } else if command == SET_HOME_1 {
        stored := stored[SETTING_INDEX_G30 := position];
      } else if command == SET_COORDINATE_OFFSET {
        coordOffset := xyz;
      } else if command == RESET_COORDINATE_OFFSET {
        coordOffset := [0.0, 0.0, 0.0];
      }
    }

    /** The checks and the execution of an accepted line; false if the line is refused. A probe cycle
        comes to what the probe says. */
    method ExecuteLine(p: Parse, probe: Probe) returns (ok: bool)
      requires Valid() && Fits(p, View())
      modifies this
      ensures Valid()
      ensures ok == ChecksPass(old(View()), p)
      ensures if ok then View() == Executed(old(View()), p, probe)
              && planned == old(planned) + MotionsPlanned(old(View()), p, probe)
              else View() == old(View()) && planned == old(planned)
    {
      hide Programmed, Trunc, BlockSystem, Target, NewOffset, NewSystem, Home, OffsetsExecuted, NonModalExecuted,
           MotionsPlanned, G10Good;
      ghost var s := View();
      ok := ChecksPass(View(), p);
      if !ok {
        return;
      }
      StaysConsistent(s, p, probe);
      OffsetsSized(s, p);
      NonModalSized(s, p);
      var xyz, ijk := Programmed(p), [];
      var blockCoordSystem := BlockSystem(View(), p);
      var command := p.block.nonModalCommand;
      if command == SET_COORDINATE_DATA {
        ijk := ComputeSystem(p, xyz);
      } else if command == SET_COORDINATE_OFFSET {
        xyz := ComputeOffset(p, xyz, blockCoordSystem);
      } else {
        if p.axisCommand != ToolLengthOffset {
          xyz := ComputeTarget(p, xyz, blockCoordSystem);
        }
        if command == GO_HOME_0 || command == GO_HOME_1 {
          ijk := ComputeHome(p, if command == GO_HOME_0 then SETTING_INDEX_G28 else SETTING_INDEX_G30);
        }
      }
      ExecuteOffsets(p, xyz, blockCoordSystem);
      ExecuteNonModal(p, s, xyz, ijk);
      if Moves(p) {
        var motion := p.block.modal.motion;
        if motion == MOTION_MODE_LINEAR {
          planned := planned + [Straight(xyz, false)];
        } else if motion == MOTION_MODE_SEEK {
          planned := planned + [Straight(xyz, true)];
        } else {
          planned := planned + [Arc(xyz, motion == MOTION_MODE_CW_ARC, PlaneOf(p.block.modal.planeSelect))];
        }
        position := xyz;
      } else if Probes(p) {
        if probe.started {
          planned := planned + [MotionOf(p.block.modal, xyz)];
        }
        position := ProbedPosition(probe, xyz, position);
      }
    }
  }

  lemma OffsetsSized(s: Coordinates, p: Parse)
    requires Sized(s) && Fits(p, s)
    ensures Sized(OffsetsExecuted(s, p)) && OffsetsExecuted(s, p).position == s.position
  {
    hide Programmed;
  }

  lemma NonModalSized(s: Coordinates, p: Parse)
    requires Sized(s) && Fits(p, s) && ChecksPass(s, p)
    ensures Sized(OffsetsExecuted(s, p)) && Sized(NonModalExecuted(s, OffsetsExecuted(s, p), p))
  {
    hide Programmed;
  }

  lemma PositionKept(s: Coordinates, p: Parse)
    requires Sized(s) && Fits(p, s)
    ensures OffsetsExecuted(s, p).position == s.position
  {
    hide Programmed, BlockSystem;
  }

  lemma G10SelectRange(p: Parse)
    requires 0 <= p.block.modal.coordSelect < N_COORDINATE_SYSTEM
    ensures G10Good(p) ==> 0 <= G10Select(p) < N_COORDINATE_SYSTEM
  {
    hide Trunc;
  }
}
