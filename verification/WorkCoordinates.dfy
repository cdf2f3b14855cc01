/** Machine position and work coordinates: how an accepted g-code line moves and offsets them
    (gcode.c, steps 12 to 20). */
module WorkCoordinates {
  import opened NutsBolts
  import opened Words
  import opened WordOrder

  const N_COORDINATE_SYSTEM := 6
  const SETTING_INDEX_G28 := 6
  const SETTING_INDEX_G30 := 7
  const MM_PER_INCH := 25.4
  const TOOL_LENGTH_OFFSET_AXIS := 2

  const SET_COORDINATE_DATA := 10       // G10
  const GO_HOME_0 := 28                 // G28
  const SET_HOME_0 := 38                // G28.1
  const GO_HOME_1 := 30                 // G30
  const SET_HOME_1 := 40                // G30.1
  const ABSOLUTE_OVERRIDE := 53         // G53
  const SET_COORDINATE_OFFSET := 92     // G92
  const RESET_COORDINATE_OFFSET := 102  // G92.1
  const MOTION_MODE_SEEK := 0           // G0
  const MOTION_MODE_LINEAR := 1         // G1
  const MOTION_MODE_CW_ARC := 2         // G2
  const MOTION_MODE_CCW_ARC := 3        // G3
  const MOTION_MODE_PROBE_TOWARD := 140 // G38.2
  const MOTION_MODE_PROBE_TOWARD_NO_ERROR := 141  // G38.3
  const MOTION_MODE_PROBE_AWAY := 142   // G38.4
  const MOTION_MODE_PROBE_AWAY_NO_ERROR := 143    // G38.5
  const MOTION_MODE_NONE := 80          // G80
  const PLANE_SELECT_XY := 0            // G17
  const PLANE_SELECT_ZX := 1            // G18
  const PLANE_SELECT_YZ := 2            // G19

  /** The coordinate part of the parser state, and the coordinate data kept in EEPROM. */
  datatype Coordinates = Coordinates(
    position: seq<real>,          // where the parser takes the machine to be
    coordSelect: nat,
    coordSystem: seq<real>,
    coordOffset: seq<real>,       // G92
    toolLengthOffset: real,
    stored: seq<seq<real>>)

  predicate Sized(s: Coordinates) {
    && |s.position| == |s.coordSystem| == |s.coordOffset| == N_AXIS
    && |s.stored| == SETTING_INDEX_G30 + 1 && s.coordSelect < N_COORDINATE_SYSTEM
    && forall k :: 0 <= k < |s.stored| ==> |s.stored[k]| == N_AXIS
  }

  /** The active coordinate system is the one kept in EEPROM. */
  predicate Consistent(s: Coordinates) {
    Sized(s) && s.coordSystem == s.stored[s.coordSelect]
  }

  function Tool(s: Coordinates, i: nat): real {
    if i == TOOL_LENGTH_OFFSET_AXIS then s.toolLengthOffset else 0.0
  }

  /** The position as the operator sees it. */
  function WorkPosition(s: Coordinates, i: nat): real
    requires Sized(s) && i < N_AXIS
  {
    s.position[i] - s.coordSystem[i] - s.coordOffset[i] - Tool(s, i)
  }

  /** The line is one the word loop accepts, read in the modal state `s`. */
  predicate Fits(p: Parse, s: Coordinates) {
    && p.axisWords <= {0, 1, 2} && 0 <= p.block.modal.coordSelect < N_COORDINATE_SYSTEM
    && (GROUP_G12 !in p.commandWords ==> p.block.modal.coordSelect == s.coordSelect)
    && (p.axisCommand == ToolLengthOffset ==> p.block.modal.toolLength == 0 || p.block.modal.toolLength == 1)
    && (TakesAxisWords(p.block.nonModalCommand) ==> p.axisCommand == NonModal)
  }

  predicate TakesAxisWords(command: int) {
    command == SET_COORDINATE_DATA || command == GO_HOME_0 || command == GO_HOME_1 || command == SET_COORDINATE_OFFSET
  }

  /** The axis words in millimetres. */
  function Programmed(p: Parse): (v: seq<real>)
    ensures |v| == N_AXIS
  {
    var scale := if p.block.modal.units == 1 then MM_PER_INCH else 1.0;
    [if 0 in p.axisWords then p.block.values.xyz.x * scale else p.block.values.xyz.x,
     if 1 in p.axisWords then p.block.values.xyz.y * scale else p.block.values.xyz.y,
     if 2 in p.axisWords then p.block.values.xyz.z * scale else p.block.values.xyz.z]
  }

  /** Who claims the axis words; without an explicit command the active motion mode does. */
  function AxisCommandOf(p: Parse): AxisCommand {
    if p.axisWords != {} && p.axisCommand == NoCommand then MotionMode else p.axisCommand
  }

  /** The coordinate system the line is to be understood in. */
  function BlockSystem(s: Coordinates, p: Parse): (v: seq<real>)
    requires Sized(s) && Fits(p, s)
    ensures |v| == N_AXIS
  {
    if GROUP_G12 in p.commandWords && s.coordSelect != p.block.modal.coordSelect
    then s.stored[p.block.modal.coordSelect] else s.coordSystem
  }

  function Target(s: Coordinates, p: Parse): (v: seq<real>)
    requires Sized(s) && Fits(p, s)
    ensures |v| == N_AXIS
  {
    seq(N_AXIS, i requires 0 <= i < N_AXIS =>
      if i !in p.axisWords then s.position[i]
      else if p.block.nonModalCommand == ABSOLUTE_OVERRIDE then Programmed(p)[i]
      else if p.block.modal.distance == 0 then
        Programmed(p)[i] + BlockSystem(s, p)[i] + s.coordOffset[i] + Tool(s, i)
      else Programmed(p)[i] + s.position[i])
  }

  /** G92: the offset that makes the present position the programmed one. */
  function NewOffset(s: Coordinates, p: Parse): (v: seq<real>)
    requires Sized(s) && Fits(p, s)
    ensures |v| == N_AXIS
  {
    seq(N_AXIS, i requires 0 <= i < N_AXIS =>
      if i in p.axisWords then s.position[i] - BlockSystem(s, p)[i] - Programmed(p)[i] - Tool(s, i)
      else s.coordOffset[i])
  }

  /** The coordinate system G10 refers to; the P word is kept in eight bits. */
  function G10Select(p: Parse): int {
    var k := Trunc(p.block.values.p) % 256;
    if k > 0 then k - 1 else p.block.modal.coordSelect
  }

  predicate G10Good(p: Parse) {
    && p.axisWords != {} && (WORD_P in p.valueWords || WORD_L in p.valueWords)
    && Trunc(p.block.values.p) % 256 <= N_COORDINATE_SYSTEM
    && (p.block.values.l == 20 || (p.block.values.l == 2 && WORD_R !in p.valueWords))
  }

  function NewSystem(s: Coordinates, p: Parse): (v: seq<real>)
    requires Sized(s) && Fits(p, s) && G10Good(p)
    ensures |v| == N_AXIS
  {
    seq(N_AXIS, i requires 0 <= i < N_AXIS =>
      if i !in p.axisWords then s.stored[G10Select(p)][i]
      else if p.block.values.l == 20 then s.position[i] - s.coordOffset[i] - Programmed(p)[i] - Tool(s, i)
      else Programmed(p)[i])
  }

  /** The line passes the checks that concern coordinates. */
  predicate ChecksPass(s: Coordinates, p: Parse) {
    && (p.axisCommand == ToolLengthOffset && p.block.modal.toolLength == 1 ==> p.axisWords == {TOOL_LENGTH_OFFSET_AXIS})
    && (p.block.nonModalCommand == SET_COORDINATE_DATA ==> G10Good(p))
    && (p.block.nonModalCommand == SET_COORDINATE_OFFSET ==> p.axisWords != {})
    && (p.block.nonModalCommand == ABSOLUTE_OVERRIDE ==> p.block.modal.motion == 0 || p.block.modal.motion == 1)
    && (p.block.modal.motion == MOTION_MODE_NONE ==> p.axisWords == {})
  }

  /** Does the line make a move: straight, or an arc? */
  predicate Moves(p: Parse) {
    && 0 <= p.block.modal.motion <= 3 && AxisCommandOf(p) == MotionMode
    && (p.axisWords != {} || !(p.block.modal.motion == 0 || p.block.modal.motion == 1))
  }

  /** Does it probe (G38.x)? */
  predicate Probes(p: Parse) {
    && !(0 <= p.block.modal.motion <= 3) && p.block.modal.motion != MOTION_MODE_NONE
    && AxisCommandOf(p) == MotionMode
  }

  /** What a probe cycle comes to: was its motion planned at all, and where is the parser then (at the
      target, where the machine has stopped, or where it was). */
  datatype Probe = Probe(started: bool, end: ProbeEnd)
  datatype ProbeEnd = AtTarget | Stopped(x: real, y: real, z: real) | NotMoved

  function ProbedPosition(probe: Probe, target: seq<real>, position: seq<real>): (v: seq<real>)
    requires |target| == |position| == N_AXIS
    ensures |v| == N_AXIS
  {
    match probe.end
    case AtTarget => target
    case Stopped(x, y, z) => [x, y, z]
    case NotMoved => position
  }

  /** What the line does, in the order of execution: tool length, coordinate system, the
      non-modal command, and the motion: a straight move or an arc, which both end at the target,
      or a probe cycle, which ends where it ends. */
  function Executed(s: Coordinates, p: Parse, probe: Probe): Coordinates
    requires Sized(s) && Fits(p, s) && ChecksPass(s, p)
  {
    var t := NonModalExecuted(s, OffsetsExecuted(s, p), p);
    if Moves(p) then t.(position := Target(s, p))
    else if Probes(p) then t.(position := ProbedPosition(probe, Target(s, p), t.position))
    else t
  }

  function OffsetsExecuted(s: Coordinates, p: Parse): Coordinates
    requires Sized(s) && Fits(p, s)
  {
    var t :=
      if p.axisCommand == ToolLengthOffset then
        s.(toolLengthOffset := if p.block.modal.toolLength == 0 then 0.0 else Programmed(p)[TOOL_LENGTH_OFFSET_AXIS])
      else s;
    t.(coordSystem := if s.coordSelect != p.block.modal.coordSelect then BlockSystem(s, p) else s.coordSystem,
       coordSelect := p.block.modal.coordSelect)
  }

  /** A motion as the parser hands it on: to `mc_line`, `mc_arc` or `mc_probe_cycle`. */
  datatype Motion =
    | Straight(target: seq<real>, rapid: bool)
    | Arc(target: seq<real>, clockwise: bool, plane: Plane)
    | Probing(target: seq<real>, away: bool, noError: bool)

  /** The axes of an arc, the last one linear. */
  datatype Plane = Plane(axis0: nat, axis1: nat, axisLinear: nat)

  function PlaneOf(planeSelect: int): Plane {
    if planeSelect == PLANE_SELECT_XY then Plane(0, 1, 2)
    else if planeSelect == PLANE_SELECT_ZX then Plane(2, 0, 1)
    else Plane(1, 2, 0)
  }

  function MotionOf(modal: Modal, target: seq<real>): Motion {
    var m := modal.motion;
    if m == MOTION_MODE_LINEAR then Straight(target, false)
    else if m == MOTION_MODE_SEEK then Straight(target, true)
    else if m == MOTION_MODE_CW_ARC || m == MOTION_MODE_CCW_ARC then
      Arc(target, m == MOTION_MODE_CW_ARC, PlaneOf(modal.planeSelect))
    else
      Probing(target, m == MOTION_MODE_PROBE_AWAY || m == MOTION_MODE_PROBE_AWAY_NO_ERROR,
              m == MOTION_MODE_PROBE_TOWARD_NO_ERROR || m == MOTION_MODE_PROBE_AWAY_NO_ERROR)
  }

  /** The motions of a line, in order. */
  function MotionsPlanned(s: Coordinates, p: Parse, probe: Probe): seq<Motion>
    requires Sized(s) && Fits(p, s) && ChecksPass(s, p)
  {
    var c := p.block.nonModalCommand;
    var homing :=
      if c == GO_HOME_0 || c == GO_HOME_1 then
        (if p.axisWords != {} then [Straight(Target(s, p), true)] else [])
        + [Straight(Home(s, p, if c == GO_HOME_0 then SETTING_INDEX_G28 else SETTING_INDEX_G30), true)]
      else [];
    homing + OwnMotion(s, p, probe)
  }

  /** The motion of the line's motion mode. */
  function OwnMotion(s: Coordinates, p: Parse, probe: Probe): seq<Motion>
    requires Sized(s) && Fits(p, s)
  {
    if Moves(p) || (Probes(p) && probe.started) then [MotionOf(p.block.modal, Target(s, p))] else []
  }

  function NonModalExecuted(s: Coordinates, t: Coordinates, p: Parse): Coordinates
    requires Sized(s) && Fits(p, s) && ChecksPass(s, p) && Sized(t)
  {
    var c := p.block.nonModalCommand;
    if c == SET_COORDINATE_DATA then
      var t1 := t.(stored := t.stored[G10Select(p) := NewSystem(s, p)]);
      if t.coordSelect == G10Select(p) then t1.(coordSystem := NewSystem(s, p)) else t1
    else if c == GO_HOME_0 || c == GO_HOME_1 then
      t.(position := Home(s, p, if c == GO_HOME_0 then SETTING_INDEX_G28 else SETTING_INDEX_G30))
    else if c == SET_HOME_0 then t.(stored := t.stored[SETTING_INDEX_G28 := s.position])
    else if c == SET_HOME_1 then t.(stored := t.stored[SETTING_INDEX_G30 := s.position])
    else if c == SET_COORDINATE_OFFSET then t.(coordOffset := NewOffset(s, p))
    else if c == RESET_COORDINATE_OFFSET then t.(coordOffset := [0.0, 0.0, 0.0])
    else t
  }

  /** Where G28 and G30 lead: home, on the axes that are given, or on all. */
  function Home(s: Coordinates, p: Parse, k: nat): (v: seq<real>)
    requires Sized(s) && k < |s.stored|
    ensures |v| == N_AXIS
  {
    if p.axisWords == {} then s.stored[k]
    else seq(N_AXIS, i requires 0 <= i < N_AXIS => if i in p.axisWords then s.stored[k][i] else s.position[i])
  }

  // ---------------------------------------------------------------------------
  // What is promised
  // ---------------------------------------------------------------------------

  /** The active coordinate system stays the one kept in EEPROM. */
  lemma StaysConsistent(s: Coordinates, p: Parse, probe: Probe)
    requires Consistent(s) && Fits(p, s) && ChecksPass(s, p)
    ensures Consistent(Executed(s, p, probe))
  {
    hide Programmed;
  }

  /** G92: the programmed axes show the programmed values from now on, and nothing moves. */
  lemma OffsetShowsProgrammed(s: Coordinates, p: Parse, probe: Probe, i: nat)
    requires Sized(s) && Fits(p, s) && ChecksPass(s, p) && i < N_AXIS
    requires p.block.nonModalCommand == SET_COORDINATE_OFFSET
    ensures var s' := Executed(s, p, probe);
            && s'.position == s.position
            && (i in p.axisWords ==> WorkPosition(s', i) == Programmed(p)[i])
            && (i !in p.axisWords && s'.coordSelect == s.coordSelect ==> WorkPosition(s', i) == WorkPosition(s, i))
  {
    hide Programmed;
  }

  /** G10 L20, on the coordinate system that is active after the line: likewise. */
  lemma SystemShowsProgrammed(s: Coordinates, p: Parse, probe: Probe, i: nat)
    requires Consistent(s) && Fits(p, s) && ChecksPass(s, p) && i < N_AXIS
    requires p.block.nonModalCommand == SET_COORDINATE_DATA && p.block.values.l == 20
    ensures var s' := Executed(s, p, probe);
            && s'.position == s.position
            && (G10Select(p) == p.block.modal.coordSelect && i in p.axisWords ==>
                WorkPosition(s', i) == Programmed(p)[i])
            && ((G10Select(p) != p.block.modal.coordSelect || i !in p.axisWords) && s'.coordSelect == s.coordSelect ==>
                  WorkPosition(s', i) == WorkPosition(s, i))
  {
    hide Programmed, Trunc;
  }

  /** An absolute move shows the programmed value on every programmed axis EXACTLY UNLESS the
      same line clears a G92 offset that is not zero on that axis: G92.1 is executed before the
      motion, but the target has been computed with the offset. */
  lemma MoveShowsProgrammedIff(s: Coordinates, p: Parse, probe: Probe, i: nat)
    requires Sized(s) && Fits(p, s) && ChecksPass(s, p) && i in p.axisWords && i < N_AXIS
    requires Moves(p) && p.block.modal.distance == 0
    requires p.block.nonModalCommand != ABSOLUTE_OVERRIDE
    ensures WorkPosition(Executed(s, p, probe), i) == Programmed(p)[i] <==>
            !(p.block.nonModalCommand == RESET_COORDINATE_OFFSET && s.coordOffset[i] != 0.0)
  {
    hide Programmed;
  }

  /** G53: the programmed value is the machine position. */
  lemma AbsoluteOverrideMoves(s: Coordinates, p: Parse, probe: Probe, i: nat)
    requires Sized(s) && Fits(p, s) && ChecksPass(s, p) && i in p.axisWords && i < N_AXIS
    requires Moves(p) && p.block.nonModalCommand == ABSOLUTE_OVERRIDE
    ensures Executed(s, p, probe).position[i] == Programmed(p)[i]
  {
    hide Programmed;
  }

  /** G91: the machine moves by the programmed distance, and the work position with it. */
  lemma IncrementalMoves(s: Coordinates, p: Parse, probe: Probe, i: nat)
    requires Sized(s) && Fits(p, s) && ChecksPass(s, p) && i < N_AXIS
    requires Moves(p) && p.block.modal.distance == 1 && p.block.nonModalCommand == 0
    ensures var s' := Executed(s, p, probe); var d := if i in p.axisWords then Programmed(p)[i] else 0.0;
            && s'.position[i] == s.position[i] + d
            && (s'.coordSelect == s.coordSelect ==> WorkPosition(s', i) == WorkPosition(s, i) + d)
  {
    hide Programmed;
  }

  /** OFFSETS DO NOT MOVE THE MACHINE: a line without a motion of its own, and other than G28 and
      G30, leaves the position alone, whatever it does to the offsets. */
  lemma OffsetsDoNotMove(s: Coordinates, p: Parse, probe: Probe)
    requires Sized(s) && Fits(p, s) && ChecksPass(s, p) && !Moves(p) && !Probes(p)
    requires p.block.nonModalCommand != GO_HOME_0 && p.block.nonModalCommand != GO_HOME_1
    ensures Executed(s, p, probe).position == s.position
  {
    hide Programmed;
  }

  // ---------------------------------------------------------------------------
  // Every accepted line is one of these
  // ---------------------------------------------------------------------------

  /** What the words of some groups can be. */
  lemma WordsOfGroups(w: Word)
    requires Read(w).Accepted?
    ensures Read(w).key == Group(GROUP_G12) ==> 0 <= Read(w).number < N_COORDINATE_SYSTEM
    ensures Read(w).key == Group(GROUP_G8) ==> 0 <= Read(w).number <= 1
    ensures Read(w).key == Group(GROUP_G0) && TakesAxisWords(Read(w).number) ==> Read(w).claim == NonModal
    ensures Read(w).claim == ToolLengthOffset ==> Read(w).key == Group(GROUP_G8)
  {
    hide IntValue, Mantissa, Trunc;
  }

  lemma {:induction false} SelectedFrom(ws: seq<Word>, test: Test)
    ensures forall w :: w in Select(ws, test) <==> w in ws && Passes(w, test)
  {
    hide Passes;
    if ws != [] {
      SelectedFrom(ws[1..], test);
      assert forall w :: w in ws <==> w == ws[0] || w in ws[1..];
    }
  }

  /** The word picked for a key, if there is one. */
  lemma Picked(ws: seq<Word>, key: Key, otherwise: int)
    ensures if Given(ws, key) then exists w :: w in ws && HasNumber(w, key, PickNumber(ws, key, otherwise))
            else PickNumber(ws, key, otherwise) == otherwise
  {
    SelectedFrom(ws, HasKey(key));
    hide Select, Read;
    if Given(ws, key) {
      var w := Select(ws, HasKey(key))[0];
      assert w in ws && HasNumber(w, key, PickNumber(ws, key, otherwise));
    }
  }

  predicate HasNumber(w: Word, key: Key, number: int) {
    Read(w).Accepted? && Read(w).key == key && Read(w).number == number
  }

  lemma ClaimIs(ws: seq<Word>, w: Word)
    requires Acceptable(ws) && w in ws && Read(w).Accepted? && Read(w).claim != NoCommand
    ensures Claim(ws) == Read(w).claim
  {
    SelectedFrom(ws, Claims);
    hide Select, Read;
    assert w in Select(ws, Claims);
    assert Select(ws, Claims) == [w];
  }

  lemma Claimant(ws: seq<Word>)
    ensures Claim(ws) == NoCommand || exists w :: w in ws && Read(w).Accepted? && Read(w).claim == Claim(ws)
  {
    SelectedFrom(ws, Claims);
    hide Select, Read;
    if Select(ws, Claims) != [] {
      assert Select(ws, Claims)[0] in Select(ws, Claims);
    }
  }

  /** What the word loop accepts, starting from the parser's modal state, is a fitting line. */
  lemma AcceptedLinesFit(base: Block, ws: seq<Word>, s: Coordinates)
    requires Acceptable(ws) && Sized(s)
    requires base.nonModalCommand == 0 && base.modal.coordSelect == s.coordSelect
    ensures Fits(Meaning(base, ws), s)
  {
    hide Select, Read, Acceptable, PickValue, ValuesOf;
    Picked(ws, Group(GROUP_G12), base.modal.coordSelect);
    Picked(ws, Group(GROUP_G8), base.modal.toolLength);
    Picked(ws, Group(GROUP_G0), base.nonModalCommand);
    Claimant(ws);
    forall w | w in ws && Read(w).Accepted? && Read(w).claim != NoCommand ensures Claim(ws) == Read(w).claim {
      ClaimIs(ws, w);
    }
    forall w | w in ws && Read(w).Accepted? ensures
      && (Read(w).key == Group(GROUP_G12) ==> 0 <= Read(w).number < N_COORDINATE_SYSTEM)
      && (Read(w).key == Group(GROUP_G8) ==> 0 <= Read(w).number <= 1)
      && (Read(w).key == Group(GROUP_G0) && TakesAxisWords(Read(w).number) ==> Read(w).claim == NonModal)
      && (Read(w).claim == ToolLengthOffset ==> Read(w).key == Group(GROUP_G8))
    {
      WordsOfGroups(w);
    }
    ToolLengthGiven(ws);
    hide Claim, PickNumber, Given;
  }

  lemma ToolLengthGiven(ws: seq<Word>)
    ensures Claim(ws) == ToolLengthOffset ==> Given(ws, Group(GROUP_G8))
  {
    hide Select, Read;
    Claimant(ws);
    if Claim(ws) == ToolLengthOffset {
      var w :| w in ws && Read(w).Accepted? && Read(w).claim == ToolLengthOffset;
      WordsOfGroups(w);
      SelectedFrom(ws, HasKey(Group(GROUP_G8)));
      assert w in Select(ws, HasKey(Group(GROUP_G8)));
    }
  }
}
