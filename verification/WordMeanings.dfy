/** What the words of an accepted line mean for what the parser then does, word by word: RS274/NGC,
    version 3, sections 3.5 to 3.7. */
module WordMeanings {
  import opened NutsBolts
  import opened Words
  import opened WordOrder
  import opened WorkCoordinates

  /** The command G`n`, or G`n`.`h` with hundredths, to the nearest of them. */
  predicate IsG(w: Word, n: nat, h: nat) {
    w.letter == 'G' && n as real <= w.value && -0.5 < 100.0 * (w.value - n as real) - h as real < 0.5
  }

  predicate IsM(w: Word, n: nat) {
    w.letter == 'M' && n as real <= w.value < n as real + 0.005
  }

  lemma ReadNumber(value: real, n: nat, h: nat)
    requires n < 256 && h < 100 && n as real <= value && -0.5 < 100.0 * (value - n as real) - h as real < 0.5
    ensures IntValue(value) == n && Mantissa(value) == h
  {
    assert value < n as real + 1.0;
    assert Trunc(value) == n;
  }

  /** Every word of an accepted line is in force: its number or value is the one picked for its key. */
  lemma InForce(ws: seq<Word>, w: Word)
    requires Acceptable(ws) && w in ws
    ensures Read(w).Accepted? && Given(ws, Read(w).key)
    ensures forall otherwise :: PickNumber(ws, Read(w).key, otherwise) == Read(w).number
    ensures forall otherwise :: PickValue(ws, Read(w).key, otherwise) == Read(w).value
  {
    SelectedFrom(ws, Refuses);
    SelectedFrom(ws, HasKey(Read(w).key));
    hide Read, Select;
    assert w !in Select(ws, Refuses);
    var chosen := Select(ws, HasKey(Read(w).key));
    assert w in chosen && |chosen| <= 1;
    assert chosen == [w];
  }

  lemma ClaimInForce(ws: seq<Word>, w: Word)
    requires Acceptable(ws) && w in ws && Read(w).Accepted?
    ensures Read(w).claim != NoCommand ==> Claim(ws) == Read(w).claim
  {
    hide Read, Acceptable, Claim;
    if Read(w).claim != NoCommand {
      ClaimIs(ws, w);
    }
  }

  /** A G word in force, as it is read by itself. */
  lemma GInForce(ws: seq<Word>, w: Word, n: nat, h: nat)
    requires Acceptable(ws) && w in ws && IsG(w, n, h) && n < 256 && h < 100
    ensures ReadG(n, h).Accepted? && Given(ws, ReadG(n, h).key)
    ensures forall otherwise :: PickNumber(ws, ReadG(n, h).key, otherwise) == ReadG(n, h).number
    ensures ReadG(n, h).claim != NoCommand ==> Claim(ws) == ReadG(n, h).claim
  {
    ReadNumber(w.value, n, h);
    InForce(ws, w);
    ClaimInForce(ws, w);
    hide Select, Acceptable, Given, PickNumber, PickValue, ReadG, IntValue, Mantissa, Claim;
  }

  lemma MInForce(ws: seq<Word>, w: Word, n: nat)
    requires Acceptable(ws) && w in ws && IsM(w, n) && n < 256
    ensures ReadM(n, 0).Accepted? && Given(ws, ReadM(n, 0).key)
    ensures forall otherwise :: PickNumber(ws, ReadM(n, 0).key, otherwise) == ReadM(n, 0).number
  {
    ReadNumber(w.value, n, 0);
    InForce(ws, w);
    hide Select, Acceptable, Given, PickNumber, PickValue, ReadM, IntValue, Mantissa;
  }

  /** The modal groups of a line, each as far as a command of it is given. */
  lemma GroupPicks(base: Block, ws: seq<Word>)
    ensures var p, m := Meaning(base, ws), Meaning(base, ws).block.modal;
            && p.block.nonModalCommand == PickNumber(ws, Group(GROUP_G0), base.nonModalCommand)
            && m.motion == PickNumber(ws, Group(GROUP_G1), base.modal.motion)
            && m.planeSelect == PickNumber(ws, Group(GROUP_G2), base.modal.planeSelect)
            && m.distance == PickNumber(ws, Group(GROUP_G3), base.modal.distance)
            && m.feedRate == PickNumber(ws, Group(GROUP_G5), base.modal.feedRate)
            && m.units == PickNumber(ws, Group(GROUP_G6), base.modal.units)
            && m.toolLength == PickNumber(ws, Group(GROUP_G8), base.modal.toolLength)
            && m.coordSelect == PickNumber(ws, Group(GROUP_G12), base.modal.coordSelect)
            && m.programFlow == Flow(ws, base.modal.programFlow)
            && m.spindle == PickNumber(ws, Group(GROUP_M7), base.modal.spindle)
            && m.coolant == PickNumber(ws, Group(GROUP_M8), base.modal.coolant)
            && p.axisCommand == Claim(ws) && (GROUP_G12 in p.commandWords <==> Given(ws, Group(GROUP_G12)))
  {
    hide PickNumber, PickValue, ThreeOf, Flow, Claim, Given, AxisMask;
  }

  // ---------------------------------------------------------------------------
  // Motion
  // ---------------------------------------------------------------------------

  lemma MotionNumber(base: Block, ws: seq<Word>, w: Word, n: nat, h: nat)
    requires Acceptable(ws) && w in ws && IsG(w, n, h)
    requires (n <= 3 && h == 0) || (n == 80 && h == 0) || (n == 38 && (h == 20 || h == 30 || h == 40 || h == 50))
    ensures var p := Meaning(base, ws);
            && p.block.modal.motion == (if n == 38 then 138 + h / 10 else n)
            && (n != 80 ==> p.axisCommand == MotionMode)
  {
    hide Acceptable, Given, PickNumber, PickValue, Claim, Meaning, Select, Read, IsG, Target, Fits, Flow;
    GInForce(ws, w, n, h);
    GroupPicks(base, ws);
  }

  /** G0 TO G3 ARE THE MOTION EXECUTED: a rapid, a feed, an arc clockwise or counter-clockwise, each to the
      target of the line; and G80 none. */
  lemma MotionMeans(base: Block, ws: seq<Word>, w: Word, n: nat, s: Coordinates, probe: Probe)
    requires Acceptable(ws) && w in ws && IsG(w, n, 0) && (n <= 3 || n == 80)
    requires Sized(s) && Fits(Meaning(base, ws), s)
    ensures var p := Meaning(base, ws); var own := OwnMotion(s, p, probe);
            && (n == 80 ==> own == [])
            && (p.axisWords != {} ==>
                  && (n == 0 ==> own == [Straight(Target(s, p), true)])
                  && (n == 1 ==> own == [Straight(Target(s, p), false)])
                  && (n == 2 ==> own == [Arc(Target(s, p), true, PlaneOf(p.block.modal.planeSelect))])
                  && (n == 3 ==> own == [Arc(Target(s, p), false, PlaneOf(p.block.modal.planeSelect))]))
  {
    hide Acceptable, Given, PickNumber, PickValue, Claim, Meaning, Select, Read, IsG, Target, Fits, Flow;
    MotionNumber(base, ws, w, n, 0);
  }

  /** G38.2 to G38.5 probe, towards the workpiece or away from it, with an error if nothing is found or without. */
  lemma ProbeMeans(base: Block, ws: seq<Word>, w: Word, h: nat, s: Coordinates, probe: Probe)
    requires Acceptable(ws) && w in ws && IsG(w, 38, h) && (h == 20 || h == 30 || h == 40 || h == 50)
    requires Sized(s) && Fits(Meaning(base, ws), s) && probe.started
    ensures var p := Meaning(base, ws);
            OwnMotion(s, p, probe) == [Probing(Target(s, p), h == 40 || h == 50, h == 30 || h == 50)]
  {
    hide Acceptable, Given, PickNumber, PickValue, Claim, Meaning, Select, Read, IsG, Target, Fits, Flow;
    MotionNumber(base, ws, w, 38, h);
  }

  /** G17 to G19 choose the plane of an arc, its linear axis being Z, Y or X. */
  lemma PlaneMeans(base: Block, ws: seq<Word>, w: Word, n: nat)
    requires Acceptable(ws) && w in ws && IsG(w, n, 0) && 17 <= n <= 19
    ensures var plane := PlaneOf(Meaning(base, ws).block.modal.planeSelect);
            && (n == 17 ==> plane == Plane(0, 1, 2)) && (n == 18 ==> plane == Plane(2, 0, 1))
            && (n == 19 ==> plane == Plane(1, 2, 0))
  {
    hide Acceptable, Given, PickNumber, PickValue, Claim, Meaning, Select, Read, IsG, Target, Fits, Flow;
    GInForce(ws, w, n, 0);
    GroupPicks(base, ws);
  }

  // ---------------------------------------------------------------------------
  // Axis words
  // ---------------------------------------------------------------------------

  /** The axis a letter names. */
  predicate IsAxis(letter: char, i: nat) {
    (letter == 'X' && i == 0) || (letter == 'Y' && i == 1) || (letter == 'Z' && i == 2)
  }

  lemma LetterReads(w: Word)
    requires Read(w).Accepted?
    ensures forall i :: IsAxis(w.letter, i) ==> Read(w).key == Value(WORD_X + i) && Read(w).value == w.value
  {
    hide IntValue, Mantissa, Trunc;
  }

  /** X, Y AND Z WORDS are the values of the axes 0, 1 and 2. */
  lemma AxisWordMeans(base: Block, ws: seq<Word>, w: Word, i: nat)
    requires Acceptable(ws) && w in ws && IsAxis(w.letter, i)
    ensures var p := Meaning(base, ws); var xyz := p.block.values.xyz;
            && i in p.axisWords && [xyz.x, xyz.y, xyz.z][i] == w.value
  {
    hide Acceptable, Given, PickNumber, PickValue, Select, Claim, Flow, ModalOf, GroupsOf, WordsOf, Read;
    InForce(ws, w);
    LetterReads(w);
  }

  /** UNITS: a G21 in the line takes every axis word in millimetres, a G20 in inches, wherever they stand in
      the line; and without either, the unit in force is used. */
  lemma UnitsMean(base: Block, ws: seq<Word>, u: Word, w: Word, i: nat)
    requires Acceptable(ws) && u in ws && w in ws && IsAxis(w.letter, i)
    ensures var p := Meaning(base, ws);
            && (IsG(u, 21, 0) ==> Programmed(p)[i] == w.value)
            && (IsG(u, 20, 0) ==> Programmed(p)[i] == 25.4 * w.value)
            && (!Given(ws, Group(GROUP_G6)) ==>
                  Programmed(p)[i] == if base.modal.units == 1 then 25.4 * w.value else w.value)
  {
    hide Acceptable, Given, PickNumber, PickValue, Claim, Meaning, Select, Read, IsG, Flow;
    AxisWordMeans(base, ws, w, i);
    GroupPicks(base, ws);
    Picked(ws, Group(GROUP_G6), base.modal.units);
    if IsG(u, 21, 0) {
      GInForce(ws, u, 21, 0);
    }
    if IsG(u, 20, 0) {
      GInForce(ws, u, 20, 0);
    }
  }

  /** G90 GIVES THE ABSOLUTE TARGET, in the coordinate system of the line with its offsets, and G91 the
      incremental one; an axis without a word stays. */
  lemma DistanceMeans(base: Block, ws: seq<Word>, d: Word, s: Coordinates, i: nat)
    requires Acceptable(ws) && d in ws && Sized(s) && Fits(Meaning(base, ws), s) && i < N_AXIS
    requires Meaning(base, ws).block.nonModalCommand != ABSOLUTE_OVERRIDE
    ensures var p := Meaning(base, ws); var offset := if i == 2 then s.toolLengthOffset else 0.0;
            && (i !in p.axisWords ==> Target(s, p)[i] == s.position[i])
            && (i in p.axisWords && IsG(d, 90, 0) ==>
                  Target(s, p)[i] == Programmed(p)[i] + BlockSystem(s, p)[i] + s.coordOffset[i] + offset)
            && (i in p.axisWords && IsG(d, 91, 0) ==> Target(s, p)[i] == Programmed(p)[i] + s.position[i])
  {
    hide Acceptable, Given, PickNumber, PickValue, Claim, Meaning, Select, Read, IsG, Flow, Programmed, BlockSystem,
         Fits;
    GroupPicks(base, ws);
    if IsG(d, 90, 0) {
      GInForce(ws, d, 90, 0);
    }
    if IsG(d, 91, 0) {
      GInForce(ws, d, 91, 0);
    }
  }

  /** G54 TO G59 select the stored coordinate systems 0 to 5: the line is understood in the one it selects, and
      that stays the active one. */
  lemma SystemMeans(base: Block, ws: seq<Word>, c: Word, n: nat, s: Coordinates, probe: Probe)
    requires Acceptable(ws) && c in ws && IsG(c, n, 0) && 54 <= n <= 59
    requires Consistent(s) && Fits(Meaning(base, ws), s) && ChecksPass(s, Meaning(base, ws))
    ensures var p := Meaning(base, ws); var s' := Executed(s, p, probe);
            && BlockSystem(s, p) == s.stored[n - 54] && Consistent(s') && s'.coordSelect == n - 54
            && (p.block.nonModalCommand != SET_COORDINATE_DATA ==> s'.coordSystem == s.stored[n - 54])
  {
    hide Acceptable, Given, PickNumber, PickValue, Claim, Meaning, Select, Read, IsG, Flow, Programmed, Fits, Executed,
         ChecksPass, BlockSystem;
    GroupPicks(base, ws);
    GInForce(ws, c, n, 0);
    SystemSelected(s, Meaning(base, ws), probe);
  }

  lemma SystemSelected(s: Coordinates, p: Parse, probe: Probe)
    requires Consistent(s) && Fits(p, s) && ChecksPass(s, p)
    ensures var k, s' := p.block.modal.coordSelect, Executed(s, p, probe);
            && BlockSystem(s, p) == s.stored[k] && Consistent(s') && s'.coordSelect == k
            && (p.block.nonModalCommand != SET_COORDINATE_DATA ==> s'.coordSystem == s.stored[k])
  {
    StaysConsistent(s, p, probe);
    hide Programmed, Home, NewSystem, NewOffset, Target;
  }

  // ---------------------------------------------------------------------------
  // Non-modal commands and tool length
  // ---------------------------------------------------------------------------

  lemma NonModalMeans(base: Block, ws: seq<Word>, c: Word, n: nat, h: nat)
    requires Acceptable(ws) && c in ws && IsG(c, n, h) && (h == 0 || h == 10)
    requires if h == 10 then n == 28 || n == 30 || n == 92
             else n == 4 || n == 10 || n == 28 || n == 30 || n == 53 || n == 92
    ensures var command := Meaning(base, ws).block.nonModalCommand;
            && (n == 10 ==> command == SET_COORDINATE_DATA) && (n == 53 ==> command == ABSOLUTE_OVERRIDE)
            && (n == 28 && h == 0 ==> command == GO_HOME_0) && (n == 30 && h == 0 ==> command == GO_HOME_1)
            && (n == 28 && h == 10 ==> command == SET_HOME_0) && (n == 30 && h == 10 ==> command == SET_HOME_1)
            && (n == 92 && h == 0 ==> command == SET_COORDINATE_OFFSET)
            && (n == 92 && h == 10 ==> command == RESET_COORDINATE_OFFSET)
            && (n == 4 ==> command == 4)
  {
    hide Acceptable, Given, PickNumber, PickValue, Claim, Meaning, Select, Read, IsG, Flow;
    GroupPicks(base, ws);
    GInForce(ws, c, n, h);
  }

  /** G43.1 makes the Z word the tool length offset, G49 clears it. */
  lemma ToolLengthMeans(base: Block, ws: seq<Word>, c: Word, s: Coordinates, probe: Probe)
    requires Acceptable(ws) && c in ws && Sized(s) && Fits(Meaning(base, ws), s) && ChecksPass(s, Meaning(base, ws))
    ensures var p := Meaning(base, ws);
            && (IsG(c, 43, 10) ==>
                  p.axisWords == {2} && Executed(s, p, probe).toolLengthOffset == Programmed(p)[2])
            && (IsG(c, 49, 0) ==> Executed(s, p, probe).toolLengthOffset == 0.0)
            && (!Given(ws, Group(GROUP_G8)) && p.axisCommand != ToolLengthOffset ==>
                  Executed(s, p, probe).toolLengthOffset == s.toolLengthOffset)
  {
    hide Acceptable, Given, PickNumber, PickValue, Claim, Meaning, Select, Read, IsG, Flow, Programmed, Fits;
    GroupPicks(base, ws);
    if IsG(c, 43, 10) {
      GInForce(ws, c, 43, 10);
    }
    if IsG(c, 49, 0) {
      GInForce(ws, c, 49, 0);
    }
    ToolLengthKept(s, Meaning(base, ws), probe);
    hide Executed;
  }

  lemma ToolLengthKept(s: Coordinates, p: Parse, probe: Probe)
    requires Sized(s) && Fits(p, s) && ChecksPass(s, p)
    ensures Executed(s, p, probe).toolLengthOffset ==
            if p.axisCommand != ToolLengthOffset then s.toolLengthOffset
            else if p.block.modal.toolLength == 0 then 0.0 else Programmed(p)[2]
  {
    hide Programmed, Home, NewSystem, NewOffset, Target, BlockSystem;
  }

  /** G28 AND G30 GO HOME: by way of the programmed point if axes are given, and then with these axes to the
      stored position, the others as they are; without axes, straight there with all of them; rapidly. */
  lemma HomeMeans(base: Block, ws: seq<Word>, c: Word, n: nat, s: Coordinates, probe: Probe)
    requires Acceptable(ws) && c in ws && IsG(c, n, 0) && (n == 28 || n == 30)
    requires Sized(s) && Fits(Meaning(base, ws), s) && ChecksPass(s, Meaning(base, ws))
    ensures var p := Meaning(base, ws);
            var home, there := s.stored[if n == 28 then 6 else 7], Executed(s, p, probe).position;
            && |there| == N_AXIS
            && (forall i :: 0 <= i < N_AXIS ==>
                  there[i] == if p.axisWords == {} || i in p.axisWords then home[i] else s.position[i])
            && MotionsPlanned(s, p, probe) ==
               (if p.axisWords == {} then [] else [Straight(Target(s, p), true)]) + [Straight(there, true)]
  {
    hide Acceptable, Given, PickNumber, PickValue, Claim, Meaning, Select, Read, IsG, Flow, Executed, MotionsPlanned,
         Fits, ChecksPass, Target;
    NonModalMeans(base, ws, c, n, 0);
    GroupPicks(base, ws);
    GInForce(ws, c, n, 0);
    HomeReached(s, Meaning(base, ws), n, probe);
  }

  lemma HomeReached(s: Coordinates, p: Parse, n: nat, probe: Probe)
    requires Sized(s) && Fits(p, s) && ChecksPass(s, p) && p.axisCommand == NonModal
    requires p.block.nonModalCommand == n && (n == GO_HOME_0 || n == GO_HOME_1)
    ensures var there := Executed(s, p, probe).position;
            && there == Home(s, p, if n == 28 then 6 else 7)
            && MotionsPlanned(s, p, probe) ==
               (if p.axisWords == {} then [] else [Straight(Target(s, p), true)]) + [Straight(there, true)]
  {
    hide Programmed, Home, NewSystem, NewOffset, Target, BlockSystem;
  }

  /** WHAT G28.1 STORES, G28 GOES TO: the position the parser is at, from any state that still has it stored. */
  lemma HomeStored(s: Coordinates, p: Parse, probe: Probe, t: Coordinates, q: Parse, probe': Probe)
    requires Sized(s) && Fits(p, s) && ChecksPass(s, p) && Sized(t) && Fits(q, t) && ChecksPass(t, q)
    requires q.axisCommand == NonModal && q.axisWords == {}
    requires || (p.block.nonModalCommand == SET_HOME_0 && q.block.nonModalCommand == GO_HOME_0)
             || (p.block.nonModalCommand == SET_HOME_1 && q.block.nonModalCommand == GO_HOME_1)
    requires t.stored == Executed(s, p, probe).stored
    ensures Executed(t, q, probe').position == s.position
    ensures !Moves(p) && !Probes(p) ==> Executed(s, p, probe).position == s.position
  {
    hide Programmed, NewSystem, NewOffset, Target, BlockSystem, Home;
    HomeReached(t, q, q.block.nonModalCommand, probe');
    HomeWithoutAxes(t, q);
  }

  lemma HomeWithoutAxes(s: Coordinates, p: Parse)
    requires Sized(s) && p.axisWords == {}
    ensures Home(s, p, 6) == s.stored[6] && Home(s, p, 7) == s.stored[7]
  {
  }

  // ---------------------------------------------------------------------------
  // The other words
  // ---------------------------------------------------------------------------

  /** The value words: each is kept under its own letter, L and T as whole bytes, N as a whole number. */
  lemma ValueMeans(base: Block, ws: seq<Word>, w: Word)
    requires Acceptable(ws) && w in ws
    ensures var v := Meaning(base, ws).block.values;
            && (w.letter == 'F' ==> v.f == w.value >= 0.0) && (w.letter == 'S' ==> v.s == w.value >= 0.0)
            && (w.letter == 'P' ==> v.p == w.value >= 0.0) && (w.letter == 'R' ==> v.r == w.value)
            && (w.letter == 'I' ==> v.ijk.x == w.value) && (w.letter == 'J' ==> v.ijk.y == w.value)
            && (w.letter == 'K' ==> v.ijk.z == w.value)
            && (w.letter == 'N' ==> v.n as real <= w.value < v.n as real + 1.0)
            && (w.letter == 'L' && 0.0 <= w.value < 256.0 ==> v.l as real <= w.value < v.l as real + 1.0)
            && (w.letter == 'T' ==> w.value <= 255.0 && v.t as real <= w.value < v.t as real + 1.0)
  {
    hide Acceptable, Given, PickNumber, PickValue, Select, Claim, Flow, ModalOf, GroupsOf, WordsOf, AxisMask, Read;
    InForce(ws, w);
    ValueReads(w);
  }

  predicate Reads(w: Word, word: nat) {
    Read(w).Accepted? && Read(w).key == Value(word) && Read(w).value == w.value
  }

  lemma ValueReads(w: Word)
    requires Read(w).Accepted?
    ensures (w.letter == 'F' ==> Reads(w, WORD_F) && w.value >= 0.0)
            && (w.letter == 'S' ==> Reads(w, WORD_S) && w.value >= 0.0)
            && (w.letter == 'P' ==> Reads(w, WORD_P) && w.value >= 0.0) && (w.letter == 'R' ==> Reads(w, WORD_R))
    ensures (w.letter == 'I' ==> Reads(w, WORD_I)) && (w.letter == 'J' ==> Reads(w, WORD_J))
            && (w.letter == 'K' ==> Reads(w, WORD_K))
    ensures w.letter == 'N' ==> Reads(w, WORD_N) && Read(w).number as real <= w.value < Read(w).number as real + 1.0
    ensures w.letter == 'L' ==> Reads(w, WORD_L)
    ensures w.letter == 'L' && 0.0 <= w.value < 256.0 ==>
              Read(w).number as real <= w.value < Read(w).number as real + 1.0
    ensures w.letter == 'T' ==> Reads(w, WORD_T) && w.value <= 255.0
                                && Read(w).number as real <= w.value < Read(w).number as real + 1.0
  {
    hide Mantissa;
  }

  /** G93 and G94 choose inverse time and units per minute. */
  lemma FeedModeMeans(base: Block, ws: seq<Word>, w: Word)
    requires Acceptable(ws) && w in ws
    ensures IsG(w, 93, 0) ==> Meaning(base, ws).block.modal.feedRate == 1
    ensures IsG(w, 94, 0) ==> Meaning(base, ws).block.modal.feedRate == 0
  {
    hide Acceptable, Given, PickNumber, PickValue, Claim, Meaning, Select, Read, IsG, Flow;
    GroupPicks(base, ws);
    if IsG(w, 93, 0) {
      GInForce(ws, w, 93, 0);
    }
    if IsG(w, 94, 0) {
      GInForce(ws, w, 94, 0);
    }
  }

  /** M0 pauses the program, M2 and M30 end it, and M1 leaves its flow alone; M3 and M4 turn the spindle
      clockwise and counter-clockwise, M5 stops it; M7 and M8 are mist and flood, M9 turns both off. */
  lemma MWordMeans(base: Block, ws: seq<Word>, w: Word, n: nat)
    requires Acceptable(ws) && w in ws && IsM(w, n) && n < 256
    ensures var m := Meaning(base, ws).block.modal;
            && (n == 0 ==> m.programFlow == PROGRAM_FLOW_PAUSED) && (n == 1 ==> m.programFlow == base.modal.programFlow)
            && (n == 2 ==> m.programFlow == 2) && (n == 30 ==> m.programFlow == 30)
            && (n == 3 ==> m.spindle == SPINDLE_CW) && (n == 4 ==> m.spindle == SPINDLE_CCW)
            && (n == 5 ==> m.spindle == 0)
            && (n == 7 ==> m.coolant == COOLANT_MIST) && (n == 8 ==> m.coolant == COOLANT_FLOOD)
            && (n == 9 ==> m.coolant == 0)
    ensures n in {0, 1, 2, 3, 4, 5, 7, 8, 9, 30}
  {
    hide Acceptable, Given, PickNumber, PickValue, Claim, Meaning, Select, Read, IsM;
    GroupPicks(base, ws);
    MInForce(ws, w, n);
  }

  /** Of the stored systems only the one that `k` names has changed, where axes are given: to the programmed
      values, or so that the present position shows them. */
  predicate SystemWritten(s: Coordinates, m: Parse, k: nat, direct: bool, stored: seq<seq<real>>)
    requires Sized(s)
  {
    var j := if k > 0 then k - 1 else m.block.modal.coordSelect;
    && |stored| == |s.stored| && 0 <= j < |stored| && |stored[j]| == N_AXIS
    && (forall i :: 0 <= i < |stored| && i != j ==> stored[i] == s.stored[i])
    && (forall i :: 0 <= i < N_AXIS ==>
          stored[j][i] == if i !in m.axisWords then s.stored[j][i]
                          else if direct then Programmed(m)[i]
                          else s.position[i] - s.coordOffset[i] - Programmed(m)[i]
                               - if i == 2 then s.toolLengthOffset else 0.0)
  }

  /** G10 sets the coordinate system that its P word names, counted from 1, or the active one for P0: to the
      programmed values for L2, and for L20 so that the present position shows them; no other. */
  lemma SetSystemMeans(base: Block, ws: seq<Word>, c: Word, p: Word, l: Word, k: nat, s: Coordinates, probe: Probe)
    requires Acceptable(ws) && c in ws && p in ws && l in ws && IsG(c, 10, 0)
    requires p.letter == 'P' && k as real <= p.value < k as real + 1.0 && k <= 6
    requires l.letter == 'L' && (2.0 <= l.value < 3.0 || 20.0 <= l.value < 21.0)
    requires Sized(s) && Fits(Meaning(base, ws), s) && ChecksPass(s, Meaning(base, ws))
    ensures SystemWritten(s, Meaning(base, ws), k, l.value < 3.0, Executed(s, Meaning(base, ws), probe).stored)
  {
    hide Acceptable, Given, PickNumber, PickValue, Claim, Meaning, Select, Read, IsG, Flow, Programmed, Executed, Fits,
         ChecksPass, G10Good;
    NonModalMeans(base, ws, c, 10, 0);
    GroupPicks(base, ws);
    GInForce(ws, c, 10, 0);
    ValueMeans(base, ws, p);
    ValueMeans(base, ws, l);
    SystemSet(s, Meaning(base, ws), k, probe);
  }

  lemma SystemSet(s: Coordinates, p: Parse, k: nat, probe: Probe)
    requires Sized(s) && Fits(p, s) && ChecksPass(s, p) && p.block.nonModalCommand == SET_COORDINATE_DATA
    requires p.axisCommand == NonModal && k as real <= p.block.values.p < k as real + 1.0 && k <= 6
    ensures G10Good(p) && 0 <= G10Select(p) < N_COORDINATE_SYSTEM
            && G10Select(p) == if k > 0 then k - 1 else p.block.modal.coordSelect
    ensures Executed(s, p, probe).stored == s.stored[G10Select(p) := NewSystem(s, p)]
  {
    assert Trunc(p.block.values.p) == k;
    hide Programmed, Home, NewSystem, NewOffset, Target, BlockSystem, Trunc;
  }

  // ---------------------------------------------------------------------------
  // Which commands there are, and which go together
  // ---------------------------------------------------------------------------

  /** The G words that are supported, with their hundredths. (G49 is taken with any.) */
  predicate Supported(n: nat, h: nat) {
    || (h == 0 && n in {0, 1, 2, 3, 4, 10, 17, 18, 19, 20, 21, 28, 30, 40, 53, 54, 55, 56, 57, 58, 59, 61, 80, 90, 91,
                        92, 93, 94})
    || (h == 10 && n in {28, 30, 43, 91, 92}) || (n == 38 && h in {20, 30, 40, 50}) || n == 49
  }

  /** Their modal groups, as RS274/NGC numbers them. */
  function ModalGroup(n: nat, h: nat): int {
    if n in {4, 10, 28, 30, 53, 92} then 0
    else if n in {0, 1, 2, 3, 38, 80} then 1
    else if n in {17, 18, 19} then 2
    else if n in {90, 91} then (if h == 10 then 4 else 3)
    else if n in {93, 94} then 5
    else if n in {20, 21} then 6
    else if n == 40 then 7
    else if n in {43, 49} then 8
    else if n == 61 then 13
    else 12
  }

  /** Those that use the axis words themselves. */
  predicate UsesAxes(n: nat, h: nat) {
    n in {0, 1, 2, 3, 38, 10, 43, 49} || (h == 0 && n in {28, 30, 92})
  }

  lemma SupportedIff(w: Word, n: nat, h: nat)
    requires IsG(w, n, h) && n < 256 && h < 100
    ensures Read(w).Accepted? <==> Supported(n, h)
    ensures Supported(n, h) ==> Read(w).key.Group? && (Read(w).claim != NoCommand <==> UsesAxes(n, h))
  {
    ReadNumber(w.value, n, h);
    hide IntValue, Mantissa;
  }

  lemma SameGroupIff(n: nat, h: nat, n': nat, h': nat)
    requires Supported(n, h) && Supported(n', h') && ReadG(n, h).Accepted? && ReadG(n', h').Accepted?
    ensures ReadG(n, h).key == ReadG(n', h').key <==> ModalGroup(n, h) == ModalGroup(n', h')
  {
    KeyOfGroup(n, h);
    KeyOfGroup(n', h');
    hide Supported, ReadG, ModalGroup;
  }

  lemma KeyOfGroup(n: nat, h: nat)
    requires Supported(n, h) && ReadG(n, h).Accepted?
    ensures ModalGroup(n, h) in {0, 1, 2, 3, 4, 5, 6, 7, 8, 12, 13}
    ensures ReadG(n, h).key == Group(if ModalGroup(n, h) >= 12 then ModalGroup(n, h) - 3 else ModalGroup(n, h))
  {
  }

  /** WHICH COMMANDS GO TOGETHER: two G words are accepted in one line exactly if both are supported, they are of
      different modal groups, and at most one of them uses the axis words. */
  lemma TogetherIff(w: Word, n: nat, h: nat, v: Word, m: nat, g: nat)
    requires IsG(w, n, h) && n < 256 && h < 100 && IsG(v, m, g) && m < 256 && g < 100
    ensures Acceptable([w]) <==> Supported(n, h)
    ensures Acceptable([w, v]) <==>
            && Supported(n, h) && Supported(m, g)
            && ModalGroup(n, h) != ModalGroup(m, g) && !(UsesAxes(n, h) && UsesAxes(m, g))
  {
    hide Supported, ModalGroup, UsesAxes, Read, ReadG, IsG, Select;
    SupportedIff(w, n, h);
    SupportedIff(v, m, g);
    OneOrTwo(w, v);
    GReads(w, n, h);
    GReads(v, m, g);
    if Supported(n, h) && Supported(m, g) {
      SameGroupIff(n, h, m, g);
    }
  }

  lemma GReads(w: Word, n: nat, h: nat)
    requires IsG(w, n, h) && n < 256 && h < 100
    ensures Read(w) == ReadG(n, h)
  {
    ReadNumber(w.value, n, h);
    hide IntValue, Mantissa, ReadG;
  }

  lemma OneOrTwo(w: Word, v: Word)
    ensures Acceptable([w]) <==> Read(w).Accepted?
    ensures Acceptable([w, v]) <==>
            && Read(w).Accepted? && Read(v).Accepted? && Read(w).key != Read(v).key
            && (Read(w).claim == NoCommand || Read(v).claim == NoCommand)
  {
    hide Read, Passes;
    forall test ensures Select([w, v], test) ==
                        (if Passes(w, test) then [w] else []) + (if Passes(v, test) then [v] else [])
      ensures Select([w], test) == if Passes(w, test) then [w] else []
    {
      assert [w, v][1..] == [v] && [v][1..] == [] && [w][1..] == [];
      assert Select([v], test) == if Passes(v, test) then [v] else [];
    }
    OneOrTwoPasses(w, v);
  }

  lemma OneOrTwoPasses(w: Word, v: Word)
    requires forall test :: Select([w], test) == if Passes(w, test) then [w] else []
    requires forall test :: Select([w, v], test) ==
                            (if Passes(w, test) then [w] else []) + (if Passes(v, test) then [v] else [])
    ensures Acceptable([w]) <==> Read(w).Accepted?
    ensures Acceptable([w, v]) <==>
            && Read(w).Accepted? && Read(v).Accepted? && Read(w).key != Read(v).key
            && (Read(w).claim == NoCommand || Read(v).claim == NoCommand)
  {
    hide Read, Select;
    if Read(w).Accepted? && Read(v).Accepted? && Read(w).key == Read(v).key {
      assert |Select([w, v], HasKey(Read(w).key))| == 2;
    }
  }

  /** The M words that are supported, and the other letters with the values they may have. */
  lemma OtherWordsIff(w: Word, n: nat)
    ensures IsM(w, n) && n < 256 ==> (Acceptable([w]) <==> n in {0, 1, 2, 3, 4, 5, 7, 8, 9, 30})
    ensures w.letter != 'G' && w.letter != 'M' ==>
              (Acceptable([w]) <==>
               && w.letter in "FIJKLNPRSTXYZ" && (w.letter in "FNPST" ==> w.value >= 0.0)
               && (w.letter == 'T' ==> w.value <= 255.0))
  {
    OneOrTwo(w, w);
    hide Acceptable, IntValue, Mantissa, Trunc;
    if IsM(w, n) && n < 256 {
      ReadNumber(w.value, n, 0);
    }
  }

  // ---------------------------------------------------------------------------
  // Which lines are refused
  // ---------------------------------------------------------------------------

  /** WHAT IS REFUSED of accepted words: G53 with anything but G0 and G1, G80 with an axis word, G92 without
      one, G43.1 with any but a Z word, or with none. */
  lemma LinesRefused(base: Block, ws: seq<Word>, c: Word, n: nat, m: Word, k: nat, h: nat, s: Coordinates)
    requires Acceptable(ws) && c in ws && m in ws
    requires || (n == 53 && IsG(c, n, 0) && IsG(m, k, h)
                 && (((k == 2 || k == 3 || k == 80) && h == 0) || (k == 38 && h in {20, 30, 40, 50})))
             || (n == 80 && IsG(c, n, 0) && IsAxis(m.letter, k))
             || (n == 92 && IsG(c, n, 0) && Meaning(base, ws).axisWords == {})
             || (n == 43 && IsG(c, n, 10) && (m.letter == 'X' || m.letter == 'Y' || Meaning(base, ws).axisWords == {}))
    ensures !ChecksPass(s, Meaning(base, ws))
  {
    hide Acceptable, Given, PickNumber, PickValue, Claim, Meaning, Select, Read, IsG, Flow, G10Good;
    GroupPicks(base, ws);
    match n
    case 53 => GInForce(ws, c, 53, 0); MotionNumber(base, ws, m, k, h);
    case 80 => GInForce(ws, c, 80, 0); AxisWordMeans(base, ws, m, k);
    case 92 => GInForce(ws, c, 92, 0);
    case _ =>
      GInForce(ws, c, 43, 10);
      if m.letter == 'X' {
        AxisWordMeans(base, ws, m, 0);
      } else if m.letter == 'Y' {
        AxisWordMeans(base, ws, m, 1);
      }
  }

  /** ... and G10 without axis words, with a P word beyond G59, or with an L word that is neither 2 nor 20. */
  lemma SetSystemRefused(base: Block, ws: seq<Word>, c: Word, m: Word, s: Coordinates)
    requires Acceptable(ws) && c in ws && m in ws && IsG(c, 10, 0)
    requires || Meaning(base, ws).axisWords == {}
             || (m.letter == 'P' && 7.0 <= m.value < 256.0)
             || (m.letter == 'L' && 0.0 <= m.value < 256.0
                 && (m.value < 2.0 || 3.0 <= m.value < 20.0 || 21.0 <= m.value))
    ensures !ChecksPass(s, Meaning(base, ws))
  {
    hide Acceptable, Given, PickNumber, PickValue, Claim, Meaning, Select, Read, IsG, Flow;
    GroupPicks(base, ws);
    GInForce(ws, c, 10, 0);
    ValueMeans(base, ws, m);
  }

  /** Nothing else is: a line without one of these commands, in any motion mode but G80, passes. */
  lemma OrdinaryLinesPass(base: Block, ws: seq<Word>, s: Coordinates)
    requires Acceptable(ws) && base.nonModalCommand == 0 && Claim(ws) != ToolLengthOffset
    requires Given(ws, Group(GROUP_G0)) ==>
               exists c, h :: c in ws && (h == 0 || h == 10) && (IsG(c, 28, h) || IsG(c, 30, h))
    requires Meaning(base, ws).block.modal.motion != MOTION_MODE_NONE
    ensures ChecksPass(s, Meaning(base, ws))
  {
    hide Acceptable, Given, PickNumber, PickValue, Claim, Meaning, Select, Read, IsG, Flow;
    GroupPicks(base, ws);
    Picked(ws, Group(GROUP_G0), base.nonModalCommand);
    if Given(ws, Group(GROUP_G0)) {
      var c, h :| c in ws && (h == 0 || h == 10) && (IsG(c, 28, h) || IsG(c, 30, h));
      NonModalMeans(base, ws, c, if IsG(c, 28, h) then 28 else 30, h);
    }
  }
}
