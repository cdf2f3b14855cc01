/** The word loop of the parser as the program runs it, proved against what a line means. */
module WordLoop {
  import opened Words
  import opened WordOrder

  function SetCommand(b: Block, group: nat, number: int): Block {
    if group == GROUP_G0 then b.(nonModalCommand := number)
    else if group == GROUP_G1 then b.(modal := b.modal.(motion := number))
    else if group == GROUP_G2 then b.(modal := b.modal.(planeSelect := number))
    else if group == GROUP_G3 then b.(modal := b.modal.(distance := number))
    else if group == GROUP_G5 then b.(modal := b.modal.(feedRate := number))
    else if group == GROUP_G6 then b.(modal := b.modal.(units := number))
    else if group == GROUP_G8 then b.(modal := b.modal.(toolLength := number))
    else if group == GROUP_G12 then b.(modal := b.modal.(coordSelect := number))
    else if group == GROUP_M4 then (if number == KEEP then b else b.(modal := b.modal.(programFlow := number)))
    else if group == GROUP_M7 then b.(modal := b.modal.(spindle := number))
    else if group == GROUP_M8 then b.(modal := b.modal.(coolant := number))
    else b
  }

  function SetValue(b: Block, word: nat, number: int, value: real): Block {
    if word == WORD_F then b.(values := b.values.(f := value))
    else if word == WORD_I then b.(values := b.values.(ijk := b.values.ijk.(x := value)))
    else if word == WORD_J then b.(values := b.values.(ijk := b.values.ijk.(y := value)))
    else if word == WORD_K then b.(values := b.values.(ijk := b.values.ijk.(z := value)))
    else if word == WORD_L then b.(values := b.values.(l := number))
    else if word == WORD_N then b.(values := b.values.(n := number))
    else if word == WORD_P then b.(values := b.values.(p := value))
    else if word == WORD_R then b.(values := b.values.(r := value))
    else if word == WORD_S then b.(values := b.values.(s := value))
    else if word == WORD_T then b.(values := b.values.(t := number))
    else if word == WORD_X then b.(values := b.values.(xyz := b.values.xyz.(x := value)))
    else if word == WORD_Y then b.(values := b.values.(xyz := b.values.xyz.(y := value)))
    else if word == WORD_Z then b.(values := b.values.(xyz := b.values.xyz.(z := value)))
    else b
  }

  function AxisBit(word: nat, first: nat): set<nat> {
    if word == first then {0} else if word == first + 1 then {1} else if word == first + 2 then {2} else {}
  }

  function KeyBit(key: Key, first: nat): set<nat> {
    if key.Group? then {} else AxisBit(key.w, first)
  }

  /** What one accepted word does to the variables of the loop. */
  function Applied(p: Parse, r: Reading): Parse
    requires r.Accepted?
  {
    match r.key
    case Group(g) =>
      p.(block := SetCommand(p.block, g, r.number), commandWords := p.commandWords + {g},
         axisCommand := if r.claim == NoCommand then p.axisCommand else r.claim)
    case Value(v) =>
      p.(block := SetValue(p.block, v, r.number, r.value), valueWords := p.valueWords + {v},
         axisWords := p.axisWords + AxisBit(v, WORD_X), ijkWords := p.ijkWords + AxisBit(v, WORD_I))
  }

  /** Nothing read so far stands against the word. */
  predicate Admits(p: Parse, r: Reading) {
    && r.Accepted?
    && (r.claim != NoCommand ==> p.axisCommand == NoCommand)
    && match r.key case Group(g) => g !in p.commandWords case Value(v) => v !in p.valueWords
  }

  /** The word is executed exactly if it is good and nothing stands against it. */
  ghost predicate Executed(p: Parse, r: Reading, status: Status, q: Parse) {
    && (status == Ok <==> Admits(p, r))
    && (status == Ok ==> q == Applied(p, r))
  }

  method GroupWord(p: Parse, block: Block, axisCommand: AxisCommand, wordBit: nat) returns (status: Status, q: Parse)
    ensures status == Ok <==> wordBit !in p.commandWords
    ensures status == Ok ==> q == p.(block := block, axisCommand := axisCommand,
                                     commandWords := p.commandWords + {wordBit})
  {
    q := p;
    if wordBit in p.commandWords {
      return ModalGroupViolation, p;
    }
    status, q := Ok, p.(block := block, axisCommand := axisCommand, commandWords := p.commandWords + {wordBit});
  }

  /** G10, G28, G30, G92 and their variants, G4, G53. */
  method NonModalWord(p: Parse, n: int, m: int) returns (status: Status, q: Parse)
    requires m >= 0 && (n == 10 || n == 28 || n == 30 || n == 92 || n == 4 || n == 53)
    ensures Executed(p, ReadG(n, m), status, q)
  {
    var mantissa, axisCommand := m, p.axisCommand;
    if n == 10 || n == 28 || n == 30 || n == 92 {
      if mantissa == 0 {
        if axisCommand != NoCommand {
          return AxisCommandConflict, p;
        }
        axisCommand := NonModal;
      }
    }
    var block := p.block.(nonModalCommand := n);
    if n == 28 || n == 30 || n == 92 {
      if !(mantissa == 0 || mantissa == 10) {
        return UnsupportedCommand, p;
      }
      block := block.(nonModalCommand := block.nonModalCommand + mantissa);
      mantissa := 0;
    }
    if mantissa > 0 {
      return CommandValueNotInteger, p;
    }
    status, q := GroupWord(p, block, axisCommand, GROUP_G0);
  }

  /** G0 to G3, G38.x and G80. */
  method MotionWord(p: Parse, n: int, m: int) returns (status: Status, q: Parse)
    requires m >= 0 && (0 <= n <= 3 || n == 38 || n == 80)
    ensures Executed(p, ReadG(n, m), status, q)
  {
    var mantissa, axisCommand := m, p.axisCommand;
    if n != 80 {
      if axisCommand != NoCommand {
        return AxisCommandConflict, p;
      }
      axisCommand := MotionMode;
    }
    var block := p.block.(modal := p.block.modal.(motion := n));
    if n == 38 {
      if !(mantissa == 20 || mantissa == 30 || mantissa == 40 || mantissa == 50) {
        return UnsupportedCommand, p;
      }
      block := block.(modal := block.modal.(motion := block.modal.motion + mantissa / 10 + 100));
      mantissa := 0;
    }
    if mantissa > 0 {
      return CommandValueNotInteger, p;
    }
    status, q := GroupWord(p, block, axisCommand, GROUP_G1);
  }

  /** G90, G91 and G91.1; G43.1 and G49. */
  method DistanceOrLengthWord(p: Parse, n: int, m: int) returns (status: Status, q: Parse)
    requires m >= 0 && (n == 90 || n == 91 || n == 43 || n == 49)
    ensures Executed(p, ReadG(n, m), status, q)
  {
    var axisCommand, block, wordBit := p.axisCommand, p.block, GROUP_G8;
    if n == 90 || n == 91 {
      if m == 0 {
        wordBit := GROUP_G3;
        block := block.(modal := block.modal.(distance := n - 90));
      } else {
        wordBit := GROUP_G4;
        if m != 10 || n == 90 {
          return UnsupportedCommand, p;
        }
      }
    } else {
      if axisCommand != NoCommand {
        return AxisCommandConflict, p;
      }
      axisCommand := ToolLengthOffset;
      if n == 49 {
        block := block.(modal := block.modal.(toolLength := 0));
      } else if m == 10 {
        block := block.(modal := block.modal.(toolLength := 1));
      } else {
        return UnsupportedCommand, p;
      }
    }
    status, q := GroupWord(p, block, axisCommand, wordBit);
  }

  /** The other G words. */
  method ModeWord(p: Parse, n: int, m: int) returns (status: Status, q: Parse)
    requires m >= 0 && !(n == 10 || n == 28 || n == 30 || n == 92 || n == 4 || n == 53)
    requires !(0 <= n <= 3 || n == 38 || n == 80 || n == 90 || n == 91 || n == 43 || n == 49)
    ensures Executed(p, ReadG(n, m), status, q)
  {
    var block, wordBit := p.block, GROUP_G13;
    if 17 <= n <= 19 {
      wordBit := GROUP_G2;
      block := block.(modal := block.modal.(planeSelect := n - 17));
    } else if n == 93 || n == 94 {
      wordBit := GROUP_G5;
      block := block.(modal := block.modal.(feedRate := 94 - n));
    } else if n == 20 || n == 21 {
      wordBit := GROUP_G6;
      block := block.(modal := block.modal.(units := 21 - n));
    } else if n == 40 {
      wordBit := GROUP_G7;
    } else if 54 <= n <= 59 {
      wordBit := GROUP_G12;
      block := block.(modal := block.modal.(coordSelect := n - 54));
    } else if n == 61 {
      if m != 0 {
        return UnsupportedCommand, p;
      }
    } else {
      return UnsupportedCommand, p;
    }
    if m > 0 {
      return CommandValueNotInteger, p;
    }
    status, q := GroupWord(p, block, p.axisCommand, wordBit);
  }

  method MWord(p: Parse, n: int, m: int) returns (status: Status, q: Parse)
    ensures Executed(p, ReadM(n, m), status, q)
  {
    if m > 0 {
      return CommandValueNotInteger, p;
    }
    var block, wordBit := p.block, GROUP_M4;
    if n == 0 {
      block := block.(modal := block.modal.(programFlow := PROGRAM_FLOW_PAUSED));
    } else if n == 2 || n == 30 {
      block := block.(modal := block.modal.(programFlow := n));
    } else if 3 <= n <= 5 {
      wordBit := GROUP_M7;
      block := block.(modal := block.modal.(spindle :=
                                            if n == 3 then SPINDLE_CW else if n == 4 then SPINDLE_CCW else 0));
    } else if 7 <= n <= 9 {
      wordBit := GROUP_M8;
      block := block.(modal := block.modal.(coolant :=
                                            if n == 7 then COOLANT_MIST else if n == 8 then COOLANT_FLOOD else 0));
    } else if n != 1 {
      return UnsupportedCommand, p;
    }
    status, q := GroupWord(p, block, p.axisCommand, wordBit);
  }

  /** Words that are not commands: their value is stored. */
  method ValueWord(p: Parse, letter: char, value: real) returns (status: Status, q: Parse)
    ensures Executed(p, ReadOther(letter, value), status, q)
  {
    hide IntValue, Trunc;
    var wordBit, block := WORD_F, p.block;
    var axisWords, ijkWords := p.axisWords, p.ijkWords;
    match letter {
    case 'F' => block := block.(values := block.values.(f := value));
    case 'I' => wordBit := WORD_I; block := block.(values := block.values.(ijk := block.values.ijk.(x := value)));
      ijkWords := ijkWords + {0};
    case 'J' => wordBit := WORD_J; block := block.(values := block.values.(ijk := block.values.ijk.(y := value)));
      ijkWords := ijkWords + {1};
    case 'K' => wordBit := WORD_K; block := block.(values := block.values.(ijk := block.values.ijk.(z := value)));
      ijkWords := ijkWords + {2};
    case 'L' => wordBit := WORD_L; block := block.(values := block.values.(l := IntValue(value)));
    case 'N' => wordBit := WORD_N; block := block.(values := block.values.(n := Trunc(value)));
    case 'P' => wordBit := WORD_P; block := block.(values := block.values.(p := value));
    case 'R' => wordBit := WORD_R; block := block.(values := block.values.(r := value));
    case 'S' => wordBit := WORD_S; block := block.(values := block.values.(s := value));
    case 'T' =>
      wordBit := WORD_T;
      if value > MAX_TOOL_NUMBER {
        return MaxValueExceeded, p;
      }
      block := block.(values := block.values.(t := IntValue(value)));
    case 'X' => wordBit := WORD_X; block := block.(values := block.values.(xyz := block.values.xyz.(x := value)));
      axisWords := axisWords + {0};
    case 'Y' => wordBit := WORD_Y; block := block.(values := block.values.(xyz := block.values.xyz.(y := value)));
      axisWords := axisWords + {1};
    case 'Z' => wordBit := WORD_Z; block := block.(values := block.values.(xyz := block.values.xyz.(z := value)));
      axisWords := axisWords + {2};
    case _ => return UnsupportedCommand, p;
    }
    if wordBit in p.valueWords {
      return WordRepeated, p;
    }
    if wordBit == WORD_F || wordBit == WORD_N || wordBit == WORD_P || wordBit == WORD_T || wordBit == WORD_S {
      if value < 0.0 {
        return NegativeValue, p;
      }
    }
    status := Ok;
    q := p.(block := block, valueWords := p.valueWords + {wordBit}, axisWords := axisWords, ijkWords := ijkWords);
  }

  // ---------------------------------------------------------------------------
  // One more word
  // ---------------------------------------------------------------------------

  lemma SelectOneMore(ws: seq<Word>, w: Word, test: Test)
    ensures Select(ws + [w], test) == Select(ws, test) + (if Passes(w, test) then [w] else [])
  {
    SelectConcat(ws, [w], test);
    assert [w][1..] == [];
    hide Passes;
  }

  lemma {:induction false} SelectedPass(ws: seq<Word>, test: Test)
    ensures forall i :: 0 <= i < |Select(ws, test)| ==> Passes(Select(ws, test)[i], test)
  {
    hide Passes;
    if ws != [] {
      SelectedPass(ws[1..], test);
    }
  }

  lemma ClaimGiven(ws: seq<Word>)
    ensures Claim(ws) == NoCommand <==> Select(ws, Claims) == []
  {
    SelectedPass(ws, Claims);
    hide Select, Read;
  }

  /** What stands against a word, in terms of the words before it. */
  lemma AdmitsMeaning(base: Block, ws: seq<Word>, w: Word)
    ensures var r := Read(w);
            Admits(Meaning(base, ws), r) <==>
            r.Accepted? && Select(ws, HasKey(r.key)) == [] && (r.claim != NoCommand ==> Select(ws, Claims) == [])
  {
    ClaimGiven(ws);
    MeaningParts(base, ws);
    if Read(w).Accepted? {
      KeysInRange(w);
    }
    hide Select, Read, Claim, Meaning;
  }

  lemma MeaningParts(base: Block, ws: seq<Word>)
    ensures var p := Meaning(base, ws);
            p.commandWords == GroupsOf(ws) && p.valueWords == WordsOf(ws) && p.axisCommand == Claim(ws)
  {
    hide Select, Read, Claim, PickNumber, PickValue, Flow, AxisMask, ModalOf, ValuesOf, GroupsOf, WordsOf;
  }

  lemma AcceptableOneMore(base: Block, ws: seq<Word>, w: Word)
    requires Acceptable(ws)
    ensures Acceptable(ws + [w]) <==> Admits(Meaning(base, ws), Read(w))
  {
    var r := Read(w);
    AdmitsMeaning(base, ws, w);
    hide Select, Read, Meaning, Admits;
    SelectOneMore(ws, w, Refuses);
    SelectOneMore(ws, w, Claims);
    if r.Accepted? {
      SelectOneMore(ws, w, HasKey(r.key));
      assert |Select(ws, HasKey(r.key))| <= 1;
      forall key | key != r.key ensures Select(ws + [w], HasKey(key)) == Select(ws, HasKey(key)) {
        SelectOneMore(ws, w, HasKey(key));
      }
    }
  }

  lemma PicksOneMore(ws: seq<Word>, w: Word, key: Key, otherwise: int, otherwiseReal: real)
    requires Read(w).Accepted? && Select(ws, HasKey(Read(w).key)) == []
    ensures PickNumber(ws + [w], key, otherwise) ==
            if key == Read(w).key then Read(w).number else PickNumber(ws, key, otherwise)
    ensures PickValue(ws + [w], key, otherwiseReal) ==
            if key == Read(w).key then Read(w).value else PickValue(ws, key, otherwiseReal)
    ensures Given(ws + [w], key) == (key == Read(w).key || Given(ws, key))
  {
    SelectOneMore(ws, w, HasKey(key));
    hide Read, Select;
  }

  lemma ClaimOneMore(ws: seq<Word>, w: Word)
    requires Read(w).Accepted? && (Read(w).claim != NoCommand ==> Claim(ws) == NoCommand)
    ensures Claim(ws + [w]) == if Read(w).claim == NoCommand then Claim(ws) else Read(w).claim
  {
    SelectOneMore(ws, w, Claims);
    ClaimGiven(ws);
    hide Read, Select;
  }

  lemma NotGivenYet(ws: seq<Word>, w: Word, otherwise: int)
    requires Read(w).Accepted? && Select(ws, HasKey(Read(w).key)) == []
    ensures PickNumber(ws, Read(w).key, otherwise) == otherwise
  {
    hide Select, Read;
  }

  lemma ModalOneMore(base: Block, ws: seq<Word>, w: Word)
    requires Read(w).Accepted? && Select(ws, HasKey(Read(w).key)) == []
    ensures ModalOf(base.modal, ws + [w]) ==
            if Read(w).key.Group? then SetCommand(base.(modal := ModalOf(base.modal, ws)), Read(w).key.g,
                                                  Read(w).number).modal
            else ModalOf(base.modal, ws)
  {
    hide PickNumber, PickValue, Read, Select, Given;
    NotGivenYet(ws, w, base.modal.programFlow);
    var m := base.modal;
    PicksOneMore(ws, w, Group(GROUP_G1), m.motion, 0.0);
    PicksOneMore(ws, w, Group(GROUP_G2), m.planeSelect, 0.0);
    PicksOneMore(ws, w, Group(GROUP_G3), m.distance, 0.0);
    PicksOneMore(ws, w, Group(GROUP_G5), m.feedRate, 0.0);
    PicksOneMore(ws, w, Group(GROUP_G6), m.units, 0.0);
    PicksOneMore(ws, w, Group(GROUP_G8), m.toolLength, 0.0);
    PicksOneMore(ws, w, Group(GROUP_G12), m.coordSelect, 0.0);
    PicksOneMore(ws, w, Group(GROUP_M4), m.programFlow, 0.0);
    PicksOneMore(ws, w, Group(GROUP_M7), m.spindle, 0.0);
    PicksOneMore(ws, w, Group(GROUP_M8), m.coolant, 0.0);
  }

  lemma ValuesOneMore(base: Block, ws: seq<Word>, w: Word)
    requires Read(w).Accepted? && Select(ws, HasKey(Read(w).key)) == []
    ensures ValuesOf(base.values, ws + [w]) ==
            if Read(w).key.Group? then ValuesOf(base.values, ws)
            else SetValue(base.(values := ValuesOf(base.values, ws)), Read(w).key.w, Read(w).number,
                          Read(w).value).values
  {
    hide PickNumber, PickValue, Read, Select;
    forall key, otherwise ensures PickNumber(ws + [w], key, otherwise) ==
                                  if key == Read(w).key then Read(w).number else PickNumber(ws, key, otherwise)
    {
      PicksOneMore(ws, w, key, otherwise, 0.0);
    }
    forall key, otherwise ensures PickValue(ws + [w], key, otherwise) ==
                                  if key == Read(w).key then Read(w).value else PickValue(ws, key, otherwise)
    {
      PicksOneMore(ws, w, key, 0, otherwise);
    }
  }

  lemma MasksOneMore(base: Block, ws: seq<Word>, w: Word)
    requires Read(w).Accepted? && Select(ws, HasKey(Read(w).key)) == []
    ensures GroupsOf(ws + [w]) == GroupsOf(ws) + if Read(w).key.Group? then {Read(w).key.g} else {}
    ensures WordsOf(ws + [w]) == WordsOf(ws) + if Read(w).key.Group? then {} else {Read(w).key.w}
    ensures forall first :: AxisMask(ws + [w], first) == AxisMask(ws, first) + KeyBit(Read(w).key, first)
  {
    KeysInRange(w);
    hide Select, Read;
    forall key ensures Given(ws + [w], key) == (key == Read(w).key || Given(ws, key)) {
      PicksOneMore(ws, w, key, 0, 0.0);
    }
    hide Given;
  }

  lemma MeaningOneMore(base: Block, ws: seq<Word>, w: Word)
    requires Acceptable(ws) && Admits(Meaning(base, ws), Read(w))
    ensures Meaning(base, ws + [w]) == Applied(Meaning(base, ws), Read(w))
  {
    AdmitsMeaning(base, ws, w);
    ClaimGiven(ws);
    hide Acceptable, Admits, Meaning, Applied, Read, Select, Claim;
    if Read(w).key.Group? {
      MeaningOneCommandMore(base, ws, w);
    } else {
      MeaningOneValueMore(base, ws, w);
    }
  }

  lemma BlockOneCommandMore(base: Block, ws: seq<Word>, w: Word)
    requires Read(w).Accepted? && Select(ws, HasKey(Read(w).key)) == [] && Read(w).key.Group?
    ensures Meaning(base, ws + [w]).block == SetCommand(Meaning(base, ws).block, Read(w).key.g, Read(w).number)
  {
    ModalOneMore(base, ws, w);
    ValuesOneMore(base, ws, w);
    PicksOneMore(ws, w, Group(GROUP_G0), base.nonModalCommand, 0.0);
    SetFrame(base, Meaning(base, ws).block, Read(w));
    hide Select, Read, Claim, ModalOf, ValuesOf, GroupsOf, WordsOf, AxisMask, AxisBit, PickNumber, PickValue,
         SetCommand, SetValue;
  }

  lemma MasksOneCommandMore(base: Block, ws: seq<Word>, w: Word)
    requires Read(w).Accepted? && Select(ws, HasKey(Read(w).key)) == [] && Read(w).key.Group?
    ensures GroupsOf(ws + [w]) == GroupsOf(ws) + {Read(w).key.g} && WordsOf(ws + [w]) == WordsOf(ws)
    ensures forall first :: AxisMask(ws + [w], first) == AxisMask(ws, first)
  {
    MasksOneMore(base, ws, w);
    hide Select, Read, GroupsOf, WordsOf, AxisMask, AxisBit;
  }

  lemma MeaningOneCommandMore(base: Block, ws: seq<Word>, w: Word)
    requires Read(w).Accepted? && Select(ws, HasKey(Read(w).key)) == [] && Read(w).key.Group?
    requires Read(w).claim != NoCommand ==> Claim(ws) == NoCommand
    ensures Meaning(base, ws + [w]) == Applied(Meaning(base, ws), Read(w))
  {
    ClaimOneMore(ws, w);
    MasksOneCommandMore(base, ws, w);
    BlockOneCommandMore(base, ws, w);
    hide Select, Read, Claim, ModalOf, ValuesOf, GroupsOf, WordsOf, AxisMask, AxisBit, PickNumber, PickValue,
         SetCommand, SetValue;
  }

  lemma MeaningOneValueMore(base: Block, ws: seq<Word>, w: Word)
    requires Read(w).Accepted? && Select(ws, HasKey(Read(w).key)) == [] && Read(w).key.Value?
    requires Read(w).claim != NoCommand ==> Claim(ws) == NoCommand
    ensures Meaning(base, ws + [w]) == Applied(Meaning(base, ws), Read(w))
  {
    ValuesClaimNothing(w);
    ClaimOneMore(ws, w);
    MasksOneMore(base, ws, w);
    ModalOneMore(base, ws, w);
    ValuesOneMore(base, ws, w);
    PicksOneMore(ws, w, Group(GROUP_G0), base.nonModalCommand, 0.0);
    SetFrame(base, Meaning(base, ws).block, Read(w));
    hide Select, Read, Claim, ModalOf, ValuesOf, GroupsOf, WordsOf, AxisMask, AxisBit, PickNumber, PickValue,
         SetCommand, SetValue;
  }

  lemma ValuesClaimNothing(w: Word)
    requires Read(w).Accepted? && Read(w).key.Value?
    ensures Read(w).claim == NoCommand
  {
    hide IntValue, Mantissa, Trunc;
  }

  /** A command sets the modal part or the non-modal command, a value word the values. */
  lemma SetFrame(base: Block, b: Block, r: Reading)
    requires r.Accepted?
    ensures r.key.Group? ==>
              SetCommand(b, r.key.g, r.number) ==
              Block(if r.key.g == GROUP_G0 then r.number else b.nonModalCommand,
                    SetCommand(base.(modal := b.modal), r.key.g, r.number).modal, b.values)
    ensures r.key.Value? ==>
              SetValue(b, r.key.w, r.number, r.value) ==
              Block(b.nonModalCommand, b.modal, SetValue(base.(values := b.values), r.key.w, r.number, r.value).values)
  {
  }

  // ---------------------------------------------------------------------------
  // The loop
  // ---------------------------------------------------------------------------

  method ParseWord(p: Parse, w: Word) returns (status: Status, q: Parse)
    ensures Executed(p, Read(w), status, q)
  {
    hide IntValue, Mantissa, ReadG, ReadM, ReadOther;
    if w.letter < 'A' || w.letter > 'Z' {
      return ExpectedCommandLetter, p;
    }
    var n, m := IntValue(w.value), Mantissa(w.value);
    MantissaRange(w.value);
    match w.letter
    case 'G' =>
      if n == 10 || n == 28 || n == 30 || n == 92 || n == 4 || n == 53 {
        status, q := NonModalWord(p, n, m);
      } else if 0 <= n <= 3 || n == 38 || n == 80 {
        status, q := MotionWord(p, n, m);
      } else if n == 90 || n == 91 || n == 43 || n == 49 {
        status, q := DistanceOrLengthWord(p, n, m);
      } else {
        status, q := ModeWord(p, n, m);
      }
    case 'M' => status, q := MWord(p, n, m);
    case _ => status, q := ValueWord(p, w.letter, w.value);
  }

  lemma MantissaRange(x: real)
    ensures 0 <= Mantissa(x) < 65536
  {
  }

  /** The word loop: the words of a line are read one after the other until one is refused. It
      accepts exactly the lines that are acceptable in any order, and gives their meaning. */
  method ParseLine(base: Block, ws: seq<Word>) returns (status: Status, p: Parse)
    ensures status == Ok <==> Acceptable(ws)
    ensures status == Ok ==> p == Meaning(base, ws)
  {
    hide Acceptable, Meaning, Read, Admits;
    status, p := Ok, Parse(base, NoCommand, {}, {}, {}, {});
    NothingRead(base);
    var i := 0;
    while i < |ws|
      invariant 0 <= i <= |ws| && Acceptable(ws[..i]) && p == Meaning(base, ws[..i]) && status == Ok
    {
      assert ws[..i + 1] == ws[..i] + [ws[i]];
      AcceptableOneMore(base, ws[..i], ws[i]);
      var q;
      status, q := ParseWord(p, ws[i]);
      if status != Ok {
        AcceptablePrefix(ws, i + 1);
        return status, p;
      }
      MeaningOneMore(base, ws[..i], ws[i]);
      p := q;
      i := i + 1;
    }
    assert ws[..|ws|] == ws;
  }

  lemma NothingRead(base: Block)
    ensures Acceptable([]) && Meaning(base, []) == Parse(base, NoCommand, {}, {}, {}, {})
  {
  }

  /** What comes later cannot make a refused beginning acceptable. */
  lemma AcceptablePrefix(ws: seq<Word>, i: nat)
    requires i <= |ws|
    ensures Acceptable(ws) ==> Acceptable(ws[..i])
  {
    hide Select;
    assert ws == ws[..i] + ws[i..];
    forall test ensures Select(ws, test) == Select(ws[..i], test) + Select(ws[i..], test) {
      SelectConcat(ws[..i], ws[i..], test);
    }
    if Acceptable(ws) {
      forall key ensures |Select(ws[..i], HasKey(key))| <= 1 {
        assert |Select(ws, HasKey(key))| <= 1;
      }
    }
  }
}
