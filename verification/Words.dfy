/** What a single g-code word means, apart from the words around it (gcode.c, the word loop). */
module Words {
  import opened NutsBolts

  /** A letter and the number read behind it. */
  datatype Word = Word(letter: char, value: real)

  datatype Status =
    | Ok
    | ExpectedCommandLetter
    | BadNumberFormat
    | UnsupportedCommand
    | CommandValueNotInteger
    | ModalGroupViolation
    | AxisCommandConflict
    | WordRepeated
    | NegativeValue
    | MaxValueExceeded

  /** Which explicit command claims the axis words. */
  datatype AxisCommand = NoCommand | NonModal | MotionMode | ToolLengthOffset

  /** The bit a word occupies: a modal group for commands, the word itself for values. */
  datatype Key = Group(g: nat) | Value(w: nat)

  const GROUP_G0 := 0
  const GROUP_G1 := 1
  const GROUP_G2 := 2
  const GROUP_G3 := 3
  const GROUP_G4 := 4
  const GROUP_G5 := 5
  const GROUP_G6 := 6
  const GROUP_G7 := 7
  const GROUP_G8 := 8
  const GROUP_G12 := 9
  const GROUP_G13 := 10
  const GROUP_M4 := 11
  const GROUP_M7 := 12
  const GROUP_M8 := 13

  const WORD_F := 0
  const WORD_I := 1
  const WORD_J := 2
  const WORD_K := 3
  const WORD_L := 4
  const WORD_N := 5
  const WORD_P := 6
  const WORD_R := 7
  const WORD_S := 8
  const WORD_T := 9
  const WORD_X := 10
  const WORD_Y := 11
  const WORD_Z := 12

  const MAX_TOOL_NUMBER := 255.0
  const SPINDLE_CW := 16
  const SPINDLE_CCW := 32
  const COOLANT_FLOOD := 64
  const COOLANT_MIST := 128

  /** A word by itself: refused, or good for one bit, perhaps an axis command, and a setting. */
  datatype Reading =
    | Refused(status: Status)
    | Accepted(key: Key, claim: AxisCommand, number: int, value: real)

  function Trunc(x: real): int {
    if x >= 0.0 then x.Floor else -((-x).Floor)
  }

  /** `int_value`: the number as an unsigned byte. */
  function IntValue(x: real): int {
    Trunc(x) % 256
  }

  /** `mantissa`: hundredths beyond it, as an unsigned 16-bit number. */
  function Mantissa(x: real): int {
    LRound(100.0 * (x - IntValue(x) as real)) % 65536
  }

  function Command(group: nat, claim: AxisCommand, number: int, mantissa: int): Reading {
    if mantissa > 0 then Refused(CommandValueNotInteger) else Accepted(Group(group), claim, number, 0.0)
  }

  function ReadG(n: int, m: int): Reading {
    if n == 28 || n == 30 || n == 92 then
      if m == 0 || m == 10 then Command(GROUP_G0, if m == 0 then NonModal else NoCommand, n + m, 0)
      else Refused(UnsupportedCommand)
    else if n == 10 then Command(GROUP_G0, NonModal, n, m)
    else if n == 4 || n == 53 then Command(GROUP_G0, NoCommand, n, m)
    else if n == 38 then
      if m == 20 || m == 30 || m == 40 || m == 50 then Command(GROUP_G1, MotionMode, n + m / 10 + 100, 0)
      else Refused(UnsupportedCommand)
    else if 0 <= n <= 3 then Command(GROUP_G1, MotionMode, n, m)
    else if n == 80 then Command(GROUP_G1, NoCommand, n, m)
    else if 17 <= n <= 19 then Command(GROUP_G2, NoCommand, n - 17, m)
    else if n == 90 || n == 91 then
      if m == 0 then Command(GROUP_G3, NoCommand, n - 90, 0)
      else if m == 10 && n == 91 then Command(GROUP_G4, NoCommand, 0, 0)
      else Refused(UnsupportedCommand)
    else if n == 93 || n == 94 then Command(GROUP_G5, NoCommand, 94 - n, m)
    else if n == 20 || n == 21 then Command(GROUP_G6, NoCommand, 21 - n, m)
    else if n == 40 then Command(GROUP_G7, NoCommand, 0, m)
    else if n == 49 then Command(GROUP_G8, ToolLengthOffset, 0, 0)
    else if n == 43 && m == 10 then Command(GROUP_G8, ToolLengthOffset, 1, 0)
    else if 54 <= n <= 59 then Command(GROUP_G12, NoCommand, n - 54, m)
    else if n == 61 then if m == 0 then Command(GROUP_G13, NoCommand, 0, 0) else Refused(UnsupportedCommand)
    else Refused(UnsupportedCommand)
  }

  const PROGRAM_FLOW_PAUSED := 3
  const KEEP := -1      // M1 is accepted, and leaves the program flow as it is

  function ReadM(n: int, m: int): Reading {
    if m > 0 then Refused(CommandValueNotInteger)
    else if n == 0 then Command(GROUP_M4, NoCommand, PROGRAM_FLOW_PAUSED, 0)
    else if n == 1 then Command(GROUP_M4, NoCommand, KEEP, 0)
    else if n == 2 || n == 30 then Command(GROUP_M4, NoCommand, n, 0)
    else if n == 3 then Command(GROUP_M7, NoCommand, SPINDLE_CW, 0)
    else if n == 4 then Command(GROUP_M7, NoCommand, SPINDLE_CCW, 0)
    else if n == 5 then Command(GROUP_M7, NoCommand, 0, 0)
    else if n == 7 then Command(GROUP_M8, NoCommand, COOLANT_MIST, 0)
    else if n == 8 then Command(GROUP_M8, NoCommand, COOLANT_FLOOD, 0)
    else if n == 9 then Command(GROUP_M8, NoCommand, 0, 0)
    else Refused(UnsupportedCommand)
  }

  function ReadValue(word: nat, number: int, value: real): Reading {
    if value < 0.0 && (word == WORD_F || word == WORD_N || word == WORD_P || word == WORD_T || word == WORD_S)
    then Refused(NegativeValue)
    else Accepted(Value(word), NoCommand, number, value)
  }

  function ReadOther(letter: char, value: real): Reading {
    if letter == 'F' then ReadValue(WORD_F, 0, value)
    else if letter == 'I' then ReadValue(WORD_I, 0, value)
    else if letter == 'J' then ReadValue(WORD_J, 0, value)
    else if letter == 'K' then ReadValue(WORD_K, 0, value)
    else if letter == 'L' then ReadValue(WORD_L, IntValue(value), value)
    else if letter == 'N' then ReadValue(WORD_N, Trunc(value), value)
    else if letter == 'P' then ReadValue(WORD_P, 0, value)
    else if letter == 'R' then ReadValue(WORD_R, 0, value)
    else if letter == 'S' then ReadValue(WORD_S, 0, value)
    else if letter == 'T' then
      if value > MAX_TOOL_NUMBER then Refused(MaxValueExceeded) else ReadValue(WORD_T, IntValue(value), value)
    else if letter == 'X' then ReadValue(WORD_X, 0, value)
    else if letter == 'Y' then ReadValue(WORD_Y, 0, value)
    else if letter == 'Z' then ReadValue(WORD_Z, 0, value)
    else Refused(UnsupportedCommand)
  }

  function Read(w: Word): Reading {
    if w.letter < 'A' || w.letter > 'Z' then Refused(ExpectedCommandLetter)
    else if w.letter == 'G' then ReadG(IntValue(w.value), Mantissa(w.value))
    else if w.letter == 'M' then ReadM(IntValue(w.value), Mantissa(w.value))
    else ReadOther(w.letter, w.value)
  }

  /** A word occupies one of the bits there are. */
  lemma KeysInRange(w: Word)
    requires Read(w).Accepted?
    ensures match Read(w).key case Group(g) => g <= GROUP_M8 case Value(v) => v <= WORD_Z
  {
    hide IntValue, Mantissa;
  }
}
