/** A line of g-code as characters: letters, each with the number behind it. */
module LineText {
  import opened Words
  import opened WordOrder
  import opened WordLoop
  import opened Decimals
  import opened NumberText

  datatype Reading = Unreadable | Readable(words: seq<Word>)

  /** A number ends behind its first character. */
  lemma {:induction false} ScanForward(line: string, s: Scan)
    ensures NarrowScan(line, s).position >= s.position
    decreases if s.position < |line| then |line| - s.position else 0
  {
    hide Narrow;
    var c := CharAt(line, s.position);
    if Continues(c, s.isdecimal) {
      ScanForward(line, NarrowChar(s, c));
    }
  }

  lemma NumberForward(line: string, i: nat)
    ensures ReadNarrow(line, i).Number? ==> ReadNarrow(line, i).next >= i
  {
    hide NarrowScan, Scaled;
    ScanForward(line, Scan(0, 0, 0, false, i));
    ScanForward(line, Scan(0, 0, 0, false, i + 1));
  }

  /** The words of a line from a position on, up to its end; a line is unreadable if a word does
      not begin with a letter or has no number. */
  function WordsOf(line: string, i: nat): Reading
    decreases if i < |line| then |line| - i else 0
  {
    var letter := CharAt(line, i);
    if letter == '\0' then Readable([])
    else if letter < 'A' || letter > 'Z' then Unreadable
    else
      NumberForward(line, i + 1);
      match ReadNarrow(line, i + 1)
      case NoNumber => Unreadable
      case Number(value, next) => Preceded([Word(letter, value)], WordsOf(line, next))
  }

  function Preceded(ws: seq<Word>, r: Reading): Reading {
    match r
    case Unreadable => Unreadable
    case Readable(rest) => Readable(ws + rest)
  }

  lemma PrecededTwice(ws: seq<Word>, w: Word, r: Reading)
    ensures Preceded(ws, Preceded([w], r)) == Preceded(ws + [w], r)
  {
    if r.Readable? {
      assert ws + ([w] + r.words) == ws + [w] + r.words;
    }
  }

  lemma WordRead(line: string, i: nat)
    requires 'A' <= CharAt(line, i) <= 'Z'
    ensures var n := ReadNarrow(line, i + 1);
            && (n.NoNumber? ==> WordsOf(line, i) == Unreadable)
            && (n.Number? ==>
                  && n.next > i
                  && WordsOf(line, i) == Preceded([Word(CharAt(line, i), n.value)], WordsOf(line, n.next)))
  {
    hide ReadNarrow;
    NumberForward(line, i + 1);
  }

  /** THE WHOLE LINE: characters are read and executed word by word. The line is accepted exactly if all
      of it can be read, as words that are acceptable in any order, and then it has their meaning. */
  method ParseText(base: Block, line: string, start: nat) returns (status: Status, p: Parse)
    ensures status == Ok <==> WordsOf(line, start).Readable? && Acceptable(WordsOf(line, start).words)
    ensures status == Ok ==> p == Meaning(base, WordsOf(line, start).words)
  {
    hide WordsOf, ReadNarrow, Acceptable, Meaning, Read, Admits;
    status, p := Ok, Parse(base, NoCommand, {}, {}, {}, {});
    NothingRead(base);
    var counter := start;
    ghost var ws: seq<Word> := [];
    assert Preceded([], WordsOf(line, start)) == WordsOf(line, start);
    while CharAt(line, counter) != '\0'
      invariant Acceptable(ws) && p == Meaning(base, ws) && status == Ok
      invariant WordsOf(line, start) == Preceded(ws, WordsOf(line, counter))
      decreases if counter < |line| then |line| - counter else 0
    {
      var letter := CharAt(line, counter);
      if letter < 'A' || letter > 'Z' {
        NoLetter(line, counter);
        return ExpectedCommandLetter, p;
      }
      WordRead(line, counter);
      var number := ReadFloat(line, counter + 1);
      if number == NoNumber {
        return BadNumberFormat, p;
      }
      var w := Word(letter, number.value);
      PrecededTwice(ws, w, WordsOf(line, number.next));
      AcceptableOneMore(base, ws, w);
      var q;
      status, q := ParseWord(p, w);
      if status != Ok {
        RefusedEarly(ws + [w], WordsOf(line, number.next));
        return status, p;
      }
      MeaningOneMore(base, ws, w);
      ws, p, counter := ws + [w], q, number.next;
    }
    LineEnds(line, counter);
    assert ws + [] == ws;
  }

  lemma NoLetter(line: string, i: nat)
    requires CharAt(line, i) != '\0' && (CharAt(line, i) < 'A' || CharAt(line, i) > 'Z')
    ensures WordsOf(line, i) == Unreadable
  {
  }

  lemma LineEnds(line: string, i: nat)
    requires CharAt(line, i) == '\0'
    ensures WordsOf(line, i) == Readable([])
  {
  }

  lemma RefusedEarly(ws: seq<Word>, r: Reading)
    requires !Acceptable(ws)
    ensures Preceded(ws, r).Readable? ==> !Acceptable(Preceded(ws, r).words)
  {
    hide Acceptable;
    if r.Readable? {
      var all := ws + r.words;
      assert all[..|ws|] == ws;
      AcceptablePrefix(all, |ws|);
    }
  }

  /** A letter, and behind it a number as it is printed, is read as a word with that number. */
  lemma PrintedWord(line: string, i: nat, letter: char, n: real, decimals: nat)
    requires |line| < LINE_BUFFER_SIZE && 'A' <= letter <= 'Z'
    requires decimals < MAX_INT_DIGITS && Units(if n < 0.0 then -n else n, decimals) < Pow10(MAX_INT_DIGITS)
    requires Stands(line, i, [letter] + Printed(n, decimals))
    requires Ends(CharAt(line, i + 1 + |Printed(n, decimals)|), decimals)
    ensures WordsOf(line, i) ==
            Preceded([Word(letter, Rounded(n, decimals))], WordsOf(line, i + 1 + |Printed(n, decimals)|))
  {
    hide Units, Pow10, Printed, Ends, Rounded, ReadNarrow, ReadNumber, WordsOf;
    var t := [letter] + Printed(n, decimals);
    StandsPart(line, i, t, 0);
    StandsPart(line, i, t, 1);
    assert t[1..] == Printed(n, decimals);
    RoundTrip(line, i + 1, n, decimals);
    WordRead(line, i);
  }
}
