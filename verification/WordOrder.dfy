/** The word loop of the g-code parser, and that the order of the words on a line does not
    matter: RS274/NGC, version 3, section 3.3.6. */
module WordOrder {
  import opened Words

  /** Modal commands (`gc_modal_t`). */
  datatype Modal = Modal(
    motion: int, feedRate: int, units: int, distance: int, planeSelect: int, toolLength: int,
    coordSelect: int, programFlow: int, coolant: int, spindle: int)

  datatype Three = Three(x: real, y: real, z: real)

  /** Value words (`gc_values_t`). */
  datatype Values = Values(f: real, ijk: Three, l: int, n: int, p: real, r: real, s: real, t: int, xyz: Three)

  /** What the line sets (`parser_block_t`). */
  datatype Block = Block(nonModalCommand: int, modal: Modal, values: Values)

  /** The variables of the word loop. */
  datatype Parse = Parse(
    block: Block,
    axisCommand: AxisCommand,
    commandWords: set<nat>,     // command_words, as a set of bits
    valueWords: set<nat>,       // value_words
    axisWords: set<nat>,        // axis_words: 0, 1, 2 for X, Y, Z
    ijkWords: set<nat>)         // ijk_words

  // ---------------------------------------------------------------------------
  // Which words of a line have to do with what
  // ---------------------------------------------------------------------------

  datatype Test = Refuses | HasKey(key: Key) | Claims

  predicate Passes(w: Word, test: Test) {
    match test
    case Refuses => Read(w).Refused?
    case HasKey(key) => Read(w).Accepted? && Read(w).key == key
    case Claims => Read(w).Accepted? && Read(w).claim != NoCommand
  }

  function Select(ws: seq<Word>, test: Test): seq<Word> {
    if ws == [] then [] else (if Passes(ws[0], test) then [ws[0]] else []) + Select(ws[1..], test)
  }

  /** A LINE IS ACCEPTED if every word is good by itself, no two share a modal group or a
      letter, and at most one claims the axis words. */
  ghost predicate Acceptable(ws: seq<Word>) {
    && Select(ws, Refuses) == []
    && (forall key :: |Select(ws, HasKey(key))| <= 1)
    && |Select(ws, Claims)| <= 1
  }

  function PickNumber(ws: seq<Word>, key: Key, otherwise: int): int {
    var q := Select(ws, HasKey(key));
    if q == [] || Read(q[0]).Refused? then otherwise else Read(q[0]).number
  }

  function PickValue(ws: seq<Word>, key: Key, otherwise: real): real {
    var q := Select(ws, HasKey(key));
    if q == [] || Read(q[0]).Refused? then otherwise else Read(q[0]).value
  }

  predicate Given(ws: seq<Word>, key: Key) {
    Select(ws, HasKey(key)) != []
  }

  /** What an accepted line means, whatever the order of its words. */
  function Meaning(base: Block, ws: seq<Word>): Parse {
    Parse(
      Block(PickNumber(ws, Group(GROUP_G0), base.nonModalCommand), ModalOf(base.modal, ws), ValuesOf(base.values, ws)),
      Claim(ws),
      GroupsOf(ws),
      WordsOf(ws),
      AxisMask(ws, WORD_X),
      AxisMask(ws, WORD_I))
  }

  function ModalOf(base: Modal, ws: seq<Word>): Modal {
    Modal(PickNumber(ws, Group(GROUP_G1), base.motion),
          PickNumber(ws, Group(GROUP_G5), base.feedRate),
          PickNumber(ws, Group(GROUP_G6), base.units),
          PickNumber(ws, Group(GROUP_G3), base.distance),
          PickNumber(ws, Group(GROUP_G2), base.planeSelect),
          PickNumber(ws, Group(GROUP_G8), base.toolLength),
          PickNumber(ws, Group(GROUP_G12), base.coordSelect),
          Flow(ws, base.programFlow),
          PickNumber(ws, Group(GROUP_M8), base.coolant),
          PickNumber(ws, Group(GROUP_M7), base.spindle))
  }

  function ValuesOf(base: Values, ws: seq<Word>): Values {
    Values(PickValue(ws, Value(WORD_F), base.f),
           ThreeOf(base.ijk, ws, WORD_I),
           PickNumber(ws, Value(WORD_L), base.l),
           PickNumber(ws, Value(WORD_N), base.n),
           PickValue(ws, Value(WORD_P), base.p),
           PickValue(ws, Value(WORD_R), base.r),
           PickValue(ws, Value(WORD_S), base.s),
           PickNumber(ws, Value(WORD_T), base.t),
           ThreeOf(base.xyz, ws, WORD_X))
  }

  function ThreeOf(base: Three, ws: seq<Word>, first: nat): Three {
    Three(PickValue(ws, Value(first), base.x), PickValue(ws, Value(first + 1), base.y),
          PickValue(ws, Value(first + 2), base.z))
  }

  function GroupsOf(ws: seq<Word>): set<nat> {
    set g: nat | g <= GROUP_M8 && Given(ws, Group(g))
  }

  function WordsOf(ws: seq<Word>): set<nat> {
    set v: nat | v <= WORD_Z && Given(ws, Value(v))
  }

  /** Which of three consecutive words are given. */
  function AxisMask(ws: seq<Word>, first: nat): set<nat> {
    (if Given(ws, Value(first)) then {0} else {}) + (if Given(ws, Value(first + 1)) then {1} else {})
    + (if Given(ws, Value(first + 2)) then {2} else {})
  }

  function Flow(ws: seq<Word>, otherwise: int): int {
    var flow := PickNumber(ws, Group(GROUP_M4), otherwise);
    if flow == KEEP then otherwise else flow
  }

  function Claim(ws: seq<Word>): AxisCommand {
    var q := Select(ws, Claims);
    if q == [] || Read(q[0]).Refused? then NoCommand else Read(q[0]).claim
  }

  // ---------------------------------------------------------------------------
  // The order does not matter
  // ---------------------------------------------------------------------------

  lemma {:induction false} SelectConcat(a: seq<Word>, b: seq<Word>, test: Test)
    ensures Select(a + b, test) == Select(a, test) + Select(b, test)
  {
    hide Passes;
    if a == [] {
      assert a + b == b;
    } else {
      assert (a + b)[1..] == a[1..] + b && (a + b)[0] == a[0];
      SelectFirst(a + b, test);
      SelectFirst(a, test);
      hide Select;
      SelectConcat(a[1..], b, test);
    }
  }

  lemma SelectFirst(ws: seq<Word>, test: Test)
    requires ws != []
    ensures Select(ws, test) == (if Passes(ws[0], test) then [ws[0]] else []) + Select(ws[1..], test)
  {
    hide Passes;
  }

  /** The same words in another order leave the same selection, in some order. */
  lemma {:induction false} SelectPermuted(ws: seq<Word>, vs: seq<Word>, test: Test)
    requires multiset(ws) == multiset(vs)
    ensures multiset(Select(ws, test)) == multiset(Select(vs, test))
    decreases |ws|
  {
    hide Passes;
    if ws == [] {
      NoWords(vs);
    } else {
      hide Select, Once;
      assert ws[0] in multiset(vs);
      var i :| 0 <= i < |vs| && vs[i] == ws[0];
      WithoutOne(ws, vs, i);
      SelectPermuted(ws[1..], vs[..i] + vs[i + 1..], test);
      SelectRest(ws, test);
      SelectWithout(vs, i, test);
    }
  }

  lemma SelectRest(ws: seq<Word>, test: Test)
    requires ws != []
    ensures multiset(Select(ws, test)) == multiset(Select(ws[1..], test)) + Once(ws[0], test)
  {
    hide Select;
    assert ws[..0] + ws[1..] == ws[1..];
    SelectWithout(ws, 0, test);
  }

  function Once(w: Word, test: Test): multiset<Word> {
    if Passes(w, test) then multiset{w} else multiset{}
  }

  lemma SelectWithout(vs: seq<Word>, i: nat, test: Test)
    requires i < |vs|
    ensures multiset(Select(vs, test)) == multiset(Select(vs[..i] + vs[i + 1..], test)) + Once(vs[i], test)
  {
    hide Passes;
    var a, b := vs[..i], vs[i + 1..];
    assert vs == a + ([vs[i]] + b);
    SelectConcat(a, b, test);
    SelectConcat(a, [vs[i]] + b, test);
    assert ([vs[i]] + b)[1..] == b;
  }

  lemma WithoutOne(ws: seq<Word>, vs: seq<Word>, i: nat)
    requires ws != [] && i < |vs| && vs[i] == ws[0] && multiset(ws) == multiset(vs)
    ensures multiset(ws[1..]) == multiset(vs[..i] + vs[i + 1..])
  {
    assert ws == [ws[0]] + ws[1..] && vs == vs[..i] + [vs[i]] + vs[i + 1..];
    assert multiset(ws[1..]) == multiset(ws) - multiset{ws[0]};
    assert multiset(vs[..i] + vs[i + 1..]) == multiset(vs) - multiset{vs[i]};
  }

  lemma NoWords(vs: seq<Word>)
    requires multiset(vs) == multiset{}
    ensures vs == []
  {
    assert |multiset(vs)| == |vs|;
  }

  lemma OneSame(a: seq<Word>, b: seq<Word>)
    requires multiset(a) == multiset(b)
    ensures |a| == |b| && (|a| <= 1 ==> a == b)
  {
    assert |multiset(a)| == |a| && |multiset(b)| == |b|;
    if |a| == 1 {
      assert a == [a[0]] && b == [b[0]];
      assert a[0] in multiset(b);
    }
  }

  lemma SelectSame(ws: seq<Word>, vs: seq<Word>, test: Test)
    requires multiset(ws) == multiset(vs)
    ensures |Select(ws, test)| == |Select(vs, test)|
    ensures |Select(ws, test)| <= 1 ==> Select(ws, test) == Select(vs, test)
  {
    hide Select;
    SelectPermuted(ws, vs, test);
    OneSame(Select(ws, test), Select(vs, test));
  }

  /** WORD ORDER INDEPENDENCE: a line is accepted in any order of its words or in none, and if it
      is, it means the same. */
  lemma OrderDoesNotMatter(base: Block, ws: seq<Word>, vs: seq<Word>)
    requires multiset(ws) == multiset(vs)
    ensures Acceptable(ws) <==> Acceptable(vs)
    ensures Acceptable(ws) ==> Meaning(base, ws) == Meaning(base, vs)
  {
    hide Select, Read;
    SelectSame(ws, vs, Refuses);
    SelectSame(ws, vs, Claims);
    forall key ensures |Select(ws, HasKey(key))| == |Select(vs, HasKey(key))|
                       && (|Select(ws, HasKey(key))| <= 1 ==> Select(ws, HasKey(key)) == Select(vs, HasKey(key)))
    {
      SelectSame(ws, vs, HasKey(key));
    }
    if Acceptable(ws) {
      SameSelectionSameMeaning(base, ws, vs);
    }
  }

  lemma SameSelectionSameMeaning(base: Block, ws: seq<Word>, vs: seq<Word>)
    requires Select(ws, Claims) == Select(vs, Claims)
    requires forall key :: Select(ws, HasKey(key)) == Select(vs, HasKey(key))
    ensures Meaning(base, ws) == Meaning(base, vs)
  {
    hide Select, Read;
    forall key, otherwise ensures PickNumber(ws, key, otherwise) == PickNumber(vs, key, otherwise) {
    }
    forall key, otherwise ensures PickValue(ws, key, otherwise) == PickValue(vs, key, otherwise) {
    }
    forall key ensures Given(ws, key) == Given(vs, key) {
    }
    assert Claim(ws) == Claim(vs);
    hide PickNumber, PickValue, Given, Claim;
  }
}
