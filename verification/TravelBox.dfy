/** Soft limits, step by step: if every planned move ends inside the travel box, the machine is
    inside it at every tick of the step interrupt. */
module TravelBox {
  import opened StepModel
  import opened StepTheorems

  /** The reach of the machine, in steps. */
  datatype Box = Box(low: Axes<int>, high: Axes<int>)

  predicate Inside(p: Axes<int>, box: Box) {
    && box.low.x <= p.x <= box.high.x
    && box.low.y <= p.y <= box.high.y
    && box.low.z <= p.z <= box.high.z
  }

  predicate StepsInside(position: seq<int>, box: Box) {
    |position| == 3 && Inside(Axes(position[0], position[1], position[2]), box)
  }

  /** The position and the ends of all further moves are inside. */
  ghost predicate PathInside(p: Axes<int>, moves: seq<Move>, box: Box)
    decreases |moves|
  {
    Inside(p, box) && (moves != [] ==> PathInside(Plus(p, Displacement(moves[0])), moves[1..], box))
  }

  /** What the machine is still to do: where it is, what is left of the move in execution, and
      the moves behind it. */
  datatype Course = Course(position: Axes<int>, left: Axes<int>, moves: seq<Move>)

  function CourseOf(m: Model): Course {
    Course(m.position, Left(m.flow.exec, m.pulses), m.flow.waiting + m.pending)
  }

  ghost predicate CourseInside(c: Course, box: Box) {
    Inside(c.position, box) && PathInside(Plus(c.position, c.left), c.moves, box)
  }

  lemma StartCourse()
    ensures CourseOf(Start(Axes(0, 0, 0))) == Course(Axes(0, 0, 0), Axes(0, 0, 0), [])
  {
    var m := Start(Axes(0, 0, 0));
    assert m.flow.waiting + m.pending == [];
  }

  lemma StartInside(box: Box)
    requires Inside(Axes(0, 0, 0), box)
    ensures CourseInside(CourseOf(Start(Axes(0, 0, 0))), box)
  {
    StartCourse();
    hide CourseOf, Start;
  }

  lemma {:induction false} PathAppend(p: Axes<int>, moves: seq<Move>, move: Move, box: Box)
    requires PathInside(p, moves, box) && Inside(Plus(p, Plus(Total(moves), Displacement(move))), box)
    ensures PathInside(p, moves + [move], box)
    decreases |moves|
  {
    var longer := moves + [move];
    if moves == [] {
      assert longer[1..] == [];
    } else {
      assert longer[1..] == moves[1..] + [move] && longer[0] == moves[0];
      hide Displacement, Inside;
      assert Plus(p, Plus(Total(moves), Displacement(move))) ==
             Plus(Plus(p, Displacement(moves[0])), Plus(Total(moves[1..]), Displacement(move)));
      PathAppend(Plus(p, Displacement(moves[0])), moves[1..], move, box);
    }
  }

  /** The course leads to where the planner is. */
  lemma CourseEnd(m: Model)
    requires Balanced(m)
    ensures var c := CourseOf(m); Plus(c.position, Plus(c.left, Total(c.moves))) == m.target
  {
    hide Left, Total;
    TotalConcat(m.flow.waiting, m.pending);
  }

  lemma PlanInside(m: Model, move: Move, box: Box)
    requires Balanced(m) && CourseInside(CourseOf(m), box) && Ready(m.flow) && Runnable(move)
    requires Inside(Plus(m.target, Displacement(move)), box)
    ensures CourseInside(CourseOf(Step(m, Plan(move))), box)
  {
    var c := CourseOf(m);
    CourseEnd(m);
    hide Left, Displacement, Inside, Total, Balanced;
    assert m.flow.waiting + (m.pending + [move]) == c.moves + [move];
    hide Ready, Runnable;
    PathAppend(Plus(c.position, c.left), c.moves, move, box);
  }

  /** Neither taking up a block nor cutting a segment changes what is to be done. */
  lemma LoadKeepsCourse(m: Model)
    requires Allowed(m, Load) && Ready(m.flow)
    ensures CourseOf(Step(m, Load)) == CourseOf(m)
  {
    hide Left;
    var m' := Step(m, Load);
    assert m'.flow.waiting + m'.pending == m.flow.waiting + m.pending;
  }

  lemma PushKeepsCourse(m: Model, events: nat, level: nat, period: nat)
    requires Allowed(m, Push(events, level, period)) && Ready(m.flow)
    ensures CourseOf(Step(m, Push(events, level, period))) == CourseOf(m)
  {
    hide Left;
  }

  /** A pulse goes towards the end of the move, and not beyond. */
  lemma PulseInside(m: Model, box: Box)
    requires Inv(m) && m.flow.executing && CourseInside(CourseOf(m), box)
    ensures Ready(m.flow) && CourseInside(CourseOf(Pulse(m)), box)
  {
    PulseKeeps(m);
    OrderedReady(m.flow);
    PathStart(Plus(m.position, Left(m.flow.exec, m.pulses)), m.flow.waiting + m.pending, box);
    PulseBetween(m);
    hide Ordered, Accounted, MovesOk, AllRunnable, Balanced, OnLine, Pulse, Left, Displacement;
    assert CourseOf(Pulse(m)).moves == CourseOf(m).moves;
  }

  lemma PathStart(p: Axes<int>, moves: seq<Move>, box: Box)
    requires PathInside(p, moves, box)
    ensures Inside(p, box)
  {
  }

  predicate Between(a: int, b: int, c: int) {
    a <= b <= c || c <= b <= a
  }

  /** The end of the move stays where it is, and every axis ends up between it and where it was. */
  lemma PulseBetween(m: Model)
    requires Ready(m.flow) && m.flow.executing
    requires OnLine(m.flow.exec, m.flow.done, m.pulses, m.counter)
    requires var m' := Pulse(m); OnLine(m'.flow.exec, m'.flow.done, m'.pulses, m'.counter)
    ensures var m' := Pulse(m);
            var end := Plus(m.position, Left(m.flow.exec, m.pulses));
            && m'.flow.exec == m.flow.exec && m'.flow.waiting == m.flow.waiting && m'.pending == m.pending
            && Plus(m'.position, Left(m'.flow.exec, m'.pulses)) == end
            && Between(m.position.x, m'.position.x, end.x)
            && Between(m.position.y, m'.position.y, end.y)
            && Between(m.position.z, m'.position.z, end.z)
  {
    hide Shifted, Balance;
  }

  lemma BeginInside(m: Model, box: Box)
    requires Inv(m) && !m.flow.executing && m.flow.queue != [] && CourseInside(CourseOf(m), box)
    ensures Ready(m.flow) && CourseInside(CourseOf(Reset(m).(flow := Begin(m.flow))), box)
  {
    hide Ordered, Accounted, MovesOk, OnLine, AllRunnable, Balanced, Left, Displacement;
    NextMoveBegins(m);
    if NewMove(m.flow) {
      var moves := m.flow.waiting + m.pending;
      assert moves[0] == m.flow.waiting[0] && moves[1..] == m.flow.waiting[1..] + m.pending;
    }
  }

  lemma TickInside(m: Model, box: Box)
    requires Inv(m) && CourseInside(CourseOf(m), box)
    ensures Ready(m.flow) && CourseInside(CourseOf(Step(m, Tick)), box)
  {
    OrderedReady(m.flow);
    hide CourseInside, CourseOf;
    if m.flow.executing {
      PulseInside(m, box);
    } else if m.flow.queue != [] {
      BeginInside(m, box);
      BegunInv(m);
      hide Inv;
      PulseInside(Reset(m).(flow := Begin(m.flow)), box);
    }
  }

  lemma BegunInv(m: Model)
    requires Inv(m) && !m.flow.executing && m.flow.queue != []
    ensures Ready(m.flow) && Inv(Reset(m).(flow := Begin(m.flow)))
  {
    OrderedReady(m.flow);
    BeginKeepsOrder(m.flow);
    BeginKeepsAccounts(m.flow);
    ResetKeepsLine(m);
    ResetKeepsBalance(m);
    BeginFacts(m.flow);
    hide Ordered, Accounted, MovesOk, OnLine, Balanced, AllRunnable;
  }

  /** Every move planned in a run ends inside the box. */
  ghost predicate Gated(target: Axes<int>, es: seq<Event>, box: Box)
    decreases |es|
  {
    es == [] ||
    (if es[0].Plan? then
       Inside(Plus(target, Displacement(es[0].move)), box)
         && Gated(Plus(target, Displacement(es[0].move)), es[1..], box)
     else Gated(target, es[1..], box))
  }

  /** AT EVERY MOMENT OF EVERY RUN in which only moves ending inside the box are planned, the
      machine is inside the box. */
  lemma {:induction false} AlwaysInside(m: Model, es: seq<Event>, m': Model, box: Box)
    requires Inv(m) && RunsTo(m, es, m') && CourseInside(CourseOf(m), box) && Gated(m.target, es, box)
    ensures Inside(m'.position, box)
    decreases |es|
  {
    if es != [] {
      StepInside(m, es[0], box);
      hide Inv, Step, CourseInside, CourseOf;
      StepKeeps(m, es[0]);
      AlwaysInside(Step(m, es[0]), es[1..], m', box);
    }
  }

  lemma StepInside(m: Model, e: Event, box: Box)
    requires Inv(m) && Allowed(m, e) && CourseInside(CourseOf(m), box)
    requires e.Plan? ==> Inside(Plus(m.target, Displacement(e.move)), box)
    ensures Ready(m.flow) && CourseInside(CourseOf(Step(m, e)), box)
    ensures Step(m, e).target == if e.Plan? then Plus(m.target, Displacement(e.move)) else m.target
  {
    OrderedReady(m.flow);
    StepTarget(m, e);
    hide CourseInside, CourseOf, Ordered, Accounted, MovesOk, OnLine, Step, Ready;
    match e
    case Plan(move) => PlanInside(m, move, box);
    case Load => LoadKeepsCourse(m);
    case Push(events, level, period) => PushKeepsCourse(m, events, level, period);
    case Tick => TickInside(m, box);
  }

  lemma StepTarget(m: Model, e: Event)
    requires Allowed(m, e) && Ready(m.flow)
    ensures Step(m, e).target == if e.Plan? then Plus(m.target, Displacement(e.move)) else m.target
  {
    hide Shifted, Displacement;
  }
}
