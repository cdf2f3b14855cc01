/** Radius-format arcs: the centre that `gc_execute_line` computes from two points and a radius. */
module ArcCentre {
  import opened NutsBolts
  import opened Kinematics

  /** NotANumber stands for the division by zero that floating point lets pass. */
  datatype Centre = InvalidTarget | RadiusError | NotANumber | Centre(i: real, j: real, r: real)

  /** Twice the distance of the centre from the chord, over the length of the chord, squared. */
  function HeightSqr(x: real, y: real, r: real): real {
    4.0 * Square(r) - Square(x) - Square(y)
  }

  /** Where the centre lies: positive to the left of the way from start to end. */
  function Side(x: real, y: real, i: real, j: real): real {
    Times(x, j) - Times(y, i)
  }

  /** The squared distance of two points, given by their difference. */
  function Apart(dx: real, dy: real): real {
    Square(dx) + Square(dy)
  }

  /** The centre at height `h` over the chord, `h` in half chord lengths. */
  lemma CentreAtHeight(x: real, y: real, h: real, i: real, j: real)
    requires i == 0.5 * (x - y * h) && j == 0.5 * (y + x * h)
    ensures 4.0 * Apart(i, j) == Times(Apart(x, y), 1.0 + Square(h))
    ensures 4.0 * Apart(x - i, y - j) == Times(Apart(x, y), 1.0 + Square(h))
    ensures 2.0 * Side(x, y, i, j) == Times(Apart(x, y), h)
  {
    var a, b := y * h, x * h;
    assert 4.0 * Apart(i, j) == x * x - 2.0 * (x * a) + a * a + y * y + 2.0 * (y * b) + b * b;
    assert 4.0 * Apart(x - i, y - j) == x * x + 2.0 * (x * a) + a * a + y * y - 2.0 * (y * b) + b * b;
    assert x * a == y * b;
    assert a * a == (y * y) * (h * h) && b * b == (x * x) * (h * h);
  }

  lemma ApartPositive(x: real, y: real)
    ensures Apart(x, y) >= 0.0
    ensures Apart(x, y) == 0.0 <==> x == 0.0 && y == 0.0
  {
    SquareSign(x);
    SquareSign(y);
    hide Square;
    if x == 0.0 {
      ZeroSquare();
    }
    if y == 0.0 {
      ZeroSquare();
    }
  }

  lemma ZeroSquare()
    ensures Square(0.0) == 0.0
  {
  }

  /** A height whose square, times the squared chord, is what is missing to the radius. */
  lemma RightHeight(x: real, y: real, r: real, h: real)
    requires Times(Apart(x, y), Square(h)) == HeightSqr(x, y, r)
    ensures Times(Apart(x, y), 1.0 + Square(h)) == 4.0 * Square(r)
  {
    var d, k := Apart(x, y), Square(h);
    Distribute(d, k);
    hide Times;
  }

  lemma Distribute(d: real, k: real)
    ensures Times(d, 1.0 + k) == d + Times(d, k)
  {
  }

  lemma QuotientSquared(a: real, b: real, p: real, q: real)
    requires b > 0.0 && Square(a) == p && Square(b) == q
    ensures Times(q, Square(a / b)) == p
  {
    var h := a / b;
    assert h * b == a;
    assert (b * b) * (h * h) == (h * b) * (h * b);
  }

  /** `hypot_f`. */
  method Hypot(x: real, y: real, root: real -> real) returns (d: real)
    requires IsRoot(root)
    ensures d >= 0.0 && Square(d) == Apart(x, y)
  {
    ApartPositive(x, y);
    d := TakeRoot(Apart(x, y), root);
  }

  /** At the given distance from both ends of the arc, and on the side its direction and the sign
      of the radius ask for: to the left for a counter-clockwise arc of at most half a turn. */
  ghost predicate IsCentre(x: real, y: real, r0: real, counterClockwise: bool, c: Centre) {
    && c.Centre? && c.r == Abs(r0)
    && Apart(c.i, c.j) == Square(r0) && Apart(x - c.i, y - c.j) == Square(r0)
    && (if counterClockwise == (r0 >= 0.0) then Side(x, y, c.i, c.j) >= 0.0 else Side(x, y, c.i, c.j) <= 0.0)
    && (Side(x, y, c.i, c.j) == 0.0 <==> 4.0 * Square(r0) == Apart(x, y))
  }

  lemma Opposite(height: real, chord: real)
    requires height >= 0.0 && chord > 0.0
    ensures height / chord >= 0.0 && (height / chord == 0.0 <==> height == 0.0)
    ensures Square(-(height / chord)) == Square(height / chord)
    ensures Square(height) == 0.0 <==> height == 0.0
  {
    var h := height / chord;
    assert h * chord == height;
    SquareSign(height);
  }

  lemma SideOf(x: real, y: real, h: real)
    requires Apart(x, y) > 0.0
    ensures h > 0.0 ==> Times(Apart(x, y), h) > 0.0
    ensures h < 0.0 ==> Times(Apart(x, y), h) < 0.0
    ensures h == 0.0 ==> Times(Apart(x, y), h) == 0.0
  {
    hide Apart;
    var d := Apart(x, y);
    if h < 0.0 {
      Product(d, -h);
      assert d * h == -(d * (-h));
    }
  }

  /** The height of the centre over the chord, in half chord lengths, to the proper side. */
  ghost predicate IsHeight(x: real, y: real, r0: real, counterClockwise: bool, h: real) {
    && Times(Apart(x, y), Square(h)) == HeightSqr(x, y, r0)
    && (if counterClockwise == (r0 >= 0.0) then h >= 0.0 else h <= 0.0)
    && (h == 0.0 <==> HeightSqr(x, y, r0) == 0.0)
  }

  method SignedHeight(x: real, y: real, r0: real, heightSqr: real, chord: real, counterClockwise: bool,
                      root: real -> real)
    returns (hX2DivD: real, r: real)
    requires IsRoot(root) && heightSqr == HeightSqr(x, y, r0) >= 0.0 && chord > 0.0 && Square(chord) == Apart(x, y)
    ensures IsHeight(x, y, r0, counterClockwise, hX2DivD) && r == Abs(r0)
  {
    hide IsRoot, Square, Times, HeightSqr, Apart;
    r := r0;
    var height := TakeRoot(heightSqr, root);
    QuotientSquared(height, chord, heightSqr, Apart(x, y));
    Opposite(height, chord);
    hX2DivD := -(height / chord);
    if counterClockwise {
      hX2DivD := -hX2DivD;
    }
    if r < 0.0 {
      hX2DivD := -hX2DivD;
      r := -r;
    }
  }

  lemma HeightGivesCentre(x: real, y: real, r0: real, counterClockwise: bool, h: real, i: real, j: real)
    requires Apart(x, y) > 0.0 && IsHeight(x, y, r0, counterClockwise, h)
    requires i == 0.5 * (x - y * h) && j == 0.5 * (y + x * h)
    ensures IsCentre(x, y, r0, counterClockwise, Centre(i, j, Abs(r0)))
  {
    CentreAtHeight(x, y, h, i, j);
    RightHeight(x, y, r0, h);
    SideOf(x, y, h);
    HeightAtLimit(x, y, r0);
    hide Square, Times, Apart, HeightSqr, Side;
  }

  lemma HeightAtLimit(x: real, y: real, r: real)
    ensures HeightSqr(x, y, r) == 4.0 * Square(r) - Apart(x, y)
  {
  }

  /** The centre of a radius-format arc from the current position to a target `x`, `y` further
      in the plane and `z` along the third axis. */
  method RadiusCentre(x: real, y: real, z: real, r0: real, counterClockwise: bool,
                      root: real -> real) returns (centre: Centre)
    requires IsRoot(root)
    ensures centre == InvalidTarget <==> x == 0.0 && y == 0.0 && z == 0.0
    ensures centre == RadiusError <==> !(x == 0.0 && y == 0.0 && z == 0.0) && 4.0 * Square(r0) < Apart(x, y)
    ensures centre == NotANumber <==> x == 0.0 && y == 0.0 && z != 0.0
    ensures centre.Centre? ==> IsCentre(x, y, r0, counterClockwise, centre)
  {
    HeightAtLimit(x, y, r0);
    hide IsRoot, Square, Times, Apart, HeightSqr, IsCentre, IsHeight;
    ApartPositive(x, y);
    SquareSign(r0);
    ZeroSquare();
    if x == 0.0 && y == 0.0 && z == 0.0 {
      return InvalidTarget;
    }
    var hX2DivD := HeightSqr(x, y, r0);
    if hX2DivD < 0.0 {
      return RadiusError;
    }
    var chord := Hypot(x, y, root);
    SquareSign(chord);
    if chord == 0.0 {
      return NotANumber;
    }
    var r;
    hX2DivD, r := SignedHeight(x, y, r0, hX2DivD, chord, counterClockwise, root);
    var i := 0.5 * (x - y * hX2DivD);
    var j := 0.5 * (y + x * hX2DivD);
    HeightGivesCentre(x, y, r0, counterClockwise, hX2DivD, i, j);
    centre := Centre(i, j, r);
  }
}
