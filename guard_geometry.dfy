/**
 * Day 6 (src/day06.rs), the pure part: the guard's four directions, the
 * conversion between a row-major tile index and an `(x, y)` coordinate, and
 * the straight segments ("lines") of the guard's path with their orthogonal
 * intersection. Coordinates are `i64` pairs in the source, `int` pairs here.
 */
module GuardGeometry {
  import opened Options
  import Arith

  /** `(x, y)`: `x` grows to the right, `y` grows downwards. */
  type Coord = (int, int)

  datatype Dir = Up | Down | Left | Right {

    /** `Dir::rotate`: a quarter turn clockwise. */
    function Rotate(): (d: Dir)
      ensures d != this
      ensures d.IsHorizontal() != IsHorizontal()
    {
      match this
      case Up => Right
      case Down => Left
      case Left => Up
      case Right => Down
    }

    /** `Dir::step`: the neighbouring coordinate one tile in this direction. */
    function Step(c: Coord): (n: Coord)
      ensures this == Left || this == Right ==> n.1 == c.1 && Dist(n.0, c.0) == 1
      ensures this == Up || this == Down ==> n.0 == c.0 && Dist(n.1, c.1) == 1
    {
      match this
      case Up => (c.0, c.1 - 1)
      case Down => (c.0, c.1 + 1)
      case Left => (c.0 - 1, c.1)
      case Right => (c.0 + 1, c.1)
    }

    /** `Dir::is_horizontal`: exactly the directions whose step stays in its row. */
    function IsHorizontal(): (h: bool)
      ensures h <==> Step((0, 0)).1 == 0
    {
      this == Left || this == Right
    }
  }

  function Dist(a: int, b: int): nat { if a < b then b - a else a - b }

  function Min(a: int, b: int): int { if a <= b then a else b }

  function Max(a: int, b: int): int { if a <= b then b else a }

  /** Rotation runs through Up, Right, Down, Left and back to Up. */
  lemma RotationCycle()
    ensures Up.Rotate() == Right && Right.Rotate() == Down
    ensures Down.Rotate() == Left && Left.Rotate() == Up
  {
  }

  /** Four quarter turns are the identity. */
  lemma FourRotationsIdentity(d: Dir)
    ensures d.Rotate().Rotate().Rotate().Rotate() == d
  {
    match d
    case Up =>
    case Down =>
    case Left =>
    case Right =>
  }

  /** Two quarter turns reverse the direction: a step back undoes a step. */
  lemma TwoRotationsReverse(d: Dir, c: Coord)
    ensures d.Rotate().Rotate().Step(d.Step(c)) == c
    ensures d.Step(d.Rotate().Rotate().Step(c)) == c
  {
    match d
    case Up =>
    case Down =>
    case Left =>
    case Right =>
  }

  /** `Map::out_of_bounds` for a `width`-by-`height` grid: a coordinate inside it has a tile index. */
  function OutOfBounds(width: nat, height: nat, c: Coord): (out: bool)
    ensures !out ==> 0 <= IndexFrom(width, c) < width * height
  {
    if c.0 < 0 || c.0 >= width || c.1 < 0 || c.1 >= height then true
    else
      Arith.IndexBelow(c.0, c.1, width, height);
      false
  }

  /** `Map::coordinate_from`: `(index rem_euclid width, index div_euclid width)`; panics for width 0. */
  function CoordinateFrom(width: nat, index: nat): (c: Coord)
    requires width > 0
    ensures 0 <= c.0 < width && 0 <= c.1
    ensures IndexFrom(width, c) == index
  {
    (index % width, index / width)
  }

  /** `Map::index_from`, for coordinates inside the grid (where the `usize` casts are exact). */
  function IndexFrom(width: nat, c: Coord): (i: int)
    ensures 0 <= c.0 < width && 0 <= c.1 ==> 0 <= i && i / width == c.1 && i % width == c.0
  {
    if 0 <= c.0 < width && 0 <= c.1 then
      Arith.DivModOf(c.1, c.0, width);
      c.1 * width + c.0
    else c.1 * width + c.0
  }

  /** Every tile index names a coordinate inside the grid, and converts back to itself. */
  lemma CoordinateRoundTrip(width: nat, height: nat, index: nat)
    requires width > 0 && index < width * height
    ensures !OutOfBounds(width, height, CoordinateFrom(width, index))
    ensures IndexFrom(width, CoordinateFrom(width, index)) == index
  {
    Arith.DivBelow(index, width, height);
    assert index == width * (index / width) + index % width;
  }

  /** Every coordinate inside the grid names a tile index, and converts back to itself. */
  lemma IndexRoundTrip(width: nat, height: nat, c: Coord)
    requires width > 0 && !OutOfBounds(width, height, c)
    ensures 0 <= IndexFrom(width, c) < width * height
    ensures CoordinateFrom(width, IndexFrom(width, c)) == c
  {
    Arith.IndexBelow(c.0, c.1, width, height);
    Arith.DivModOf(c.1, c.0, width);
  }

  /** Distinct coordinates inside the grid have distinct indices. */
  lemma IndexFromInjective(width: nat, height: nat, a: Coord, b: Coord)
    requires width > 0 && !OutOfBounds(width, height, a) && !OutOfBounds(width, height, b)
    requires IndexFrom(width, a) == IndexFrom(width, b)
    ensures a == b
  {
    IndexRoundTrip(width, height, a);
    IndexRoundTrip(width, height, b);
  }

  /**
   * The assertion of `Line::new`: a horizontal line keeps its `y`, a
   * vertical one its `x`.
   */
  predicate Axial(dir: Dir, from: Coord, to: Coord) {
    (from.1 == to.1 && dir.IsHorizontal()) || (from.0 == to.0 && !dir.IsHorizontal())
  }

  /** A straight run of the guard's path, travelled in direction `dir`. */
  datatype Line = Line(dir: Dir, from: Coord, to: Coord)

  /** `Line::new`, whose assertion panics unless the line is axial. */
  function NewLine(dir: Dir, from: Coord, to: Coord): (line: Line)
    requires Axial(dir, from, to)
    ensures Axial(line.dir, line.from, line.to)
  {
    Line(dir, from, to)
  }

  /** `p` lies within the `x` range and within the `y` range of `line`. */
  predicate Spans(line: Line, p: Coord) {
    && Min(line.from.0, line.to.0) <= p.0 <= Max(line.from.0, line.to.0)
    && Min(line.from.1, line.to.1) <= p.1 <= Max(line.from.1, line.to.1)
  }

  /**
   * `Line::intersects_with`: parallel lines never meet; a horizontal line
   * meets a vertical one at `(x of the vertical, y of the horizontal)` when
   * that point is within both ranges; a vertical line asks the horizontal
   * one.
   */
  function IntersectsWith(self: Line, other: Line): (p: Option<Coord>)
    ensures self.dir.IsHorizontal() == other.dir.IsHorizontal() ==> p == None
    ensures p.Some? ==> Spans(self, p.value) && Spans(other, p.value)
    decreases if self.dir.IsHorizontal() then 0 else 1
  {
    if self.dir.IsHorizontal() == other.dir.IsHorizontal() then None
    else if self.dir.IsHorizontal() && !other.dir.IsHorizontal() then
      var selfY := self.from.1;
      var otherX := other.from.0;
      if Min(self.from.0, self.to.0) <= otherX <= Max(self.from.0, self.to.0)
         && Min(other.from.1, other.to.1) <= selfY <= Max(other.from.1, other.to.1)
      then Some((otherX, selfY))
      else None
    else
      IntersectsWith(other, self)
  }

  /** For perpendicular lines the intersection does not depend on the order of asking. */
  lemma IntersectionSymmetric(a: Line, b: Line)
    ensures IntersectsWith(a, b) == IntersectsWith(b, a)
  {
  }

  /** For axial perpendicular lines, a common point of both segments is their intersection. */
  lemma IntersectionComplete(a: Line, b: Line, p: Coord)
    requires Axial(a.dir, a.from, a.to) && Axial(b.dir, b.from, b.to)
    requires a.dir.IsHorizontal() != b.dir.IsHorizontal()
    requires Spans(a, p) && Spans(b, p)
    ensures IntersectsWith(a, b) == Some(p)
  {
  }

  /** The test of the source: `(0,1)-(9,1)` rightwards meets `(9,0)-(9,9)` downwards at `(9,1)`. */
  lemma IntersectionExample()
    ensures IntersectsWith(Line(Right, (0, 1), (9, 1)), Line(Down, (9, 0), (9, 9))) == Some((9, 1))
    ensures IntersectsWith(Line(Right, (0, 1), (9, 1)), Line(Left, (9, 1), (0, 1))) == None
  {
  }
}
