/** Ideal layout geometry in exact real arithmetic: rectangles and circles
    tagged with a layer, cells that hold shapes and references to other
    cells, and the flattening that resolves references into placed shapes. */
module Geometry {

  datatype Point = Point(x: real, y: real)

  /** A layout primitive. A rectangle is given by two opposite corners in the
      order they were supplied; a round is an ideal disk. */
  datatype Shape =
    | Rectangle(corner: Point, opposite: Point, layer: real)
    | Round(center: Point, radius: real, layer: real)

  /** The rotations a reference can carry here: none, or a half turn. */
  datatype Rotation = NoTurn | HalfTurn

  /** A cell: its own shapes, then references placing other cells. */
  datatype Cell = Cell(name: string, shapes: seq<Shape>, refs: seq<Reference>)

  /** A placement of `cell`: rotate about the cell's origin, then translate
      the origin to `origin`. */
  datatype Reference = Reference(cell: Cell, origin: Point, rotation: Rotation)

  /** A document holding cells, in the order they were created. */
  datatype Library = Library(cells: seq<Cell>)

  function Abs(a: real): real {
    if a < 0.0 then -a else a
  }

  function Min(a: real, b: real): real {
    if a <= b then a else b
  }

  function Max(a: real, b: real): real {
    if a <= b then b else a
  }

  /** Side lengths of a rectangle along the two axes. */
  function Width(s: Shape): real
    requires s.Rectangle?
  {
    Abs(s.opposite.x - s.corner.x)
  }

  function Height(s: Shape): real
    requires s.Rectangle?
  {
    Abs(s.opposite.y - s.corner.y)
  }

  /** Where a point of the referenced cell lands. */
  function Move(p: Point, r: Reference): Point {
    match r.rotation
    case NoTurn => Point(r.origin.x + p.x, r.origin.y + p.y)
    case HalfTurn => Point(r.origin.x - p.x, r.origin.y - p.y)
  }

  /** A shape of the referenced cell, placed: a rigid motion, so kind, layer,
      radius and side lengths are kept. */
  function Place(s: Shape, r: Reference): (t: Shape)
    ensures t.Rectangle? == s.Rectangle? && t.layer == s.layer
    ensures t.Round? ==> t.radius == s.radius && t.center == Move(s.center, r)
    ensures t.Rectangle? ==> Width(t) == Width(s) && Height(t) == Height(s)
  {
    match s
    case Rectangle(a, b, layer) => Rectangle(Move(a, r), Move(b, r), layer)
    case Round(c, radius, layer) => Round(Move(c, r), radius, layer)
  }

  /** Every shape of a cell, references resolved recursively: the cell's own
      shapes first, then each reference's shapes in turn. */
  function Flatten(c: Cell): seq<Shape>
    decreases c, 1
  {
    c.shapes + FlattenRefs(c, |c.refs|)
  }

  /** The placed shapes of the first `n` references of `c`. */
  function FlattenRefs(c: Cell, n: nat): seq<Shape>
    requires n <= |c.refs|
    decreases c, 0, n
  {
    if n == 0 then []
    else
      var r := c.refs[n - 1];
      FlattenRefs(c, n - 1) + PlaceAll(Flatten(r.cell), r)
  }

  function PlaceAll(shapes: seq<Shape>, r: Reference): seq<Shape> {
    seq(|shapes|, i requires 0 <= i < |shapes| => Place(shapes[i], r))
  }

  /** The layers a sequence of shapes uses. */
  function Layers(shapes: seq<Shape>): set<real> {
    set s | s in shapes :: s.layer
  }

  /** The extent of a rectangle along each axis, whichever corner came first. */
  function Left(s: Shape): real requires s.Rectangle? { Min(s.corner.x, s.opposite.x) }
  function Right(s: Shape): real requires s.Rectangle? { Max(s.corner.x, s.opposite.x) }
  function Bottom(s: Shape): real requires s.Rectangle? { Min(s.corner.y, s.opposite.y) }
  function Top(s: Shape): real requires s.Rectangle? { Max(s.corner.y, s.opposite.y) }

  /** The closed intervals share more than a point. */
  predicate Overlap(lo1: real, hi1: real, lo2: real, hi2: real) {
    Max(lo1, lo2) < Min(hi1, hi2)
  }

  /** The closed intervals share at least a point. */
  predicate Meet(lo1: real, hi1: real, lo2: real, hi2: real) {
    Max(lo1, lo2) <= Min(hi1, hi2)
  }

  predicate Inside(p: Point, s: Shape)
    requires s.Rectangle?
  {
    Left(s) <= p.x <= Right(s) && Bottom(s) <= p.y <= Top(s)
  }

  /** The two closed regions touch along more than a single point, so their
      union is one connected region: rectangles sharing an edge segment of
      positive length (or overlapping), a disk whose centre lies in a
      rectangle, or two disks whose centres are closer than their radii sum. */
  predicate Joined(s: Shape, t: Shape) {
    if s.Rectangle? && t.Rectangle? then
      || (Overlap(Left(s), Right(s), Left(t), Right(t)) && Meet(Bottom(s), Top(s), Bottom(t), Top(t)))
      || (Meet(Left(s), Right(s), Left(t), Right(t)) && Overlap(Bottom(s), Top(s), Bottom(t), Top(t)))
    else if s.Round? && t.Rectangle? then
      s.radius > 0.0 && Inside(s.center, t)
    else if s.Rectangle? && t.Round? then
      t.radius > 0.0 && Inside(t.center, s)
    else
      var dx, dy := s.center.x - t.center.x, s.center.y - t.center.y;
      s.radius > 0.0 && t.radius > 0.0 && dx * dx + dy * dy < (s.radius + t.radius) * (s.radius + t.radius)
  }

  /** Starting from shape 0, no index set closed under `Joined` can leave a
      shape out: the shapes form one connected region. */
  predicate ClosedUnderJoin(shapes: seq<Shape>, reached: set<int>) {
    forall i, j :: 0 <= i < |shapes| && 0 <= j < |shapes| && i in reached && Joined(shapes[i], shapes[j]) ==> j in reached
  }

  ghost predicate Connected(shapes: seq<Shape>) {
    forall reached: set<int> :: 0 in reached && ClosedUnderJoin(shapes, reached) ==>
      forall i :: 0 <= i < |shapes| ==> i in reached
  }

  /** A rectangle's area is positive exactly when both sides are non-zero;
      a disk's exactly when its radius is positive. */
  predicate PositiveArea(s: Shape) {
    match s
    case Rectangle(_, _, _) => Width(s) * Height(s) > 0.0
    case Round(_, radius, _) => radius > 0.0
  }

  /** The rectangle's sides are (w, h) in either orientation. */
  predicate SidesMatch(s: Shape, w: real, h: real)
    requires s.Rectangle?
  {
    (Width(s) == Abs(w) && Height(s) == Abs(h)) || (Width(s) == Abs(h) && Height(s) == Abs(w))
  }

  lemma ProductPositive(a: real, b: real)
    ensures Abs(a) * Abs(b) > 0.0 <==> a != 0.0 && b != 0.0
  {
    if a != 0.0 && b != 0.0 {
      assert Abs(a) > 0.0 && Abs(b) > 0.0;
    }
  }
}
