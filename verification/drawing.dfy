/** The geometry `draw` builds for a simple qubit: a reusable wire+pad cell
    placed twice around a junction rectangle. */
module Drawing {
  import opened Parameters
  import opened Geometry

  const CircuitName := "QUBIT"
  const ComponentName := "WIRE_CONNECTION"

  /** The repeated component: the pad circle, then the wire rectangle, in the
      order they are added. */
  function WireConnection(q: Qubit): Cell {
    Cell(ComponentName,
      [Round(Point(0.0, q.wireHeight), q.connectionRadius, q.connectionLayer),
       Rectangle(Point(0.0, 0.0), Point(q.wireWidth, q.wireHeight), q.wireLayer)],
      [])
  }

  /** The top cell: the junction rectangle and two placements of the
      component, the second turned by 180 degrees. */
  function Circuit(q: Qubit): Cell {
    Cell(CircuitName,
      [Rectangle(Point(0.0, 0.0), Point(q.junctionWidth, q.junctionHeight), q.junctionLayer)],
      [Reference(WireConnection(q), Point(0.0 + q.junctionOffset, q.junctionHeight), NoTurn),
       Reference(WireConnection(q), Point(q.junctionWidth - q.junctionOffset, 0.0), HalfTurn)])
  }

  /** The library `draw` creates: the top cell, then the component. */
  function DrawLibrary(q: Qubit): Library {
    Library([Circuit(q), WireConnection(q)])
  }

  /** The five primitives a drawing must flatten to, written out directly. */
  function ExpectedPrimitives(q: Qubit): seq<Shape> {
    var jw, jh, off := q.junctionWidth, q.junctionHeight, q.junctionOffset;
    var ww, wh := q.wireWidth, q.wireHeight;
    [Rectangle(Point(0.0, 0.0), Point(jw, jh), q.junctionLayer),
     Round(Point(off, jh + wh), q.connectionRadius, q.connectionLayer),
     Rectangle(Point(off, jh), Point(off + ww, jh + wh), q.wireLayer),
     Round(Point(jw - off, -wh), q.connectionRadius, q.connectionLayer),
     Rectangle(Point(jw - off, 0.0), Point(jw - off - ww, -wh), q.wireLayer)]
  }

  /** All dimensions positive. */
  predicate PositiveDimensions(q: Qubit) {
    && q.connectionRadius > 0.0
    && q.junctionWidth > 0.0 && q.junctionHeight > 0.0
    && q.wireWidth > 0.0 && q.wireHeight > 0.0
  }

  /** The three layers are pairwise different. */
  predicate DistinctLayers(q: Qubit) {
    q.wireLayer != q.junctionLayer && q.wireLayer != q.connectionLayer && q.junctionLayer != q.connectionLayer
  }

  /** The upright placement of the component gives the first pad and wire. */
  lemma UprightPlacement(q: Qubit)
    ensures PlaceAll(WireConnection(q).shapes, Circuit(q).refs[0]) == ExpectedPrimitives(q)[1..3]
  {
  }

  /** The half-turned placement of the component gives the second pad and wire. */
  lemma TurnedPlacement(q: Qubit)
    ensures PlaceAll(WireConnection(q).shapes, Circuit(q).refs[1]) == ExpectedPrimitives(q)[3..5]
  {
  }

  /** Flattening the drawn cell gives exactly the five expected primitives:
      the junction, then each placement's pad and wire. */
  lemma FlattenedCircuit(q: Qubit)
    ensures Flatten(Circuit(q)) == ExpectedPrimitives(q)
  {
    var c, comp, e := Circuit(q), WireConnection(q), ExpectedPrimitives(q);
    assert Flatten(comp) == comp.shapes by {
      assert FlattenRefs(comp, 0) == [];
    }
    UprightPlacement(q);
    TurnedPlacement(q);
    assert FlattenRefs(c, 2) == e[1..3] + e[3..5] by {
      assert FlattenRefs(c, 0) == [];
      assert FlattenRefs(c, 1) == e[1..3];
    }
    assert Flatten(c) == e[..1] + FlattenRefs(c, 2);
    assert e == e[..1] + e[1..3] + e[3..5];
  }

  /** The primitives of the drawn top cell, references resolved. */
  function Primitives(q: Qubit): (shapes: seq<Shape>)
    ensures shapes == ExpectedPrimitives(q)
  {
    FlattenedCircuit(q);
    Flatten(Circuit(q))
  }

  /** The drawing uses exactly the three configured layers. */
  lemma LayersUsed(q: Qubit)
    ensures Layers(Primitives(q)) == {q.wireLayer, q.junctionLayer, q.connectionLayer}
  {
  }

  /** Circles lie only on the connection layer and rectangles only on the
      junction or wire layer; with distinct layers, a shape is a circle
      exactly when it lies on the connection layer. */
  lemma ShapeKinds(q: Qubit)
    ensures forall s :: s in Primitives(q) ==>
              && (s.Round? ==> s.layer == q.connectionLayer)
              && (s.Rectangle? ==> s.layer == q.junctionLayer || s.layer == q.wireLayer)
              && (DistinctLayers(q) ==> (s.Round? <==> s.layer == q.connectionLayer))
  {
  }

  /** Each primitive has the configured size: circles the connection radius,
      the junction-layer rectangle the junction's sides, wire-layer
      rectangles the wire's sides, in either orientation. */
  lemma ShapeDimensions(q: Qubit)
    requires DistinctLayers(q)
    ensures |Primitives(q)| == 5
    ensures forall s :: s in Primitives(q) ==>
              && (s.layer == q.connectionLayer ==> s.Round? && s.radius == q.connectionRadius)
              && (s.layer == q.junctionLayer ==> s.Rectangle? && SidesMatch(s, q.junctionWidth, q.junctionHeight))
              && (s.layer == q.wireLayer ==> s.Rectangle? && SidesMatch(s, q.wireWidth, q.wireHeight))
  {
  }

  /** Every primitive has positive area exactly when all sizes are non-zero
      and the radius is positive. */
  lemma AreasPositive(q: Qubit)
    ensures (forall s :: s in Primitives(q) ==> PositiveArea(s)) <==>
              && q.connectionRadius > 0.0
              && q.junctionWidth != 0.0 && q.junctionHeight != 0.0
              && q.wireWidth != 0.0 && q.wireHeight != 0.0
  {
    var shapes := Primitives(q);
    ProductPositive(q.junctionWidth, q.junctionHeight);
    ProductPositive(q.wireWidth, q.wireHeight);
    assert Width(shapes[0]) == Abs(q.junctionWidth) && Height(shapes[0]) == Abs(q.junctionHeight);
    assert Width(shapes[2]) == Abs(q.wireWidth) && Height(shapes[2]) == Abs(q.wireHeight);
    assert Width(shapes[4]) == Abs(q.wireWidth) && Height(shapes[4]) == Abs(q.wireHeight);
    assert shapes[0] in shapes && shapes[1] in shapes && shapes[2] in shapes;
    assert forall s :: s in shapes ==> s == shapes[0] || s == shapes[1] || s == shapes[2] || s == shapes[3] || s == shapes[4];
  }

  /** With positive sizes, each wire shares an edge segment of positive
      length with the junction exactly when the offset lies strictly between
      minus the wire width and the junction width. The offset bound
      `0 < offset <= junction_width / 2` lies inside that range. */
  lemma WiresJoinJunction(q: Qubit)
    requires PositiveDimensions(q)
    ensures Joined(Primitives(q)[0], Primitives(q)[2]) <==>
              -q.wireWidth < q.junctionOffset < q.junctionWidth
    ensures Joined(Primitives(q)[0], Primitives(q)[4]) <==>
              -q.wireWidth < q.junctionOffset < q.junctionWidth
  {
  }

  /** With positive sizes, each pad's centre lies on the outer edge of its
      wire: the top edge of the upper wire, the bottom edge of the lower. */
  lemma PadsOnWireEnds(q: Qubit)
    requires PositiveDimensions(q)
    ensures var s := Primitives(q);
              && s[1].center.y == Top(s[2]) && Left(s[2]) <= s[1].center.x <= Right(s[2])
              && s[3].center.y == Bottom(s[4]) && Left(s[4]) <= s[3].center.x <= Right(s[4])
  {
  }

  /** With positive sizes and `0 < offset <= junction_width / 2`, the five
      primitives form one connected region. */
  lemma ConnectedLayout(q: Qubit)
    requires PositiveDimensions(q)
    requires 0.0 < q.junctionOffset <= q.junctionWidth / 2.0
    ensures Connected(Primitives(q))
  {
    var shapes := Primitives(q);
    WiresJoinJunction(q);
    PadsOnWireEnds(q);
    forall reached: set<int> | 0 in reached && ClosedUnderJoin(shapes, reached)
      ensures forall i :: 0 <= i < |shapes| ==> i in reached
    {
      assert Joined(shapes[0], shapes[2]) && Joined(shapes[0], shapes[4]);
      assert 2 in reached && 4 in reached;
      assert Joined(shapes[2], shapes[1]) && Joined(shapes[4], shapes[3]);
      assert 1 in reached && 3 in reached;
    }
  }
}
