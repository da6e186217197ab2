/**
 * The bounding box of the top-level entities (CalculateBounds): a fold of four
 * running extremes that start at the single-precision sentinels.
 */
module Bounds {
  import opened Common
  import opened Geometry
  import opened Dxf

  /** The largest finite single-precision value; the sentinels are its two signs. */
  const FloatMax: real := 340282346638528859811704183484516925440.0

  datatype Box = Box(minX: real, minY: real, maxX: real, maxY: real)

  /** The starting box: nothing absorbed yet. */
  function Sentinel(): Box { Box(FloatMax, FloatMax, -FloatMax, -FloatMax) }

  predicate Inside(b: Box, p: Point)
  {
    b.minX <= p.x <= b.maxX && b.minY <= p.y <= b.maxY
  }

  /** `outer` reaches at least as far as `inner` on every side. */
  predicate Encloses(outer: Box, inner: Box)
  {
    outer.minX <= inner.minX && outer.minY <= inner.minY && inner.maxX <= outer.maxX && inner.maxY <= outer.maxY
  }

  predicate Ordered(b: Box)
  {
    b.minX <= b.maxX && b.minY <= b.maxY
  }

  /** The control geometry of `e` lies in `b`: what absorbing `e` guarantees. */
  predicate Covers(b: Box, e: Entity)
  {
    match e
    case Circle(c, r) => b.minX <= c.x - r && c.x + r <= b.maxX && b.minY <= c.y - r && c.y + r <= b.maxY
    case Arc(c, r, _, _) => b.minX <= c.x - r && c.x + r <= b.maxX && b.minY <= c.y - r && c.y + r <= b.maxY
    case Line(p1, p2) => Inside(b, p1) && Inside(b, p2)
    case Ellipse(c, a) => b.minX <= c.x - a.x && c.x + a.x <= b.maxX && b.minY <= c.y - a.y && c.y + a.y <= b.maxY
    case XLine(p, _) => Inside(b, p)
    case Ray(p, _) => Inside(b, p)
    case Leader(vs) => forall i :: 0 <= i < |vs| ==> Inside(b, vs[i])
    case MLine(vs) => forall i :: 0 <= i < |vs| ==> Inside(b, vs[i])
    case MText(_, _) => true
    case Insert(_, _, _, _, _, _, _, _, _, _) => true
    case Other(_) => true
  }

  /** Whether absorbing `e` can move the box at all. */
  predicate Contributes(e: Entity)
  {
    match e
    case Leader(vs) => |vs| > 0
    case MLine(vs) => |vs| > 0
    case MText(_, _) => false
    case Insert(_, _, _, _, _, _, _, _, _, _) => false
    case Other(_) => false
    case _ => true
  }

  /** Radii and major-axis components are non-negative, so each entity's own extent is ordered. */
  predicate WellFormed(e: Entity)
  {
    match e
    case Circle(_, r) => r >= 0.0
    case Arc(_, r, _, _) => r >= 0.0
    case Ellipse(_, a) => a.x >= 0.0 && a.y >= 0.0
    case _ => true
  }

  /** One update of the four running extremes: lows against `lo`, highs against `hi`. */
  function Widen(b: Box, lo: Point, hi: Point): (r: Box)
    ensures Encloses(r, b)
    ensures r.minX <= lo.x && r.minY <= lo.y && hi.x <= r.maxX && hi.y <= r.maxY
  {
    Box(Min(b.minX, lo.x), Min(b.minY, lo.y), Max(b.maxX, hi.x), Max(b.maxY, hi.y))
  }

  /** Absorbing a vertex list, one vertex after the other. */
  function AbsorbVertices(b: Box, vs: seq<Point>): (r: Box)
    ensures Encloses(r, b)
    ensures forall i :: 0 <= i < |vs| ==> Inside(r, vs[i])
    decreases |vs|
  {
    if vs == [] then b
    else
      var r := Widen(AbsorbVertices(b, vs[..|vs| - 1]), vs[|vs| - 1], vs[|vs| - 1]);
      assert forall i :: 0 <= i < |vs| - 1 ==> vs[..|vs| - 1][i] == vs[i];
      r
  }

  /** Absorbing one entity, as the branch for its kind does. */
  function AbsorbEntity(b: Box, e: Entity): (r: Box)
    ensures Encloses(r, b) && Covers(r, e)
  {
    match e
    case Circle(c, radius) => Widen(b, Point(c.x - radius, c.y - radius), Point(c.x + radius, c.y + radius))
    case Line(p1, p2) => Widen(b, Point(Min(p1.x, p2.x), Min(p1.y, p2.y)), Point(Max(p1.x, p2.x), Max(p1.y, p2.y)))
    case Arc(c, radius, _, _) => Widen(b, Point(c.x - radius, c.y - radius), Point(c.x + radius, c.y + radius))
    case Ellipse(c, a) => Widen(b, Point(c.x - a.x, c.y - a.y), Point(c.x + a.x, c.y + a.y))
    case XLine(p, _) => Widen(b, p, p)
    case Ray(p, _) => Widen(b, p, p)
    case Leader(vs) => AbsorbVertices(b, vs)
    case MLine(vs) => AbsorbVertices(b, vs)
    case MText(_, _) => b
    case Insert(_, _, _, _, _, _, _, _, _, _) => b
    case Other(_) => b
  }

  /** The box of a sequence of entities, absorbed in order from the sentinel. */
  function BoundsOf(entities: seq<Entity>): Box
    decreases |entities|
  {
    if entities == [] then Sentinel()
    else AbsorbEntity(BoundsOf(entities[..|entities| - 1]), entities[|entities| - 1])
  }

  method CalculateBounds(entities: seq<Entity>) returns (bounds: Box)
    ensures bounds == BoundsOf(entities)
  {
    var minX, minY, maxX, maxY := FloatMax, FloatMax, -FloatMax, -FloatMax;
    for i := 0 to |entities|
      invariant Box(minX, minY, maxX, maxY) == BoundsOf(entities[..i])
    {
      var entity := entities[i];
      assert entities[..i + 1][..i] == entities[..i];
      if entity.Circle? {
        var radius := entity.radius;
        minX := Min(minX, entity.center.x - radius);
        minY := Min(minY, entity.center.y - radius);
        maxX := Max(maxX, entity.center.x + radius);
        maxY := Max(maxY, entity.center.y + radius);
      } else if entity.Line? {
        minX := Min(minX, Min(entity.p1.x, entity.p2.x));
        minY := Min(minY, Min(entity.p1.y, entity.p2.y));
        maxX := Max(maxX, Max(entity.p1.x, entity.p2.x));
        maxY := Max(maxY, Max(entity.p1.y, entity.p2.y));
      } else if entity.Arc? {
        var radius := entity.radius;
        minX := Min(minX, entity.center.x - radius);
        minY := Min(minY, entity.center.y - radius);
        maxX := Max(maxX, entity.center.x + radius);
        maxY := Max(maxY, entity.center.y + radius);
      } else if entity.Ellipse? {
        var radiusX := entity.majorAxis.x;
        var radiusY := entity.majorAxis.y;
        minX := Min(minX, entity.center.x - radiusX);
        minY := Min(minY, entity.center.y - radiusY);
        maxX := Max(maxX, entity.center.x + radiusX);
        maxY := Max(maxY, entity.center.y + radiusY);
      } else if entity.XLine? {
        minX := Min(minX, entity.firstPoint.x);
        minY := Min(minY, entity.firstPoint.y);
        maxX := Max(maxX, entity.firstPoint.x);
        maxY := Max(maxY, entity.firstPoint.y);
      } else if entity.Ray? {
        minX := Min(minX, entity.startPoint.x);
        minY := Min(minY, entity.startPoint.y);
        maxX := Max(maxX, entity.startPoint.x);
        maxY := Max(maxY, entity.startPoint.y);
      } else if entity.Leader? || entity.MLine? {
        ghost var before := Box(minX, minY, maxX, maxY);
        var vertices := entity.vertices;
        for j := 0 to |vertices|
          invariant Box(minX, minY, maxX, maxY) == AbsorbVertices(before, vertices[..j])
        {
          assert vertices[..j + 1][..j] == vertices[..j];
          var vertex := vertices[j];
          minX := Min(minX, vertex.x);
          minY := Min(minY, vertex.y);
          maxX := Max(maxX, vertex.x);
          maxY := Max(maxY, vertex.y);
        }
        assert vertices[..|vertices|] == vertices;
      }
    }
    assert entities[..|entities|] == entities;
    bounds := Box(minX, minY, maxX, maxY);
  }

  lemma CoversEnclosed(inner: Box, outer: Box, e: Entity)
    requires Covers(inner, e) && Encloses(outer, inner)
    ensures Covers(outer, e)
  {
  }

  /** Every control point any entity contributes lies inside the returned box. */
  lemma {:induction false} BoundsCoverAll(entities: seq<Entity>)
    ensures forall i :: 0 <= i < |entities| ==> Covers(BoundsOf(entities), entities[i])
    decreases |entities|
  {
    if entities != [] {
      var init := entities[..|entities| - 1];
      BoundsCoverAll(init);
      forall i | 0 <= i < |entities| - 1
        ensures Covers(BoundsOf(entities), entities[i])
      {
        assert entities[i] == init[i];
        CoversEnclosed(BoundsOf(init), BoundsOf(entities), entities[i]);
      }
    }
  }

  /**
   * The box is the least one: any box that covers every entity and reaches the
   * sentinels encloses it.
   */
  lemma {:induction false} BoundsLeast(entities: seq<Entity>, c: Box)
    requires forall i :: 0 <= i < |entities| ==> Covers(c, entities[i])
    requires Encloses(c, Sentinel())
    ensures Encloses(c, BoundsOf(entities))
    decreases |entities|
  {
    if entities != [] {
      var init := entities[..|entities| - 1];
      assert forall i :: 0 <= i < |init| ==> init[i] == entities[i];
      BoundsLeast(init, c);
      AbsorbLeast(BoundsOf(init), entities[|entities| - 1], c);
    }
  }

  lemma AbsorbLeast(b: Box, e: Entity, c: Box)
    requires Covers(c, e) && Encloses(c, b)
    ensures Encloses(c, AbsorbEntity(b, e))
  {
    match e
    case Leader(vs) => VerticesLeast(b, vs, c);
    case MLine(vs) => VerticesLeast(b, vs, c);
    case _ =>
  }

  lemma {:induction false} VerticesLeast(b: Box, vs: seq<Point>, c: Box)
    requires forall i :: 0 <= i < |vs| ==> Inside(c, vs[i])
    requires Encloses(c, b)
    ensures Encloses(c, AbsorbVertices(b, vs))
    decreases |vs|
  {
    if vs != [] {
      VerticesLeast(b, vs[..|vs| - 1], c);
    }
  }

  /** When no entity contributes (only inserts, text and other kinds), the sentinel box comes back. */
  lemma {:induction false} BoundsWithoutContribution(entities: seq<Entity>)
    requires forall i :: 0 <= i < |entities| ==> !Contributes(entities[i])
    ensures BoundsOf(entities) == Sentinel()
    decreases |entities|
  {
    if entities != [] {
      BoundsWithoutContribution(entities[..|entities| - 1]);
      var last := entities[|entities| - 1];
      assert !Contributes(last);
      if last.Leader? || last.MLine? {
        assert last.vertices == [];
      }
    }
  }

  /** An entity that contributes nothing leaves the box as it was. */
  lemma AbsorbNonContributing(b: Box, e: Entity)
    requires !Contributes(e)
    ensures AbsorbEntity(b, e) == b
  {
    if e.Leader? || e.MLine? {
      assert e.vertices == [];
    }
  }

  /** An entity that contributes nothing can be removed from anywhere in the list without changing the box. */
  lemma {:induction false} BoundsSkipNonContributing(before: seq<Entity>, x: Entity, after: seq<Entity>)
    requires !Contributes(x)
    ensures BoundsOf(before + [x] + after) == BoundsOf(before + after)
    decreases |after|
  {
    var with, without := before + [x] + after, before + after;
    if after == [] {
      assert with[..|with| - 1] == before == without;
      AbsorbNonContributing(BoundsOf(before), x);
    } else {
      var init := after[..|after| - 1];
      assert with[..|with| - 1] == before + [x] + init;
      assert without[..|without| - 1] == before + init;
      assert with[|with| - 1] == without[|without| - 1];
      BoundsSkipNonContributing(before, x, init);
    }
  }

  /** Once one entity contributes and every extent is well formed, the box is ordered on both axes. */
  lemma {:induction false} BoundsOrdered(entities: seq<Entity>)
    requires exists i :: 0 <= i < |entities| && Contributes(entities[i])
    requires forall i :: 0 <= i < |entities| ==> WellFormed(entities[i])
    ensures Ordered(BoundsOf(entities))
    decreases |entities|
  {
    var init, last := entities[..|entities| - 1], entities[|entities| - 1];
    if Contributes(last) {
      AbsorbContributingOrdered(BoundsOf(init), last);
    } else {
      var i :| 0 <= i < |entities| && Contributes(entities[i]);
      assert init[i] == entities[i];
      BoundsOrdered(init);
      assert Encloses(BoundsOf(entities), BoundsOf(init));
    }
  }

  lemma AbsorbContributingOrdered(b: Box, e: Entity)
    requires Contributes(e) && WellFormed(e)
    ensures Ordered(AbsorbEntity(b, e))
  {
    match e
    case Leader(vs) => assert Inside(AbsorbEntity(b, e), vs[0]);
    case MLine(vs) => assert Inside(AbsorbEntity(b, e), vs[0]);
    case _ =>
  }
}
