/**
 * The drawing step (DrawEntities). Pixels are not modelled: the drawing surface
 * records each draw call together with the transform in force at that moment.
 */
module Render {
  import opened Common
  import opened Geometry
  import opened Dxf
  import opened Bounds
  import opened Flatten

  /** A recorded call on the drawing surface; every stroke and fill is black. */
  datatype DrawOp =
    | ClearWhite
    | DrawLine(transform: Matrix, from: Point, to: Point)
    | DrawEllipse(transform: Matrix, x: real, y: real, width: real, height: real)
    | DrawArc(transform: Matrix, x: real, y: real, width: real, height: real, startAngle: real, sweepAngle: real)
    | DrawString(transform: Matrix, text: string, fontFamily: string, fontSize: real, at: Point)

  /** Distance along the direction vector at which infinite lines and rays are cut off. */
  const FarLength: real := 1000.0

  /** The drawing surface: its current world transform and everything drawn on it so far. */
  class Graphics {
    var transform: Matrix
    var ops: seq<DrawOp>

    constructor FromImage()
      ensures transform == Identity() && ops == []
    {
      transform := Identity();
      ops := [];
    }

    method Clear()
      modifies this`ops
      ensures ops == [ClearWhite]
    {
      ops := [ClearWhite];
    }

    method TranslateTransform(dx: real, dy: real)
      modifies this`transform
      ensures transform == Multiply(Translation(dx, dy), old(transform))
    {
      transform := Multiply(Translation(dx, dy), transform);
    }

    method ScaleTransform(sx: real, sy: real)
      modifies this`transform
      ensures transform == Multiply(Scaling(sx, sy), old(transform))
    {
      transform := Multiply(Scaling(sx, sy), transform);
    }

    method MultiplyTransform(m: Matrix)
      modifies this`transform
      ensures transform == Multiply(m, old(transform))
    {
      transform := Multiply(m, transform);
    }

    method SetTransform(m: Matrix)
      modifies this`transform
      ensures transform == m
    {
      transform := m;
    }

    method Line(from: Point, to: Point)
      modifies this`ops
      ensures ops == old(ops) + [DrawLine(transform, from, to)]
    {
      ops := ops + [DrawLine(transform, from, to)];
    }

    method Ellipse(x: real, y: real, width: real, height: real)
      modifies this`ops
      ensures ops == old(ops) + [DrawEllipse(transform, x, y, width, height)]
    {
      ops := ops + [DrawEllipse(transform, x, y, width, height)];
    }

    method Arc(x: real, y: real, width: real, height: real, startAngle: real, sweepAngle: real)
      modifies this`ops
      ensures ops == old(ops) + [DrawArc(transform, x, y, width, height, startAngle, sweepAngle)]
    {
      ops := ops + [DrawArc(transform, x, y, width, height, startAngle, sweepAngle)];
    }

    method String(text: string, fontFamily: string, fontSize: real, at: Point)
      modifies this`ops
      ensures ops == old(ops) + [DrawString(transform, text, fontFamily, fontSize, at)]
    {
      ops := ops + [DrawString(transform, text, fontFamily, fontSize, at)];
    }
  }

  /**
   * The sweep of an arc: an end angle below the start angle is moved up a full
   * turn, so the arc runs counter-clockwise from start to end.
   */
  function SweepAngle(startAngle: real, endAngle: real): (sweep: real)
    ensures endAngle < startAngle ==> sweep == endAngle - startAngle + 360.0
    ensures endAngle >= startAngle ==> sweep == endAngle - startAngle
    ensures sweep >= 0.0 <==> endAngle >= startAngle - 360.0
    ensures 0.0 <= startAngle < 360.0 && 0.0 <= endAngle < 360.0 ==> 0.0 <= sweep < 360.0
  {
    var end := if endAngle < startAngle then endAngle + 360.0 else endAngle;
    end - startAngle
  }

  /** An arc from 350 to 10 degrees sweeps 20 degrees across zero, not -340. */
  lemma SweepAcrossZero()
    ensures SweepAngle(350.0, 10.0) == 20.0
  {
  }

  /** The far end of the segment drawn for an infinite line or a ray. */
  function FarPoint(start: Point, direction: Point): Point
  {
    Point(start.x + direction.x * FarLength, start.y + direction.y * FarLength)
  }

  /** The segment runs along the direction, FarLength times its length; 1000 units for a unit direction. */
  lemma FarPointDistance(start: Point, direction: Point)
    ensures var end := FarPoint(start, direction);
      && end.x - start.x == FarLength * direction.x && end.y - start.y == FarLength * direction.y
      && (end.x - start.x) * (end.x - start.x) + (end.y - start.y) * (end.y - start.y)
         == FarLength * FarLength * (direction.x * direction.x + direction.y * direction.y)
  {
  }

  /** Consecutive vertices joined by segments: n-1 of them for n > 1 vertices, none otherwise. */
  function Segments(vertices: seq<Point>, t: Matrix): (r: seq<DrawOp>)
    ensures |r| == if |vertices| > 1 then |vertices| - 1 else 0
    ensures forall i :: 0 <= i < |r| ==> r[i] == DrawLine(t, vertices[i], vertices[i + 1])
    decreases |vertices|
  {
    if |vertices| <= 1 then []
    else
      var init := vertices[..|vertices| - 1];
      assert forall i :: 0 <= i < |init| ==> init[i] == vertices[i];
      Segments(init, t) + [DrawLine(t, vertices[|vertices| - 2], vertices[|vertices| - 1])]
  }

  /** The horizontal radius an ellipse is drawn with: the square of its major axis' X component. */
  function EllipseRadiusX(majorAxis: Point): real
  {
    majorAxis.x * majorAxis.x
  }

  /**
   * The calls that draw one entity under transform `t`: one call for each simple
   * kind, the segments of a vertex list, nothing for inserts and other kinds.
   */
  function EntityOps(e: Entity, t: Matrix): (r: seq<DrawOp>)
    ensures |r| == if e.Insert? || e.Other? then 0
                   else if e.Leader? || e.MLine? then (if |e.vertices| > 1 then |e.vertices| - 1 else 0)
                   else 1
  {
    match e
    case Circle(c, radius) => [DrawEllipse(t, c.x - radius, c.y - radius, radius * 2.0, radius * 2.0)]
    case Line(p1, p2) => [DrawLine(t, p1, p2)]
    case Arc(c, radius, startAngle, endAngle) =>
      [DrawArc(t, c.x - radius, c.y - radius, radius * 2.0, radius * 2.0, startAngle, SweepAngle(startAngle, endAngle))]
    case Ellipse(c, a) =>
      var radiusX := EllipseRadiusX(a);
      var radiusY := a.y;
      [DrawEllipse(t, c.x - radiusX, c.y - radiusY, radiusX * 2.0, radiusY * 2.0)]
    case MText(p, text) => [DrawString(t, text, "Arial", 20.0, p)]
    case XLine(p, d) => [DrawLine(t, p, FarPoint(p, d))]
    case Ray(p, d) => [DrawLine(t, p, FarPoint(p, d))]
    case Leader(vs) => Segments(vs, t)
    case MLine(vs) => Segments(vs, t)
    case Insert(_, _, _, _, _, _, _, _, _, _) => []
    case Other(_) => []
  }

  function EntityDrawer(t: Matrix): CustomEntity -> seq<DrawOp>
  {
    (c: CustomEntity) => EntityOps(c.entity, t)
  }

  function GeometryDrawer(t: Matrix): Entity -> seq<DrawOp>
  {
    (e: Entity) => EntityOps(e, t)
  }

  /** The calls that draw a flattened list, entity after entity. */
  function RenderOps(entities: seq<CustomEntity>, t: Matrix): seq<DrawOp>
  {
    FlatMap(entities, EntityDrawer(t))
  }

  /** The calls that draw a list of raw entities at their own coordinates. */
  function GeometryOps(entities: seq<Entity>, t: Matrix): seq<DrawOp>
  {
    FlatMap(entities, GeometryDrawer(t))
  }

  /**
   * Every call drawing an entity carries the transform it was drawn under, and
   * its kind follows the entity's: ellipses for circles and ellipses, an arc for
   * an arc, text for multiline text, lines for everything else.
   */
  lemma EntityOpsUnder(e: Entity, t: Matrix)
    ensures forall op :: op in EntityOps(e, t) ==> !op.ClearWhite? && op.transform == t
    ensures forall op :: op in EntityOps(e, t) ==>
      && (op.DrawEllipse? <==> e.Circle? || e.Ellipse?)
      && (op.DrawArc? <==> e.Arc?)
      && (op.DrawString? <==> e.MText?)
      && (op.DrawLine? <==> e.Line? || e.XLine? || e.Ray? || e.Leader? || e.MLine?)
  {
    match e
    case Leader(vs) => SegmentsUnder(vs, t);
    case MLine(vs) => SegmentsUnder(vs, t);
    case _ =>
  }

  lemma SegmentsUnder(vertices: seq<Point>, t: Matrix)
    ensures forall op :: op in Segments(vertices, t) ==> op.DrawLine? && op.transform == t
  {
    var ops := Segments(vertices, t);
    forall op | op in ops
      ensures op.DrawLine? && op.transform == t
    {
      var i :| 0 <= i < |ops| && ops[i] == op;
    }
  }

  /**
   * The placement matrix of an insert-tagged entity (translate, rotate, scale,
   * for the top-level and then the nested insert data). `rotate` gives the
   * rotation matrix of an angle in degrees.
   */
  function InstanceMatrix(c: CustomEntity, rotate: real -> Matrix): Matrix
  {
    var m := Identity();
    var m := if c.topInsertFeatures.Some? then Place(c.topInsertFeatures.value, rotate, m) else m;
    if c.nestedInsertFeatures.Some? then Place(c.nestedInsertFeatures.value, rotate, m) else m
  }

  function Place(f: InsertFeatures, rotate: real -> Matrix, m: Matrix): Matrix
  {
    Multiply(Scaling(f.xScaleFactor, f.yScaleFactor),
      Multiply(rotate(f.rotation), Multiply(Translation(f.location.x, f.location.y), m)))
  }

  /** Placing with `f` scales a point, rotates it, moves it to the insert's location, then applies `m`. */
  lemma PlaceAt(f: InsertFeatures, rotate: real -> Matrix, m: Matrix, p: Point)
    ensures Apply(Place(f, rotate, m), p)
         == Apply(m, Apply(Translation(f.location.x, f.location.y),
                     Apply(rotate(f.rotation), Apply(Scaling(f.xScaleFactor, f.yScaleFactor), p))))
  {
    var s, r, l := Scaling(f.xScaleFactor, f.yScaleFactor), rotate(f.rotation), Translation(f.location.x, f.location.y);
    MultiplyAt(s, Multiply(r, Multiply(l, m)), p);
    MultiplyAt(r, Multiply(l, m), Apply(s, p));
    MultiplyAt(l, m, Apply(r, Apply(s, p)));
  }

  /**
   * The matrix built for a block member (nested insert data only, as flattening
   * produces) maps a block point to the insert's frame: scaled, rotated, then
   * moved to the insert's location.
   */
  lemma InstanceMatrixAt(c: CustomEntity, rotate: real -> Matrix, p: Point)
    requires c.topInsertFeatures.None? && c.nestedInsertFeatures.Some?
    ensures var f := c.nestedInsertFeatures.value;
      Apply(InstanceMatrix(c, rotate), p)
      == Apply(Translation(f.location.x, f.location.y), Apply(rotate(f.rotation), Apply(Scaling(f.xScaleFactor, f.yScaleFactor), p)))
  {
    var f := c.nestedInsertFeatures.value;
    PlaceAt(f, rotate, Identity(), p);
  }

  method DrawPolyline(g: Graphics, vertices: seq<Point>)
    modifies g`ops
    ensures g.ops == old(g.ops) + Segments(vertices, g.transform)
  {
    if |vertices| > 1 {
      for i := 0 to |vertices| - 1
        invariant g.ops == old(g.ops) + Segments(vertices[..i + 1], g.transform)
      {
        assert vertices[..i + 2][..i + 1] == vertices[..i + 1];
        g.Line(vertices[i], vertices[i + 1]);
      }
      assert vertices[..|vertices|] == vertices;
    }
  }

  /** The branch for each entity kind; inserts and other kinds draw nothing. */
  method DrawGeometry(g: Graphics, e: Entity)
    modifies g`ops
    ensures g.ops == old(g.ops) + EntityOps(e, g.transform)
  {
    match e
    case Circle(center, radius) =>
      g.Ellipse(center.x - radius, center.y - radius, radius * 2.0, radius * 2.0);
    case Line(p1, p2) =>
      g.Line(p1, p2);
    case Arc(center, radius, startAngle, endAngle) =>
      var end := endAngle;
      if end < startAngle {
        end := end + 360.0;
      }
      g.Arc(center.x - radius, center.y - radius, radius * 2.0, radius * 2.0, startAngle, end - startAngle);
    case Ellipse(center, majorAxis) =>
      var radiusX := EllipseRadiusX(majorAxis);
      var radiusY := majorAxis.y;
      g.Ellipse(center.x - radiusX, center.y - radiusY, radiusX * 2.0, radiusY * 2.0);
    case MText(position, text) =>
      g.String(text, "Arial", 20.0, position);
    case XLine(start, direction) =>
      g.Line(start, Point(start.x + direction.x * FarLength, start.y + direction.y * FarLength));
    case Ray(start, direction) =>
      g.Line(start, Point(start.x + direction.x * FarLength, start.y + direction.y * FarLength));
    case Leader(vertices) =>
      DrawPolyline(g, vertices);
    case MLine(vertices) =>
      DrawPolyline(g, vertices);
    case Insert(_, _, _, _, _, _, _, _, _, _) =>
    case Other(_) =>
  }

  /**
   * One flattened entity. For an insert-tagged entity the placement matrix is
   * multiplied in and the saved transform put straight back, so the transform
   * is unchanged and the geometry is drawn exactly as a top-level entity's.
   */
  method DrawCustomEntity(g: Graphics, entity: CustomEntity, rotate: real -> Matrix)
    modifies g
    ensures g.transform == old(g.transform)
    ensures g.ops == old(g.ops) + EntityOps(entity.entity, old(g.transform))
  {
    if entity.typeName == InsertTag {
      var transformMatrix := InstanceMatrix(entity, rotate);
      var originalTransform := g.transform;
      g.MultiplyTransform(transformMatrix);
      g.SetTransform(originalTransform);
    }
    DrawGeometry(g, entity.entity);
  }

  /** The loop over the flattened list: each entity drawn in turn under the unchanged transform. */
  method DrawCustomEntities(g: Graphics, entities: seq<CustomEntity>, rotate: real -> Matrix)
    modifies g
    ensures g.transform == old(g.transform)
    ensures g.ops == old(g.ops) + RenderOps(entities, old(g.transform))
  {
    for i := 0 to |entities|
      invariant g.transform == old(g.transform)
      invariant g.ops == old(g.ops) + RenderOps(entities[..i], g.transform)
    {
      FlatMapSnoc(entities[..i], entities[i], EntityDrawer(g.transform));
      assert entities[..i + 1] == entities[..i] + [entities[i]];
      DrawCustomEntity(g, entities[i], rotate);
    }
    assert entities[..|entities|] == entities;
  }

  method DrawEntities(g: Graphics, offsetX: real, offsetY: real, scale: real, bounds: Box,
                      dxf: Document, rotate: real -> Matrix)
    modifies g
    ensures g.transform == Multiply(Translation(-bounds.minX, -bounds.maxY),
                             Multiply(Scaling(scale, -scale), Multiply(Translation(offsetX, offsetY), old(g.transform))))
    ensures g.ops == [ClearWhite] + RenderOps(FinalEntities(dxf.entities, dxf.blocks), g.transform)
  {
    g.Clear();
    g.TranslateTransform(offsetX, offsetY);
    g.ScaleTransform(scale, -scale);
    g.TranslateTransform(-bounds.minX, -bounds.maxY);
    var entities := GetFinalEntities(dxf);
    DrawCustomEntities(g, entities, rotate);
  }

  /**
   * The members of an expanded block are drawn exactly as the block's raw
   * entities: the insert's location, scales and rotation play no part.
   */
  lemma {:induction false} InstancesDrawnInPlace(entities: seq<Entity>, features: InsertFeatures, t: Matrix)
    ensures RenderOps(Instances(entities, features), t) == GeometryOps(entities, t)
    decreases |entities|
  {
    if entities != [] {
      var init, last := entities[..|entities| - 1], entities[|entities| - 1];
      var instances := Instances(entities, features);
      assert instances == Instances(init, features) + [instances[|instances| - 1]];
      assert entities == init + [last];
      FlatMapSnoc(Instances(init, features), instances[|instances| - 1], EntityDrawer(t));
      FlatMapSnoc(init, last, GeometryDrawer(t));
      InstancesDrawnInPlace(init, features, t);
    }
  }

  /**
   * Two inserts of the same block draw the same calls wherever they sit in the
   * document, whatever their location, scale factors or rotation.
   */
  lemma InsertPlacementIgnored(before: seq<Entity>, first: Entity, second: Entity, after: seq<Entity>,
                               blocks: seq<Block>, t: Matrix)
    requires first.Insert? && second.Insert? && first.name == second.name
    ensures RenderOps(FinalEntities(before + [first] + after, blocks), t)
         == RenderOps(FinalEntities(before + [second] + after, blocks), t)
  {
    forall insert | insert in {first, second}
      ensures RenderOps(FinalEntities(before + [insert] + after, blocks), t)
           == RenderOps(FinalEntities(before, blocks), t) + RenderOps(Contribution(insert, blocks), t)
              + RenderOps(FinalEntities(after, blocks), t)
    {
      FinalEntitiesAppend(before + [insert], after, blocks);
      FinalEntitiesSnoc(before, insert, blocks);
      FlatMapAppend(FinalEntities(before, blocks) + Contribution(insert, blocks), FinalEntities(after, blocks), EntityDrawer(t));
      FlatMapAppend(FinalEntities(before, blocks), Contribution(insert, blocks), EntityDrawer(t));
    }
    match FindBlock(blocks, first.name)
    case None =>
    case Some(block) =>
      InstancesDrawnInPlace(block.entities, FeaturesOf(first), t);
      InstancesDrawnInPlace(block.entities, FeaturesOf(second), t);
  }

  /** Every call drawn for a flattened list carries the transform it was drawn under. */
  lemma {:induction false} RenderOpsUnder(entities: seq<CustomEntity>, t: Matrix)
    ensures forall op :: op in RenderOps(entities, t) ==> !op.ClearWhite? && op.transform == t
    decreases |entities|
  {
    if entities != [] {
      var init, last := entities[..|entities| - 1], entities[|entities| - 1];
      assert entities == init + [last];
      FlatMapSnoc(init, last, EntityDrawer(t));
      RenderOpsUnder(init, t);
      EntityOpsUnder(last.entity, t);
    }
  }

  /** An ellipse whose major-axis X component exceeds 1 is drawn wider than the box reserves for it. */
  lemma EllipseDrawnWiderThanBounds(center: Point, majorAxis: Point, t: Matrix)
    requires majorAxis.x > 1.0
    ensures var op := EntityOps(Ellipse(center, majorAxis), t)[0];
      op.x < center.x - majorAxis.x && center.x + majorAxis.x < op.x + op.width
  {
    var a := majorAxis.x;
    MulMonotone(1.0, a, a);
    assert EllipseRadiusX(majorAxis) == a * a > a;
  }
}
