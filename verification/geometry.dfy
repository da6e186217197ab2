/**
 * Points and the affine matrices of the drawing surface.
 *
 * A matrix follows the GDI+ row-vector convention: the point (x, y) is mapped to
 * (x*m11 + y*m21 + dx, x*m12 + y*m22 + dy). The transform calls of a drawing
 * surface (translate, scale, rotate, multiply) prepend their matrix, so the
 * matrix given last is the one applied to a point first.
 */
module Geometry {
  datatype Point = Point(x: real, y: real)

  datatype Matrix = Matrix(m11: real, m12: real, m21: real, m22: real, dx: real, dy: real)

  function Identity(): Matrix { Matrix(1.0, 0.0, 0.0, 1.0, 0.0, 0.0) }

  function Translation(dx: real, dy: real): Matrix { Matrix(1.0, 0.0, 0.0, 1.0, dx, dy) }

  function Scaling(sx: real, sy: real): Matrix { Matrix(sx, 0.0, 0.0, sy, 0.0, 0.0) }

  function Apply(m: Matrix, p: Point): Point
  {
    Point(p.x * m.m11 + p.y * m.m21 + m.dx, p.x * m.m12 + p.y * m.m22 + m.dy)
  }

  /** The product `first` × `second`: the matrix that applies `first` and then `second` (see MultiplyAt). */
  function Multiply(first: Matrix, second: Matrix): Matrix
  {
    Matrix(
      first.m11 * second.m11 + first.m12 * second.m21,
      first.m11 * second.m12 + first.m12 * second.m22,
      first.m21 * second.m11 + first.m22 * second.m21,
      first.m21 * second.m12 + first.m22 * second.m22,
      first.dx * second.m11 + first.dy * second.m21 + second.dx,
      first.dx * second.m12 + first.dy * second.m22 + second.dy)
  }

  /** Applying a product applies its first factor and then its second. */
  lemma MultiplyAt(a: Matrix, b: Matrix, p: Point)
    ensures Apply(Multiply(a, b), p) == Apply(b, Apply(a, p))
  {
    var q, r := Apply(a, p), Multiply(a, b);
    ComposeAxis(p.x, p.y, a.m11, a.m21, a.dx, a.m12, a.m22, a.dy, b.m11, b.m21, b.dx);
    assert Apply(b, q).x == Apply(r, p).x;
    ComposeAxis(p.x, p.y, a.m11, a.m21, a.dx, a.m12, a.m22, a.dy, b.m12, b.m22, b.dy);
    assert Apply(b, q).y == Apply(r, p).y;
  }

  /** One output coordinate of two affine maps in a row, regrouped by input coordinate. */
  lemma ComposeAxis(x: real, y: real, u1: real, u2: real, u0: real, v1: real, v2: real, v0: real,
                    c1: real, c2: real, c0: real)
    ensures (x * u1 + y * u2 + u0) * c1 + (x * v1 + y * v2 + v0) * c2 + c0
         == x * (u1 * c1 + v1 * c2) + y * (u2 * c1 + v2 * c2) + (u0 * c1 + v0 * c2 + c0)
  {
    calc {
      (x * u1 + y * u2 + u0) * c1 + (x * v1 + y * v2 + v0) * c2 + c0;
      x * u1 * c1 + y * u2 * c1 + u0 * c1 + x * v1 * c2 + y * v2 * c2 + v0 * c2 + c0;
      x * (u1 * c1 + v1 * c2) + y * (u2 * c1 + v2 * c2) + (u0 * c1 + v0 * c2 + c0);
    }
  }

  /**
   * The transform that maps drawing space onto the raster: drawing-space Y grows
   * upwards, raster Y downwards, so the Y scale is negated.
   */
  function ViewportTransform(offsetX: real, offsetY: real, scale: real, minX: real, maxY: real): Matrix
  {
    Matrix(scale, 0.0, 0.0, -scale, offsetX - scale * minX, offsetY + scale * maxY)
  }

  /** Where the viewport transform sends a drawing point. */
  lemma ViewportAt(offsetX: real, offsetY: real, scale: real, minX: real, maxY: real, p: Point)
    ensures Apply(ViewportTransform(offsetX, offsetY, scale, minX, maxY), p)
         == Point(offsetX + scale * (p.x - minX), offsetY - scale * (p.y - maxY))
  {
    assert p.x * scale == scale * p.x;
    assert scale * (p.x - minX) == scale * p.x - scale * minX;
    assert p.y * -scale == -(scale * p.y);
    assert scale * (p.y - maxY) == scale * p.y - scale * maxY;
  }

  /**
   * A fresh surface that receives TranslateTransform(offsetX, offsetY),
   * ScaleTransform(scale, -scale) and TranslateTransform(-minX, -maxY) ends up
   * holding the viewport transform.
   */
  lemma ViewportSetup(offsetX: real, offsetY: real, scale: real, minX: real, maxY: real)
    ensures Multiply(Translation(-minX, -maxY), Multiply(Scaling(scale, -scale), Multiply(Translation(offsetX, offsetY), Identity())))
         == ViewportTransform(offsetX, offsetY, scale, minX, maxY)
  {
    var first := Multiply(Translation(offsetX, offsetY), Identity());
    assert first == Translation(offsetX, offsetY);
    var second := Multiply(Scaling(scale, -scale), first);
    assert second == Matrix(scale, 0.0, 0.0, -scale, offsetX, offsetY);
    assert -minX * scale == -(scale * minX);
    assert -maxY * -scale == scale * maxY;
  }

  /** The corner (minX, maxY) lands on the offset, and a higher drawing point lands higher on the raster. */
  lemma ViewportAnchorsAndFlips(offsetX: real, offsetY: real, scale: real, minX: real, maxY: real, p: Point, q: Point)
    requires scale > 0.0 && p.y < q.y
    ensures Apply(ViewportTransform(offsetX, offsetY, scale, minX, maxY), Point(minX, maxY)) == Point(offsetX, offsetY)
    ensures Apply(ViewportTransform(offsetX, offsetY, scale, minX, maxY), q).y
          < Apply(ViewportTransform(offsetX, offsetY, scale, minX, maxY), p).y
  {
    ViewportAt(offsetX, offsetY, scale, minX, maxY, Point(minX, maxY));
    ViewportAt(offsetX, offsetY, scale, minX, maxY, p);
    ViewportAt(offsetX, offsetY, scale, minX, maxY, q);
    var d := q.y - p.y;
    assert scale * d > 0.0;
    assert scale * (q.y - maxY) == scale * (p.y - maxY) + scale * d;
  }
}
