/**
 * Fitting the bounding box onto the 1920x1080 raster: a 10% margin on each
 * side, one uniform scale, and offsets that centre the drawing.
 */
module Viewport {
  import opened Common
  import opened Geometry
  import opened Bounds

  const ImageWidth: real := 1920.0
  const ImageHeight: real := 1080.0
  const MarginRatio: real := 0.1

  /** The widened box, the scale and the offsets handed to the drawing step. */
  datatype Fit = Fit(bounds: Box, scale: real, offsetX: real, offsetY: real)

  /** A value the single-precision arithmetic of the converter can hold. */
  predicate InFloatRange(v: real) { -FloatMax <= v <= FloatMax }

  function WithMargin(b: Box): Box
  {
    var marginX := (b.maxX - b.minX) * MarginRatio;
    var marginY := (b.maxY - b.minY) * MarginRatio;
    Box(b.minX - marginX, b.minY - marginY, b.maxX + marginX, b.maxY + marginY)
  }

  /**
   * The scale and offsets for box `b`. None stands for the cases where the
   * single-precision arithmetic leaves the finite numbers: a span that overflows
   * (as the sentinel box does) or a box with no extent on either axis (the scale
   * becomes infinite and the offsets undefined). An axis without extent alone
   * divides by zero into an infinite ratio, which the minimum then discards.
   */
  function FitViewport(b: Box): (r: Option<Fit>)
    ensures r.None? <==>
      !InFloatRange(b.maxX - b.minX) || !InFloatRange(b.maxY - b.minY) || (b.minX == b.maxX && b.minY == b.maxY)
    ensures r.Some? ==> r.value.bounds == WithMargin(b)
  {
    if !InFloatRange(b.maxX - b.minX) || !InFloatRange(b.maxY - b.minY) || (b.minX == b.maxX && b.minY == b.maxY) then
      None
    else
      var e := WithMargin(b);
      var width := e.maxX - e.minX;
      var height := e.maxY - e.minY;
      var scale :=
        if width == 0.0 then ImageHeight / height
        else if height == 0.0 then ImageWidth / width
        else Min(ImageWidth / width, ImageHeight / height);
      Some(Fit(e, scale, (ImageWidth - scale * width) / 2.0, (ImageHeight - scale * height) / 2.0))
  }

  /** The margin keeps the centre and stretches each span by a fifth (a tenth on each side). */
  lemma MarginKeepsCentre(b: Box)
    ensures var e := WithMargin(b);
      && e.minX + e.maxX == b.minX + b.maxX && e.minY + e.maxY == b.minY + b.maxY
      && e.maxX - e.minX == (b.maxX - b.minX) * 1.2 && e.maxY - e.minY == (b.maxY - b.minY) * 1.2
      && (Ordered(b) ==> Encloses(e, b))
  {
  }

  /**
   * With extent on both axes the widened box fills the canvas on one axis
   * exactly, fits on the other, and the equal slack is split on both sides.
   */
  lemma FitFillsCanvas(b: Box)
    requires b.minX < b.maxX && b.minY < b.maxY
    requires InFloatRange(b.maxX - b.minX) && InFloatRange(b.maxY - b.minY)
    ensures FitViewport(b).Some?
    ensures var f := FitViewport(b).value;
      var width := f.bounds.maxX - f.bounds.minX;
      var height := f.bounds.maxY - f.bounds.minY;
      && width > 0.0 && height > 0.0 && f.scale > 0.0
      && f.scale * width <= ImageWidth && f.scale * height <= ImageHeight
      && (f.scale * width == ImageWidth || f.scale * height == ImageHeight)
      && f.offsetX >= 0.0 && f.offsetY >= 0.0
      && f.offsetX == ImageWidth - (f.offsetX + f.scale * width)
      && f.offsetY == ImageHeight - (f.offsetY + f.scale * height)
  {
    MarginKeepsCentre(b);
    var f := FitViewport(b).value;
    var width := f.bounds.maxX - f.bounds.minX;
    var height := f.bounds.maxY - f.bounds.minY;
    assert f.scale == Min(ImageWidth / width, ImageHeight / height);
    ScaleFits(width, height);
  }

  /** The smaller of the two ratios fits both sides and fills one of them. */
  lemma ScaleFits(width: real, height: real)
    requires width > 0.0 && height > 0.0
    ensures var scale := Min(ImageWidth / width, ImageHeight / height);
      && scale > 0.0 && scale * width <= ImageWidth && scale * height <= ImageHeight
      && (scale * width == ImageWidth || scale * height == ImageHeight)
  {
    var sx, sy := ImageWidth / width, ImageHeight / height;
    assert sx * width == ImageWidth && sy * height == ImageHeight;
    if sx <= sy {
      MulMonotone(sx, sy, height);
    } else {
      MulMonotone(sy, sx, width);
    }
  }

  /** A drawing with no width (a vertical line) is scaled to the full height and centred across. */
  lemma FitWithoutWidth(b: Box)
    requires b.minX == b.maxX && b.minY < b.maxY && InFloatRange(b.maxY - b.minY)
    ensures FitViewport(b).Some?
    ensures var f := FitViewport(b).value;
      && f.scale * (f.bounds.maxY - f.bounds.minY) == ImageHeight
      && f.offsetX == ImageWidth / 2.0 && f.offsetY == 0.0
  {
    MarginKeepsCentre(b);
    var e := WithMargin(b);
    var height := e.maxY - e.minY;
    assert e.maxX - e.minX == 0.0 && height > 0.0;
    assert FitViewport(b).value.scale == ImageHeight / height;
    assert ImageHeight / height * height == ImageHeight;
  }

  /** One axis of the canvas: an offset plus a scaled distance within the scaled span stays in [0, size]. */
  lemma AxisOnCanvas(offset: real, scale: real, d: real, span: real, size: real)
    requires scale > 0.0 && 0.0 <= d <= span && offset >= 0.0
    requires offset == size - (offset + scale * span)
    ensures 0.0 <= offset + scale * d <= size
  {
    MulMonotone(0.0, d, scale);
    MulMonotone(d, span, scale);
  }

  /**
   * Every point of the widened box lands on the canvas under the viewport
   * transform the drawing step installs.
   */
  lemma WidenedBoxOnCanvas(b: Box, p: Point)
    requires b.minX < b.maxX && b.minY < b.maxY
    requires InFloatRange(b.maxX - b.minX) && InFloatRange(b.maxY - b.minY)
    requires Inside(WithMargin(b), p)
    ensures var f := FitViewport(b).value;
      var q := Apply(ViewportTransform(f.offsetX, f.offsetY, f.scale, f.bounds.minX, f.bounds.maxY), p);
      0.0 <= q.x <= ImageWidth && 0.0 <= q.y <= ImageHeight
  {
    FitFillsCanvas(b);
    FitOnCanvas(FitViewport(b).value, p);
  }

  /** A fit that fills the canvas with equal slack maps every point of its box onto the canvas. */
  lemma FitOnCanvas(f: Fit, p: Point)
    requires Inside(f.bounds, p) && f.scale > 0.0 && f.offsetX >= 0.0 && f.offsetY >= 0.0
    requires f.offsetX == ImageWidth - (f.offsetX + f.scale * (f.bounds.maxX - f.bounds.minX))
    requires f.offsetY == ImageHeight - (f.offsetY + f.scale * (f.bounds.maxY - f.bounds.minY))
    ensures var q := Apply(ViewportTransform(f.offsetX, f.offsetY, f.scale, f.bounds.minX, f.bounds.maxY), p);
      0.0 <= q.x <= ImageWidth && 0.0 <= q.y <= ImageHeight
  {
    var e := f.bounds;
    ViewportAt(f.offsetX, f.offsetY, f.scale, e.minX, e.maxY, p);
    AxisOnCanvas(f.offsetX, f.scale, p.x - e.minX, e.maxX - e.minX, ImageWidth);
    AxisOnCanvas(f.offsetY, f.scale, e.maxY - p.y, e.maxY - e.minY, ImageHeight);
    assert -(f.scale * (p.y - e.maxY)) == f.scale * (e.maxY - p.y);
  }

  /** A 100 x 50 drawing at the origin: widened to 120 x 60, scale 16, centred vertically. */
  lemma FitExample()
    ensures FitViewport(Box(0.0, 0.0, 100.0, 50.0)) == Some(Fit(Box(-10.0, -5.0, 110.0, 55.0), 16.0, 0.0, 60.0))
  {
  }
}
