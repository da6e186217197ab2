/**
 * The conversion pipeline (ConvertDxfToBitmap): reject a document without
 * top-level entities, compute the box of the top-level entities, fit it to the
 * canvas and draw the flattened document under the resulting transform.
 */
module Converter {
  import opened Common
  import opened Geometry
  import opened Dxf
  import opened Flatten
  import opened Bounds
  import opened Viewport
  import opened Render

  datatype ConversionError =
    | NoDrawableEntities
      /** The single-precision scale or offsets would not be finite numbers. */
    | NonFiniteViewport

  /** The transform the drawing step installs for a fit. */
  function FitTransform(f: Fit): Matrix
  {
    ViewportTransform(f.offsetX, f.offsetY, f.scale, f.bounds.minX, f.bounds.maxY)
  }

  /** What converting a document yields: the recorded drawing, or why it stopped. */
  function Conversion(dxf: Document): (r: Result<seq<DrawOp>, ConversionError>)
    ensures r == Err(NoDrawableEntities) <==> dxf.entities == []
  {
    if dxf.entities == [] then Err(NoDrawableEntities)
    else
      match FitViewport(BoundsOf(dxf.entities))
      case None => Err(NonFiniteViewport)
      case Some(f) => Ok([ClearWhite] + RenderOps(FinalEntities(dxf.entities, dxf.blocks), FitTransform(f)))
  }

  /** `rotate` gives the rotation matrix for an angle in degrees; it cannot change the outcome. */
  method ConvertDxfToBitmap(dxf: Document, rotate: real -> Matrix) returns (r: Result<seq<DrawOp>, ConversionError>)
    ensures r == Conversion(dxf)
  {
    if |dxf.entities| == 0 {
      return Err(NoDrawableEntities);
    }
    var bounds := CalculateBounds(dxf.entities);
    var fit := FitViewport(bounds);
    if fit.None? {
      return Err(NonFiniteViewport);
    }
    var f := fit.value;
    var g := new Graphics.FromImage();
    DrawEntities(g, f.offsetX, f.offsetY, f.scale, f.bounds, dxf, rotate);
    ViewportSetup(f.offsetX, f.offsetY, f.scale, f.bounds.minX, f.bounds.maxY);
    r := Ok(g.ops);
  }

  /**
   * A document whose top-level entities all contribute nothing to the box (only
   * inserts, text or other kinds) leaves the sentinel box, whose span overflows:
   * it is never drawn.
   */
  lemma NothingToMeasureFails(dxf: Document)
    requires dxf.entities != []
    requires forall i :: 0 <= i < |dxf.entities| ==> !Contributes(dxf.entities[i])
    ensures Conversion(dxf) == Err(NonFiniteViewport)
  {
    BoundsWithoutContribution(dxf.entities);
  }

  /** A converted drawing is the white background and then calls under one and the same transform. */
  lemma ConversionUnderOneTransform(dxf: Document)
    requires Conversion(dxf).Ok?
    ensures var ops := Conversion(dxf).value;
      var f := FitViewport(BoundsOf(dxf.entities)).value;
      && ops[0] == ClearWhite
      && forall k :: 1 <= k < |ops| ==> !ops[k].ClearWhite? && ops[k].transform == FitTransform(f)
  {
    var f := FitViewport(BoundsOf(dxf.entities)).value;
    var drawn := RenderOps(FinalEntities(dxf.entities, dxf.blocks), FitTransform(f));
    RenderOpsUnder(FinalEntities(dxf.entities, dxf.blocks), FitTransform(f));
    var ops := Conversion(dxf).value;
    forall k | 1 <= k < |ops|
      ensures !ops[k].ClearWhite? && ops[k].transform == FitTransform(f)
    {
      assert ops[k] == drawn[k - 1];
    }
  }

  /** Later top-level entities are drawn after earlier ones (painter's order). */
  lemma ConversionInDocumentOrder(before: seq<Entity>, after: seq<Entity>, blocks: seq<Block>)
    requires Conversion(Document(before + after, blocks)).Ok?
    ensures var f := FitViewport(BoundsOf(before + after)).value;
      Conversion(Document(before + after, blocks)).value
      == [ClearWhite] + RenderOps(FinalEntities(before, blocks), FitTransform(f))
                      + RenderOps(FinalEntities(after, blocks), FitTransform(f))
  {
    var f := FitViewport(BoundsOf(before + after)).value;
    FinalEntitiesAppend(before, after, blocks);
    FlatMapAppend(FinalEntities(before, blocks), FinalEntities(after, blocks), EntityDrawer(FitTransform(f)));
  }

  /**
   * Two inserts of the same block yield the same conversion wherever they sit,
   * whatever their location, scale factors and rotation: neither the box nor the
   * drawing depends on them.
   */
  lemma ConversionIgnoresInsertPlacement(before: seq<Entity>, first: Entity, second: Entity, after: seq<Entity>,
                                         blocks: seq<Block>)
    requires first.Insert? && second.Insert? && first.name == second.name
    ensures Conversion(Document(before + [first] + after, blocks))
         == Conversion(Document(before + [second] + after, blocks))
  {
    BoundsSkipNonContributing(before, first, after);
    BoundsSkipNonContributing(before, second, after);
    match FitViewport(BoundsOf(before + [first] + after))
    case None =>
    case Some(f) => InsertPlacementIgnored(before, first, second, after, blocks, FitTransform(f));
  }
}
