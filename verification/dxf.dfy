/**
 * The parsed DXF document as the converter receives it: an ordered list of
 * top-level entities and an ordered list of named blocks. Only the geometry the
 * converter reads is kept; every coordinate is the X/Y part of a DXF point.
 */
module Dxf {
  import opened Geometry

  datatype Entity =
    | Circle(center: Point, radius: real)
    | Line(p1: Point, p2: Point)
    | Arc(center: Point, radius: real, startAngle: real, endAngle: real)
    | Ellipse(center: Point, majorAxis: Point)
    | MText(insertionPoint: Point, text: string)
    | XLine(firstPoint: Point, direction: Point)
    | Ray(startPoint: Point, direction: Point)
    | Leader(vertices: seq<Point>)
    | MLine(vertices: seq<Point>)
    | Insert(name: string, location: Point, xScaleFactor: real, yScaleFactor: real, zScaleFactor: real,
             rotation: real, columnCount: int, rowCount: int, columnSpacing: real, rowSpacing: real)
      /** Any other entity class of the parser (text, polyline, solid, point, ...), by class name. */
    | Other(className: string)

  datatype Block = Block(name: string, entities: seq<Entity>)

  datatype Document = Document(entities: seq<Entity>, blocks: seq<Block>)

  /** The parser's class name for each entity kind. */
  function ClassName(e: Entity): string
  {
    match e
    case Circle(_, _) => "DxfCircle"
    case Line(_, _) => "DxfLine"
    case Arc(_, _, _, _) => "DxfArc"
    case Ellipse(_, _) => "DxfEllipse"
    case MText(_, _) => "DxfMText"
    case XLine(_, _) => "DxfXLine"
    case Ray(_, _) => "DxfRay"
    case Leader(_) => "DxfLeader"
    case MLine(_) => "DxfMLine"
    case Insert(_, _, _, _, _, _, _, _, _, _) => "DxfInsert"
    case Other(n) => n
  }

  predicate IsUpper(c: char) { 'A' <= c <= 'Z' }

  function LowerChar(c: char): char
  {
    if IsUpper(c) then (c as int - 'A' as int + 'a' as int) as char else c
  }

  /** Lower-casing of the (ASCII) class names. */
  function ToLower(s: string): (r: string)
    ensures |r| == |s|
    ensures forall i :: 0 <= i < |r| ==> !IsUpper(r[i])
    ensures forall i :: 0 <= i < |r| ==> !IsUpper(s[i]) ==> r[i] == s[i]
    ensures forall i :: 0 <= i < |r| ==> IsUpper(s[i]) ==> r[i] as int == s[i] as int + 32
  {
    seq(|s|, i requires 0 <= i < |s| => LowerChar(s[i]))
  }

  /** The tag a top-level entity receives when the document is flattened. */
  function TypeName(e: Entity): string
  {
    ToLower(ClassName(e))
  }

  /**
   * Every built-in kind is tagged with its class name lower-cased, so none of
   * them is ever tagged "insert" (which the drawing step reserves for block members).
   */
  lemma BuiltInTypeNames(e: Entity)
    requires !e.Other?
    ensures TypeName(e)[..3] == "dxf"
    ensures TypeName(e) != "insert"
  {
    assert ClassName(e)[..3] == "Dxf";
    assert TypeName(e)[..3] == ToLower("Dxf");
    assert TypeName(e)[0] == 'd' != "insert"[0];
  }
}
