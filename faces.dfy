// 3DFACE: four corners, drawn in plan as an unfilled triangle or
// quadrilateral.
module Faces {
  import opened Results
  import opened Numerics
  import opened Pairs
  import opened Geometry
  import opened Shapes
  import opened Entities

  /** A face whose fourth corner repeats the third is a triangle. */
  datatype PolygonType = Triangle | Quad

  /** DxfFace3D: the four corners (codes 10-13, 20-23, 30-33), the
      invisible-edge flags (code 70) and the polygon type. */
  datatype Face3DData = Face3DData(first: Point, second: Point, third: Point, fourth: Point,
                                   invisibleFlags: int, polygonType: PolygonType)

  /** The 3DFACE decoder: no corner coordinate has a default; the type is
      decided by exact comparison of the last two corners. */
  function DecodeFace3D(ns: NumberSyntax, ps: seq<Pair>): (r: Outcome<Face3DData>)
    ensures r.Ok? <==> PointAt(ns, Lenient, ps, 10, 20, 30).Ok? && PointAt(ns, Lenient, ps, 11, 21, 31).Ok?
                       && PointAt(ns, Lenient, ps, 12, 22, 32).Ok? && PointAt(ns, Lenient, ps, 13, 23, 33).Ok?
                       && IntegerOr(ns, Lenient, ps, 70, "0").Ok?
    ensures r.Ok? ==> Ok(r.value.first) == PointAt(ns, Lenient, ps, 10, 20, 30)
                      && Ok(r.value.second) == PointAt(ns, Lenient, ps, 11, 21, 31)
                      && Ok(r.value.third) == PointAt(ns, Lenient, ps, 12, 22, 32)
                      && Ok(r.value.fourth) == PointAt(ns, Lenient, ps, 13, 23, 33)
    ensures r.Ok? ==> (r.value.polygonType == Triangle <==> r.value.fourth == r.value.third)
  {
    var first :- PointAt(ns, Lenient, ps, 10, 20, 30);
    var second :- PointAt(ns, Lenient, ps, 11, 21, 31);
    var third :- PointAt(ns, Lenient, ps, 12, 22, 32);
    var fourth :- PointAt(ns, Lenient, ps, 13, 23, 33);
    var invisibleFlags :- IntegerOr(ns, Lenient, ps, 70, "0");
    var polygonType := if fourth.x == third.x && fourth.y == third.y && fourth.z == third.z then Triangle else Quad;
    Ok(Face3DData(first, second, third, fourth, invisibleFlags, polygonType))
  }

  /** The corners drawn, in stored order: three for a triangle, four for a
      quadrilateral, each flattened onto the XY plane. */
  function Outline(d: Face3DData): (vs: seq<Vertex>)
    ensures |vs| == (if d.polygonType == Triangle then 3 else 4)
  {
    var three := [Vertex2(d.first.x, d.first.y), Vertex2(d.second.x, d.second.y), Vertex2(d.third.x, d.third.y)];
    if d.polygonType == Triangle then three else three + [Vertex2(d.fourth.x, d.fourth.y)]
  }

  /** The polygon a 3DFACE adds: its outline with the transform and the
      resolved colour, and no dash array whatever the line type. */
  function Face3DShape(d: Face3DData, st: Style): Emitted
  {
    Outlined(st, Polygon(Coordinates(Outline(d))))
  }

  /** The polygon's points are the corners' x and y in stored order; the
      invisible-edge flags play no part. */
  lemma Face3DShapePoints(d: Face3DData, st: Style, flags: int)
    ensures var pts := Face3DShape(d, st).shape.figure.points;
            |pts| == 2 * |Outline(d)|
            && pts[0] == d.first.x && pts[1] == d.first.y && pts[2] == d.second.x && pts[3] == d.second.y
            && pts[4] == d.third.x && pts[5] == d.third.y
            && (d.polygonType == Quad ==> pts[6] == d.fourth.x && pts[7] == d.fourth.y)
    ensures Face3DShape(d.(invisibleFlags := flags), st) == Face3DShape(d, st)
  {
    var vs := Outline(d);
    CoordinatesAt(vs, 0);
    CoordinatesAt(vs, 1);
    CoordinatesAt(vs, 2);
    if d.polygonType == Quad {
      CoordinatesAt(vs, 3);
    }
  }

  /** convertToFxShapes once the layer is known to be on: the corner
      coordinates are collected one corner at a time and one polygon is
      added. */
  method ConvertFace3D(container: ShapeContainer, d: Face3DData, st: Style)
    modifies container
    ensures container.shapes == old(container.shapes) + [Face3DShape(d, st)]
  {
    var corners := Outline(d);
    var coordinates: seq<real> := [];
    var i := 0;
    while i < |corners|
      invariant 0 <= i <= |corners|
      invariant coordinates == Coordinates(corners[..i])
    {
      assert corners[..i + 1][..i] == corners[..i];
      coordinates := coordinates + [corners[i].x, corners[i].y];
      i := i + 1;
    }
    assert corners[..i] == corners;
    container.AddShape(st.strokeScale, Shape(Polygon(coordinates), [st.transform], st.color, []));
  }
}
