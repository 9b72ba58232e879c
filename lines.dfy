// LINE, RAY and XLINE: the straight entities, each drawn as one segment.
module Lines {
  import opened Results
  import opened Numerics
  import opened Pairs
  import opened Geometry
  import opened Shapes
  import opened Entities

  /** DxfLine: thickness (code 39), the two end points and the extrusion
      direction (codes 210/220/230). */
  datatype LineData = LineData(thickness: real, start: Point, end: Point, extrusion: Point)

  /** DxfRay, and DxfXLine which inherits its decoding: a base point and a
      direction vector. */
  datatype RayData = RayData(base: Point, direction: Point)

  /** The LINE decoder: start from codes 10/20/30 and end from 11/21/31,
      both required; thickness and extrusion default to 0. */
  function DecodeLine(ns: NumberSyntax, ps: seq<Pair>): (r: Outcome<LineData>)
    ensures r.Ok? <==> RealOr(ns, Lenient, ps, 39, "0").Ok? && PointAt(ns, Lenient, ps, 10, 20, 30).Ok?
                       && PointAt(ns, Lenient, ps, 11, 21, 31).Ok? && PointOr0(ns, Lenient, ps, 210, 220, 230).Ok?
    ensures r.Ok? ==> Ok(r.value.start) == PointAt(ns, Lenient, ps, 10, 20, 30)
                      && Ok(r.value.end) == PointAt(ns, Lenient, ps, 11, 21, 31)
  {
    var thickness :- RealOr(ns, Lenient, ps, 39, "0");
    var start :- PointAt(ns, Lenient, ps, 10, 20, 30);
    var end :- PointAt(ns, Lenient, ps, 11, 21, 31);
    var extrusion :- PointOr0(ns, Lenient, ps, 210, 220, 230);
    Ok(LineData(thickness, start, end, extrusion))
  }

  /** A LINE that gives only its end points has no thickness and a zero
      extrusion vector. */
  lemma DecodeLineDefaults(ns: NumberSyntax, ps: seq<Pair>)
    requires ReadsDefaults(ns)
    requires forall j :: 0 <= j < |ps| ==> ps[j].code !in {39, 210, 220, 230}
    requires PointAt(ns, Lenient, ps, 10, 20, 30).Ok? && PointAt(ns, Lenient, ps, 11, 21, 31).Ok?
    ensures DecodeLine(ns, ps).Ok?
    ensures DecodeLine(ns, ps).value.thickness == 0.0
    ensures DecodeLine(ns, ps).value.extrusion == Point(0.0, 0.0, 0.0)
  {
  }

  /** The RAY decoder: base from codes 10/20/30, direction from 11/21/31,
      all required. */
  function DecodeRay(ns: NumberSyntax, ps: seq<Pair>): (r: Outcome<RayData>)
    ensures r.Ok? <==> PointAt(ns, Lenient, ps, 10, 20, 30).Ok? && PointAt(ns, Lenient, ps, 11, 21, 31).Ok?
    ensures r.Ok? ==> Ok(r.value.base) == PointAt(ns, Lenient, ps, 10, 20, 30)
                      && Ok(r.value.direction) == PointAt(ns, Lenient, ps, 11, 21, 31)
  {
    var base :- PointAt(ns, Lenient, ps, 10, 20, 30);
    var direction :- PointAt(ns, Lenient, ps, 11, 21, 31);
    Ok(RayData(base, direction))
  }

  /** A RAY is drawn from its base 300 direction lengths along the
      direction (300 m being the largest extent the drawing expects). */
  const RayLength: real := 300.0

  /** An XLINE is drawn 150 direction lengths to either side of its base. */
  const XLineHalfLength: real := 150.0

  /** The segment a LINE draws, in the XY plane. */
  function LineFigure(d: LineData): Figure
  {
    Line(d.start.x, d.start.y, d.end.x, d.end.y)
  }

  /** The segment a RAY draws. */
  function RayFigure(d: RayData): Figure
  {
    Line(d.base.x, d.base.y, d.base.x + RayLength * d.direction.x, d.base.y + RayLength * d.direction.y)
  }

  /** The segment an XLINE draws. */
  function XLineFigure(d: RayData): Figure
  {
    Line(d.base.x - XLineHalfLength * d.direction.x, d.base.y - XLineHalfLength * d.direction.y,
         d.base.x + XLineHalfLength * d.direction.x, d.base.y + XLineHalfLength * d.direction.y)
  }

  /** The ray segment starts at the base and runs 300 times the direction
      vector; the xline segment is centred on the base and runs the same
      300 times the direction vector. */
  lemma RayAndXLineSegments(d: RayData)
    ensures var f := RayFigure(d);
            f.startX == d.base.x && f.startY == d.base.y
            && f.endX - f.startX == 300.0 * d.direction.x && f.endY - f.startY == 300.0 * d.direction.y
    ensures var f := XLineFigure(d);
            (f.startX + f.endX) / 2.0 == d.base.x && (f.startY + f.endY) / 2.0 == d.base.y
            && f.endX - f.startX == 300.0 * d.direction.x && f.endY - f.startY == 300.0 * d.direction.y
  {
  }

  /** The xline's segment is the ray's segment moved back by half its
      length: the xline covers the ray from the midpoint on. */
  lemma XLineExtendsRayBackwards(d: RayData)
    ensures var back := RayData(Point(d.base.x - XLineHalfLength * d.direction.x,
                                      d.base.y - XLineHalfLength * d.direction.y, d.base.z), d.direction);
            XLineFigure(d) == RayFigure(back)
  {
  }
}
