// ARC, CIRCLE and ELLIPSE: the curved entities. Arcs and circles are drawn
// as one JavaFX outline; an ellipse is drawn as a circle, an ellipse or an
// arc when that is exact, and as a sampled polyline otherwise.
module Arcs {
  import opened Results
  import opened Numerics
  import opened Pairs
  import opened Geometry
  import opened LineTypes
  import opened Shapes
  import opened Polylines
  import opened Entities

  /** DxfArc: thickness (code 39), centre, radius (code 40), start and end
      angles in degrees (codes 50/51) and the extrusion direction. */
  datatype ArcData = ArcData(thickness: real, center: Point, radius: real, startAngle: real, endAngle: real,
                             extrusion: Point)

  /** The ARC decoder; the two copies of the class differ only in the
      parser (lenient in one, Double.parseDouble in the other). */
  function DecodeArc(ns: NumberSyntax, p: Parsing, ps: seq<Pair>): (r: Outcome<ArcData>)
    ensures r.Ok? <==> RealOr(ns, p, ps, 39, "0").Ok? && PointAt(ns, p, ps, 10, 20, 30).Ok?
                       && RealAt(ns, p, ps, 40).Ok? && RealAt(ns, p, ps, 50).Ok? && RealAt(ns, p, ps, 51).Ok?
                       && PointOr0(ns, p, ps, 210, 220, 230).Ok?
    ensures r.Ok? ==> Ok(r.value.center) == PointAt(ns, p, ps, 10, 20, 30)
                      && Ok(r.value.radius) == RealAt(ns, p, ps, 40)
                      && Ok(r.value.startAngle) == RealAt(ns, p, ps, 50)
                      && Ok(r.value.endAngle) == RealAt(ns, p, ps, 51)
  {
    var thickness :- RealOr(ns, p, ps, 39, "0");
    var center :- PointAt(ns, p, ps, 10, 20, 30);
    var radius :- RealAt(ns, p, ps, 40);
    var startAngle :- RealAt(ns, p, ps, 50);
    var endAngle :- RealAt(ns, p, ps, 51);
    var extrusion :- PointOr0(ns, p, ps, 210, 220, 230);
    Ok(ArcData(thickness, center, radius, startAngle, endAngle, extrusion))
  }

  /** JavaFX takes an angular extent where DXF gives an end angle, and its
      y axis points down: the extent is start − end, taken once more round
      the circle when the end angle is below the start angle. */
  function ArcExtent(startAngle: real, endAngle: real): real
  {
    var extent := startAngle - endAngle;
    if endAngle < startAngle then extent - 360.0 else extent
  }

  /** The extent is the counter-clockwise sweep of the DXF arc, negated for
      the downward y axis; for angles in [0, 360) it lies in (−360, 0] and
      is 0 exactly when the angles are equal. */
  lemma ArcExtentIsNegatedSweep(center: Point2D, radius: real, startAngle: real, endAngle: real)
    ensures ArcExtent(startAngle, endAngle)
            == -TotalAngle(CircularArc(center.x, center.y, radius, startAngle, endAngle))
    ensures 0.0 <= startAngle < 360.0 && 0.0 <= endAngle < 360.0 ==>
              -360.0 < ArcExtent(startAngle, endAngle) <= 0.0
              && (ArcExtent(startAngle, endAngle) == 0.0 <==> startAngle == endAngle)
  {
  }

  /** Starting at the negated start angle and sweeping by the extent ends
      at the negated end angle, up to one turn. */
  lemma ArcExtentEndsAtEnd(startAngle: real, endAngle: real)
    ensures var e := -startAngle + ArcExtent(startAngle, endAngle);
            e == -endAngle || e == -endAngle - 360.0
  {
  }

  /** The outline an ARC draws: a circular JavaFX arc. */
  function ArcFigure(d: ArcData): Figure
  {
    Arc(d.center.x, d.center.y, d.radius, d.radius, -d.startAngle, ArcExtent(d.startAngle, d.endAngle))
  }

  /** DxfCircle: thickness, centre, radius and extrusion direction. */
  datatype CircleData = CircleData(thickness: real, center: Point, radius: real, extrusion: Point)

  /** The CIRCLE decoder, which uses Double.parseDouble: centre from codes
      10/20/30 and radius from code 40 are required. */
  function DecodeCircle(ns: NumberSyntax, ps: seq<Pair>): (r: Outcome<CircleData>)
    ensures r.Ok? <==> RealOr(ns, Strict, ps, 39, "0").Ok? && PointAt(ns, Strict, ps, 10, 20, 30).Ok?
                       && RealAt(ns, Strict, ps, 40).Ok? && PointOr0(ns, Strict, ps, 210, 220, 230).Ok?
    ensures r.Ok? ==> Ok(r.value.center) == PointAt(ns, Strict, ps, 10, 20, 30)
                      && Ok(r.value.radius) == RealAt(ns, Strict, ps, 40)
  {
    var thickness :- RealOr(ns, Strict, ps, 39, "0");
    var center :- PointAt(ns, Strict, ps, 10, 20, 30);
    var radius :- RealAt(ns, Strict, ps, 40);
    var extrusion :- PointOr0(ns, Strict, ps, 210, 220, 230);
    Ok(CircleData(thickness, center, radius, extrusion))
  }

  function CircleFigure(d: CircleData): Figure
  {
    Circle(d.center.x, d.center.y, d.radius)
  }

  /** DxfEllipse: centre, the end of the major axis relative to the centre,
      the normal, the ratio of the minor axis to the major one, and the
      start and end parameters converted to degrees. */
  datatype EllipseData = EllipseData(center: Point, majorAxisEnd: Point, normal: Point, ratio: real,
                                     startAngle: real, endAngle: real)

  /** The ELLIPSE decoder: codes 41/42 are read in radians and stored in
      degrees. */
  function DecodeEllipse(ns: NumberSyntax, trig: Trig, ps: seq<Pair>): (r: Outcome<EllipseData>)
    ensures r.Ok? <==> PointAt(ns, Lenient, ps, 10, 20, 30).Ok? && PointAt(ns, Lenient, ps, 11, 21, 31).Ok?
                       && PointOr0(ns, Lenient, ps, 210, 220, 230).Ok? && RealAt(ns, Lenient, ps, 40).Ok?
                       && RealAt(ns, Lenient, ps, 41).Ok? && RealAt(ns, Lenient, ps, 42).Ok?
    ensures r.Ok? ==> Ok(r.value.ratio) == RealAt(ns, Lenient, ps, 40)
                      && r.value.startAngle == trig.toDegrees(RealAt(ns, Lenient, ps, 41).value)
                      && r.value.endAngle == trig.toDegrees(RealAt(ns, Lenient, ps, 42).value)
  {
    var center :- PointAt(ns, Lenient, ps, 10, 20, 30);
    var majorAxisEnd :- PointAt(ns, Lenient, ps, 11, 21, 31);
    var normal :- PointOr0(ns, Lenient, ps, 210, 220, 230);
    var ratio :- RealAt(ns, Lenient, ps, 40);
    var start :- RealAt(ns, Lenient, ps, 41);
    var end :- RealAt(ns, Lenient, ps, 42);
    Ok(EllipseData(center, majorAxisEnd, normal, ratio, trig.toDegrees(start), trig.toDegrees(end)))
  }

  /** A full turn or more between the parameters closes the ellipse. */
  predicate EllipseClosed(d: EllipseData)
  {
    d.endAngle - d.startAngle >= 360.0
  }

  /** How an ellipse is drawn. */
  datatype EllipseDrawing = AsCircle | AsEllipse | AsArc | Tessellated

  /** The decision tree of the ellipse conversion: a solid stroke draws a
      closed ellipse of ratio exactly 1 as a circle; under the identity
      transform it draws any other closed ellipse as an ellipse and an open
      one as an arc; every other case is sampled. */
  function EllipseChoice(d: EllipseData, lineType: Option<LineType>, transform: Affine): EllipseDrawing
  {
    if lineType.None? || IsContinuous(lineType.value) then
      if EllipseClosed(d) then
        if d.ratio == 1.0 then AsCircle
        else if transform == Identity then AsEllipse
        else Tessellated
      else if transform == Identity then AsArc
      else Tessellated
    else Tessellated
  }

  /** The cases of the decision tree, each as an equivalence. */
  lemma EllipseChoiceCases(d: EllipseData, lineType: Option<LineType>, transform: Affine)
    ensures var solid := lineType.None? || IsContinuous(lineType.value);
            var c := EllipseChoice(d, lineType, transform);
            && (c == AsCircle <==> solid && EllipseClosed(d) && d.ratio == 1.0)
            && (c == AsEllipse <==> solid && EllipseClosed(d) && d.ratio != 1.0 && transform == Identity)
            && (c == AsArc <==> solid && !EllipseClosed(d) && transform == Identity)
            && (c == Tessellated <==> !solid || (transform != Identity && !(EllipseClosed(d) && d.ratio == 1.0)))
  {
  }

  /** The end of the minor axis: the major axis turned by 90 degrees and
      scaled by the ratio. */
  function MinorAxisEnd(d: EllipseData): Point2D
  {
    Point2D(-d.ratio * d.majorAxisEnd.y, d.ratio * d.majorAxisEnd.x)
  }

  /** The minor axis is perpendicular to the major axis and the ratio times
      its length. */
  lemma MinorAxisPerpendicular(d: EllipseData)
    ensures var m := MinorAxisEnd(d);
            m.x * d.majorAxisEnd.x + m.y * d.majorAxisEnd.y == 0.0
            && m.x * m.x + m.y * m.y
               == d.ratio * d.ratio * (d.majorAxisEnd.x * d.majorAxisEnd.x + d.majorAxisEnd.y * d.majorAxisEnd.y)
  {
  }

  /** The elliptical arc that is sampled. */
  function EllipseArc(d: EllipseData): EllipticalArc
  {
    EllipticalArc(Point2D(d.center.x, d.center.y), Point2D(d.majorAxisEnd.x, d.majorAxisEnd.y), MinorAxisEnd(d),
                  d.startAngle, d.endAngle)
  }

  /** What the ellipse conversion adds. The exact shapes carry a solid
      stroke; the rotations put the major axis (and, for an arc, the start
      of the sweep) where the DXF data has them. */
  function EllipseShapes(trig: Trig, d: EllipseData, st: Style): seq<Emitted>
  {
    var mx, my := d.majorAxisEnd.x, d.majorAxisEnd.y;
    var radiusMajor := trig.hypot(mx, my);
    var theta := trig.toDegrees(trig.atan2(my, mx));
    match EllipseChoice(d, st.lineType, st.transform)
    case AsCircle =>
      [Outlined(st, Circle(d.center.x, d.center.y, radiusMajor))]
    case AsEllipse =>
      [Emitted(st.strokeScale,
               Shape(Ellipse(0.0, 0.0, radiusMajor, radiusMajor * d.ratio),
                     [st.transform, Translation(d.center.x, d.center.y), Rotation(trig, theta)], st.color, []))]
    case AsArc =>
      [Emitted(st.strokeScale,
               Shape(Arc(0.0, 0.0, radiusMajor, radiusMajor * d.ratio, -d.startAngle,
                         ArcExtent(d.startAngle, d.endAngle)),
                     [st.transform, Translation(d.center.x, d.center.y), Rotation(trig, theta - 90.0)], st.color, []))]
    case Tessellated =>
      PolyShapes(st.transform, st.strokeScale, st.color, st.lineType, st.lineTypeScale,
                 SampledArc(trig, EllipseArc(d), NumberOfGrads), EllipseClosed(d))
  }

  /** Every ellipse is drawn as exactly one shape; a sampled one is a
      polygon when closed and a polyline when open, through at least two
      points. */
  lemma EllipseShapesSingle(trig: Trig, d: EllipseData, st: Style)
    ensures |EllipseShapes(trig, d, st)| == 1
    ensures EllipseChoice(d, st.lineType, st.transform) == Tessellated ==>
              var f := EllipseShapes(trig, d, st)[0].shape.figure;
              (EllipseClosed(d) ==> f.Polygon?) && (!EllipseClosed(d) ==> f.Polyline?)
              && |f.points| == 2 * SampleCount(EllipseArc(d), NumberOfGrads) >= 4
  {
  }
}
