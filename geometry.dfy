// Points with a tolerance equality, the vertex records polylines are made
// of, and elliptical arcs: the arc a bulge describes and the points sampled
// along an arc.
module Geometry {
  import opened Results
  import opened Numerics

  /** Point(x, y, z); the default constructor is the origin. */
  datatype Point = Point(x: real, y: real, z: real)

  /** Vertex: a point with a start and an end width. */
  datatype Vertex = Vertex(x: real, y: real, z: real, startWidth: real, endWidth: real)

  /** PolyVertex: a vertex with the bulge of the segment that starts at it. */
  datatype PolyVertex = PolyVertex(x: real, y: real, z: real, startWidth: real, endWidth: real, bulge: real)

  /** The 2-argument Vertex constructor: z and both widths are 0. */
  function Vertex2(x: real, y: real): Vertex
  {
    Vertex(x, y, 0.0, 0.0, 0.0)
  }

  /** The 4-argument Vertex constructor: z is 0. */
  function Vertex4(x: real, y: real, startWidth: real, endWidth: real): Vertex
  {
    Vertex(x, y, 0.0, startWidth, endWidth)
  }

  /** An object of one of the three point classes, as Point.equals sees it. */
  datatype PointObject =
    | PointObj(p: Point)
    | VertexObj(v: Vertex)
    | PolyVertexObj(pv: PolyVertex)
  {
    function X(): real
    {
      match this
      case PointObj(p) => p.x
      case VertexObj(v) => v.x
      case PolyVertexObj(pv) => pv.x
    }
    function Y(): real
    {
      match this
      case PointObj(p) => p.y
      case VertexObj(v) => v.y
      case PolyVertexObj(pv) => pv.y
    }
    function Z(): real
    {
      match this
      case PointObj(p) => p.z
      case VertexObj(v) => v.z
      case PolyVertexObj(pv) => pv.z
    }
    predicate SameClass(other: PointObject)
    {
      (PointObj? && other.PointObj?) || (VertexObj? && other.VertexObj?)
      || (PolyVertexObj? && other.PolyVertexObj?)
    }
  }

  /** DEFAULT_TOLERANCE. */
  const Tolerance: real := 0.0001

  function Abs(x: real): (r: real)
    ensures r >= 0.0 && (r == x || r == -x)
  {
    if x < 0.0 then -x else x
  }

  /** Point.equals: same runtime class and every coordinate within the
      tolerance. */
  predicate PointEquals(a: PointObject, b: PointObject)
  {
    a == b
    || (a.SameClass(b) && Abs(a.X() - b.X()) <= Tolerance
        && Abs(a.Y() - b.Y()) <= Tolerance && Abs(a.Z() - b.Z()) <= Tolerance)
  }

  /** equals is reflexive and symmetric, and points of different classes are
      never equal. */
  lemma PointEqualsReflexiveSymmetric(a: PointObject, b: PointObject)
    ensures PointEquals(a, a)
    ensures PointEquals(a, b) ==> PointEquals(b, a)
    ensures !a.SameClass(b) ==> !PointEquals(a, b)
  {
  }

  /** equals is not transitive: each neighbour is within the tolerance but
      the ends are not. */
  lemma PointEqualsNotTransitive()
    ensures var a, b, c := PointObj(Point(0.0, 0.0, 0.0)), PointObj(Point(0.0001, 0.0, 0.0)),
                           PointObj(Point(0.0002, 0.0, 0.0));
            PointEquals(a, b) && PointEquals(b, c) && !PointEquals(a, c)
  {
  }

  /** A vertex never equals a poly-vertex, whatever the coordinates. */
  lemma VertexNeverEqualsPolyVertex(v: Vertex, pv: PolyVertex)
    requires v.x == pv.x && v.y == pv.y && v.z == pv.z
    ensures !PointEquals(VertexObj(v), PolyVertexObj(pv))
  {
  }

  datatype Point2D = Point2D(x: real, y: real)

  /** EllipticalArc2D: centre, the ends of the major and minor axes
      (offsets from the centre) and the start and end angles in degrees. */
  datatype EllipticalArc = EllipticalArc(
    center: Point2D,
    majorAxisEnd: Point2D,
    minorAxisEnd: Point2D,
    startAngle: real,
    endAngle: real)

  /** The degenerate arc of the default constructor. */
  const DefaultArc: EllipticalArc :=
    EllipticalArc(Point2D(0.0, 0.0), Point2D(0.0, 0.0), Point2D(0.0, 0.0), 0.0, 0.0)

  /** The circular-arc constructor: major axis (r, 0), minor axis (0, r). */
  function CircularArc(centerX: real, centerY: real, radius: real, startAngle: real, endAngle: real): EllipticalArc
  {
    EllipticalArc(Point2D(centerX, centerY), Point2D(radius, 0.0), Point2D(0.0, radius), startAngle, endAngle)
  }

  /** getTotalAngle: the counter-clockwise sweep from start to end. */
  function TotalAngle(arc: EllipticalArc): (r: real)
    ensures r == arc.endAngle - arc.startAngle || r == arc.endAngle - arc.startAngle + 360.0
  {
    var total := arc.endAngle - arc.startAngle;
    if arc.endAngle < arc.startAngle then total + 360.0 else total
  }

  /** For angles in [0, 360) the sweep lies in [0, 360), and it is 0 only
      when the angles are equal. */
  lemma TotalAngleRange(arc: EllipticalArc)
    requires 0.0 <= arc.startAngle < 360.0 && 0.0 <= arc.endAngle < 360.0
    ensures 0.0 <= TotalAngle(arc) < 360.0
    ensures TotalAngle(arc) == 0.0 <==> arc.startAngle == arc.endAngle
  {
  }

  /** The angle correction after atan: a point left of the centre is in the
      second or third quadrant; a negative angle is brought into [0, 360). */
  function QuadrantAngle(atanDegrees: real, dx: real): real
  {
    if dx < 0.0 then 180.0 + atanDegrees
    else if atanDegrees < 0.0 then 360.0 + atanDegrees
    else atanDegrees
  }

  lemma QuadrantAngleRange(atanDegrees: real, dx: real)
    requires -90.0 <= atanDegrees <= 90.0
    ensures 0.0 <= QuadrantAngle(atanDegrees, dx) < 360.0
    ensures dx < 0.0 ==> 90.0 <= QuadrantAngle(atanDegrees, dx) <= 270.0
  {
  }

  /** The angle, in degrees, of the point (px, py) seen from the centre. */
  function AngleFrom(trig: Trig, px: real, py: real, centerX: real, centerY: real): real
  {
    QuadrantAngle(trig.toDegrees(trig.atanOfQuotient(py - centerY, px - centerX)), px - centerX)
  }

  /** ArcUtilities.getArc: the circular arc a bulge describes between
      (x, y) and (x2, y2); null when the bulge rounds to 0 as a float. The
      radius is the distance from the centre to (x, y), and the angles are
      those of the two end points seen from the centre; a negative bulge
      runs clockwise, so its start and end are swapped. */
  function GetArc(trig: Trig, bulge: real, x: real, y: real, x2: real, y2: real): (r: Option<EllipticalArc>)
    ensures r.None? <==> FloatIsZero(bulge)
    ensures r.Some? ==>
      var c := r.value.center;
      var a1, a2 := AngleFrom(trig, x, y, c.x, c.y), AngleFrom(trig, x2, y2, c.x, c.y);
      r.value == CircularArc(c.x, c.y, trig.hypot(c.x - x, c.y - y),
                             if bulge < 0.0 then a2 else a1, if bulge < 0.0 then a1 else a2)
  {
    if FloatIsZero(bulge) then None
    else
      var cotan := 0.5 * (1.0 / bulge - bulge);
      var centerX := 0.5 * ((x + x2) - (y2 - y) * cotan);
      var centerY := 0.5 * ((y2 + y) + (x2 - x) * cotan);
      var radius := trig.hypot(centerX - x, centerY - y);
      var startAngle := AngleFrom(trig, x, y, centerX, centerY);
      var endAngle := AngleFrom(trig, x2, y2, centerX, centerY);
      if bulge < 0.0 then Some(CircularArc(centerX, centerY, radius, endAngle, startAngle))
      else Some(CircularArc(centerX, centerY, radius, startAngle, endAngle))
  }

  /** The centre lies on the perpendicular bisector of the chord: it is as
      far from (x2, y2) as from (x, y), whatever the bulge. */
  lemma GetArcCentreEquidistant(trig: Trig, bulge: real, x: real, y: real, x2: real, y2: real)
    requires !FloatIsZero(bulge)
    ensures var c := GetArc(trig, bulge, x, y, x2, y2).value.center;
            (c.x - x) * (c.x - x) + (c.y - y) * (c.y - y) == (c.x - x2) * (c.x - x2) + (c.y - y2) * (c.y - y2)
  {
    var cotan := 0.5 * (1.0 / bulge - bulge);
    var c := GetArc(trig, bulge, x, y, x2, y2).value.center;
    var dx, dy := x2 - x, y2 - y;
    assert c.x - x == 0.5 * (dx - dy * cotan) && c.y - y == 0.5 * (dy + dx * cotan);
    assert c.x - x2 == 0.5 * (-dx - dy * cotan) && c.y - y2 == 0.5 * (-dy + dx * cotan);
    BisectorSquares(dx, dy, cotan);
  }

  /** The algebra behind the bisector property. */
  lemma BisectorSquares(dx: real, dy: real, k: real)
    ensures (0.5 * (dx - dy * k)) * (0.5 * (dx - dy * k)) + (0.5 * (dy + dx * k)) * (0.5 * (dy + dx * k))
            == (0.5 * (-dx - dy * k)) * (0.5 * (-dx - dy * k)) + (0.5 * (-dy + dx * k)) * (0.5 * (-dy + dx * k))
  {
  }

  /** When atan yields angles in [-90, 90] degrees, both angles of the arc
      lie in [0, 360), so its sweep does too. */
  lemma GetArcAngles(trig: Trig, bulge: real, x: real, y: real, x2: real, y2: real)
    requires !FloatIsZero(bulge)
    requires forall n: real, d: real :: -90.0 <= trig.toDegrees(trig.atanOfQuotient(n, d)) <= 90.0
    ensures var arc := GetArc(trig, bulge, x, y, x2, y2).value;
            0.0 <= arc.startAngle < 360.0 && 0.0 <= arc.endAngle < 360.0
            && 0.0 <= TotalAngle(arc) < 360.0
            && arc.majorAxisEnd.y == 0.0 && arc.minorAxisEnd.x == 0.0
            && arc.majorAxisEnd.x == arc.minorAxisEnd.y
  {
    var arc := GetArc(trig, bulge, x, y, x2, y2).value;
    var c := arc.center;
    QuadrantAngleRange(trig.toDegrees(trig.atanOfQuotient(y - c.y, x - c.x)), x - c.x);
    QuadrantAngleRange(trig.toDegrees(trig.atanOfQuotient(y2 - c.y, x2 - c.x)), x2 - c.x);
    TotalAngleRange(arc);
  }

  /** A half circle: bulge 1 from (0, 0) to (2, 0) is centred at (1, 0)
      and runs from 180 to 0 degrees. */
  lemma GetArcHalfCircle(trig: Trig)
    requires trig.toDegrees(trig.atanOfQuotient(0.0, -1.0)) == 0.0
    requires trig.toDegrees(trig.atanOfQuotient(0.0, 1.0)) == 0.0
    ensures var arc := GetArc(trig, 1.0, 0.0, 0.0, 2.0, 0.0).value;
            arc.center == Point2D(1.0, 0.0) && arc.startAngle == 180.0 && arc.endAngle == 0.0
            && arc.majorAxisEnd == Point2D(trig.hypot(1.0, 0.0), 0.0)
  {
    assert !FloatIsZero(1.0);
  }

  /** The sampling step of normalizeGradients: 1 degree when the requested
      step rounds to 0 as a float, otherwise at most 20 degrees. */
  function SampleStep(grads: real): (g: real)
    ensures g != 0.0
    ensures FloatIsZero(grads) ==> g == 1.0
    ensures !FloatIsZero(grads) ==> g <= 20.0 && (g == 20.0 || g == grads)
  {
    if FloatIsZero(grads) then 1.0 else if 20.0 < grads then 20.0 else grads
  }

  /** The number of points sampled along an arc: the sweep divided by the
      step, rounded, plus one, and never fewer than two. */
  function SampleCount(arc: EllipticalArc, grads: real): (n: int)
    ensures n >= 2
  {
    var k := Round(TotalAngle(arc) / SampleStep(grads)) + 1;
    if k < 2 then 2 else k
  }

  /** The angle of sample i: each angle is reduced mod 360 before use, and
      the next one is the reduced angle plus the step. */
  function SampleAngle(start: real, step: real, i: nat): real
  {
    if i == 0 then Rem360(start) else Rem360(SampleAngle(start, step, i - 1) + step)
  }

  /** Every sample angle lies strictly within one turn of 0; with a
      non-negative start and step it lies in [0, 360), and the first is the
      start angle itself when that is already in range. */
  lemma {:induction false} SampleAngleRange(start: real, step: real, i: nat)
    ensures -360.0 < SampleAngle(start, step, i) < 360.0
    ensures start >= 0.0 && step >= 0.0 ==> 0.0 <= SampleAngle(start, step, i) < 360.0
    ensures 0.0 <= start < 360.0 ==> SampleAngle(start, step, 0) == start
  {
    if i == 0 {
      Rem360Range(start);
    } else {
      SampleAngleRange(start, step, i - 1);
      Rem360Range(SampleAngle(start, step, i - 1) + step);
    }
  }

  /** The point of the arc at an angle in degrees: centre + major·cos +
      minor·sin. */
  function ArcPoint(trig: Trig, arc: EllipticalArc, angle: real): Vertex
  {
    var r := trig.toRadians(angle);
    var cosR, sinR := trig.cos(r), trig.sin(r);
    Vertex2(arc.majorAxisEnd.x * cosR + arc.minorAxisEnd.x * sinR + arc.center.x,
            arc.majorAxisEnd.y * cosR + arc.minorAxisEnd.y * sinR + arc.center.y)
  }

  /** The actual step between samples: the sweep spread evenly over n - 1
      intervals. */
  function ActualStep(arc: EllipticalArc, grads: real): real
  {
    TotalAngle(arc) / (SampleCount(arc, grads) - 1) as real
  }

  /** count angles from g on: each angle is reduced mod 360 before use and
      the next one is the reduced angle plus the step. */
  function SampledAngles(g: real, step: real, count: nat): (angles: seq<real>)
    ensures |angles| == count
    decreases count
  {
    if count == 0 then [] else [Rem360(g)] + SampledAngles(Rem360(g) + step, step, count - 1)
  }

  /** The points of the arc at the given angles. */
  function PointsAt(trig: Trig, arc: EllipticalArc, angles: seq<real>): (vs: seq<Vertex>)
    ensures |vs| == |angles|
    ensures forall k :: 0 <= k < |angles| ==> vs[k] == ArcPoint(trig, arc, angles[k])
  {
    seq(|angles|, k requires 0 <= k < |angles| => ArcPoint(trig, arc, angles[k]))
  }

  /** The points normalizeGradients returns. */
  function SampledArc(trig: Trig, arc: EllipticalArc, grads: real): (vs: seq<Vertex>)
    ensures |vs| == SampleCount(arc, grads) >= 2
  {
    PointsAt(trig, arc, SampledAngles(arc.startAngle, ActualStep(arc, grads), SampleCount(arc, grads)))
  }

  /** Starting one sample later is starting from the next angle. */
  lemma {:induction false} SampleAngleShift(g: real, step: real, k: nat)
    ensures SampleAngle(g, step, k + 1) == SampleAngle(Rem360(g) + step, step, k)
  {
    if k > 0 {
      SampleAngleShift(g, step, k - 1);
    }
  }

  /** Angle i of the sampled list is the i-th sample angle. */
  lemma {:induction false} SampledAnglesAt(g: real, step: real, count: nat, i: nat)
    requires i < count
    ensures SampledAngles(g, step, count)[i] == SampleAngle(g, step, i)
    decreases i
  {
    if i > 0 {
      SampledAnglesAt(Rem360(g) + step, step, count - 1, i - 1);
      SampleAngleShift(g, step, i - 1);
    }
  }

  /** The sampled points of a circular arc whose angles lie in [0, 360)
      start at the start angle and stay in [0, 360). */
  lemma SampledArcAngles(trig: Trig, arc: EllipticalArc, grads: real, i: nat)
    requires 0.0 <= arc.startAngle < 360.0 && 0.0 <= arc.endAngle < 360.0
    requires i < SampleCount(arc, grads)
    ensures SampledArc(trig, arc, grads)[0] == ArcPoint(trig, arc, arc.startAngle)
    ensures var angle := SampleAngle(arc.startAngle, ActualStep(arc, grads), i);
            0.0 <= angle < 360.0 && SampledArc(trig, arc, grads)[i] == ArcPoint(trig, arc, angle)
  {
    var step := ActualStep(arc, grads);
    TotalAngleRange(arc);
    assert step >= 0.0;
    SampleAngleRange(arc.startAngle, step, 0);
    SampleAngleRange(arc.startAngle, step, i);
    SampledAnglesAt(arc.startAngle, step, SampleCount(arc, grads), 0);
    SampledAnglesAt(arc.startAngle, step, SampleCount(arc, grads), i);
  }

  /** normalizeGradients: a new array of the points at the start angle and
      at every actual step after it. The step, the count and the actual
      step are the three functions above, evaluated in the order
      normalizeGradients evaluates them. */
  method NormalizeGradients(trig: Trig, arc: EllipticalArc, grads: real) returns (vertices: array<Vertex>)
    ensures fresh(vertices)
    ensures vertices[..] == SampledArc(trig, arc, grads)
  {
    var numberOfVertices := SampleCount(arc, grads);
    var newgrads := ActualStep(arc, grads);
    vertices := FillSamples(trig, arc, arc.startAngle, newgrads, numberOfVertices);
  }

  /** One turn of the sampling loop: the reduced angle is the next one of
      the list, and the rest of the list starts from it plus the step. */
  lemma SampledAnglesStep(g: real, step: real, n: nat, all: seq<real>, i: nat)
    requires n > 0 && i + n == |all| && SampledAngles(g, step, n) == all[i..]
    ensures all[i] == Rem360(g) && SampledAngles(Rem360(g) + step, step, n - 1) == all[i + 1..]
  {
    assert all[i..] == [Rem360(g)] + SampledAngles(Rem360(g) + step, step, n - 1);
    assert all[i..][0] == all[i] && all[i..][1..] == all[i + 1..];
  }

  /** The sampling loop of normalizeGradients: the angle is reduced mod 360,
      the point at it is stored, and the step is added for the next one. */
  method FillSamples(trig: Trig, arc: EllipticalArc, start: real, step: real, count: nat)
    returns (vertices: array<Vertex>)
    ensures fresh(vertices)
    ensures vertices[..] == PointsAt(trig, arc, SampledAngles(start, step, count))
  {
    ghost var all := SampledAngles(start, step, count);
    vertices := new Vertex[count];
    var g := start;
    var i := 0;
    assert all[0..] == all;
    while i < count
      invariant 0 <= i <= count == vertices.Length == |all|
      invariant forall k :: 0 <= k < i ==> vertices[k] == ArcPoint(trig, arc, all[k])
      invariant SampledAngles(g, step, count - i) == all[i..]
    {
      SampledAnglesStep(g, step, count - i, all, i);
      g := Rem360(g);
      vertices[i] := ArcPoint(trig, arc, g);
      i := i + 1;
      g := g + step;
    }
  }
}
