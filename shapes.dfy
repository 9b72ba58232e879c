// The drawing primitives the conversion emits, the affine transforms they
// carry, and the append-only container that collects them together with the
// stroke scale each was added with.
module Shapes {
  import opened Results
  import opened Numerics
  import opened Geometry
  import opened LineTypes

  /** A 2D affine transform in JavaFX's layout:
      x' = mxx·x + mxy·y + tx and y' = myx·x + myy·y + ty. */
  datatype Affine = Affine(mxx: real, mxy: real, tx: real, myx: real, myy: real, ty: real)

  const Identity: Affine := Affine(1.0, 0.0, 0.0, 0.0, 1.0, 0.0)

  /** The image of a point. */
  function Apply(a: Affine, p: Point2D): Point2D
  {
    Point2D(a.mxx * p.x + a.mxy * p.y + a.tx, a.myx * p.x + a.myy * p.y + a.ty)
  }

  /** a.append(b): the product a·b, which applies b first and then a. */
  function Append(a: Affine, b: Affine): Affine
  {
    Affine(a.mxx * b.mxx + a.mxy * b.myx, a.mxx * b.mxy + a.mxy * b.myy, a.mxx * b.tx + a.mxy * b.ty + a.tx,
           a.myx * b.mxx + a.myy * b.myx, a.myx * b.mxy + a.myy * b.myy, a.myx * b.tx + a.myy * b.ty + a.ty)
  }

  /** The appended transform maps each point where b and then a take it. */
  lemma AppendApplies(a: Affine, b: Affine, p: Point2D)
    ensures Apply(Append(a, b), p) == Apply(a, Apply(b, p))
  {
    AppendAppliesX(a, b, p);
    AppendAppliesY(a, b, p);
  }

  lemma AppendAppliesX(a: Affine, b: Affine, p: Point2D)
    ensures Apply(Append(a, b), p).x == Apply(a, Apply(b, p)).x
  {
    Distribute(a.mxx, a.mxy, a.tx, b.mxx, b.mxy, b.tx, b.myx, b.myy, b.ty, p.x, p.y);
  }

  lemma AppendAppliesY(a: Affine, b: Affine, p: Point2D)
    ensures Apply(Append(a, b), p).y == Apply(a, Apply(b, p)).y
  {
    Distribute(a.myx, a.myy, a.ty, b.mxx, b.mxy, b.tx, b.myx, b.myy, b.ty, p.x, p.y);
  }

  /** One row of the matrix product, multiplied out. */
  lemma Distribute(u: real, v: real, t: real, m11: real, m12: real, t1: real, m21: real, m22: real, t2: real,
                   x: real, y: real)
    ensures u * (m11 * x + m12 * y + t1) + v * (m21 * x + m22 * y + t2) + t
            == (u * m11 + v * m21) * x + (u * m12 + v * m22) * y + (u * t1 + v * t2 + t)
  {
  }

  /** Appending the identity on either side changes nothing. */
  lemma AppendIdentity(a: Affine)
    ensures Append(a, Identity) == a && Append(Identity, a) == a
  {
  }

  /** Scale(sx, sy) about the origin. */
  function Scaling(sx: real, sy: real): Affine
  {
    Affine(sx, 0.0, 0.0, 0.0, sy, 0.0)
  }

  /** Translate(x, y). */
  function Translation(x: real, y: real): Affine
  {
    Affine(1.0, 0.0, x, 0.0, 1.0, y)
  }

  /** Rotate(degrees) about the origin, counter-clockwise. */
  function Rotation(trig: Trig, degrees: real): Affine
  {
    var c := trig.cos(trig.toRadians(degrees));
    var s := trig.sin(trig.toRadians(degrees));
    Affine(c, -s, 0.0, s, c, 0.0)
  }

  /** The outline of one JavaFX shape, in its own coordinates. Polygon and
      Polyline points are flattened as x0, y0, x1, y1, ... */
  datatype Figure =
    | Line(startX: real, startY: real, endX: real, endY: real)
    | Circle(centerX: real, centerY: real, radius: real)
    | Arc(centerX: real, centerY: real, radiusX: real, radiusY: real, startAngle: real, length: real)
    | Ellipse(centerX: real, centerY: real, radiusX: real, radiusY: real)
    | Polygon(points: seq<real>)
    | Polyline(points: seq<real>)

  /** A shape as it is added: its outline, its transform list in the order
      it was filled, its stroke colour (the resolved colour index) and its
      stroke dash array (empty for a solid stroke). */
  datatype Shape = Shape(figure: Figure, transforms: seq<Affine>, stroke: int, dashes: seq<real>)

  /** One addShape call: the stroke scale binds the shape's stroke width to
      the container's. */
  datatype Emitted = Emitted(strokeScale: real, shape: Shape)

  /** The dash array every converter attaches: the line type's dashes at
      the given scale when there is a line type and it is not continuous,
      and none otherwise. */
  function StrokeDashes(lineType: Option<LineType>, lineTypeScale: real): (r: seq<real>)
    ensures lineType.None? || IsContinuous(lineType.value) ==> r == []
    ensures lineType.Some? && !IsContinuous(lineType.value) ==>
              r == DashArray(lineType.value.description, lineTypeScale)
  {
    if lineType.Some? && !IsContinuous(lineType.value)
    then DashArray(lineType.value.description, lineTypeScale)
    else []
  }

  /** The resolved state one entity is drawn with: the transform, the
      stroke scale, the resolved colour index, the resolved line type (none
      when a block's current line type is unset) and the line-type scale,
      which is the global scale times the entity's own. */
  datatype Style = Style(transform: Affine, strokeScale: real, color: int, lineType: Option<LineType>,
                         lineTypeScale: real)

  /** One outline added with the style's stroke scale, transform list
      [transform], colour and dash array. */
  function Stroked(st: Style, figure: Figure): Emitted
  {
    Emitted(st.strokeScale, Shape(figure, [st.transform], st.color, StrokeDashes(st.lineType, st.lineTypeScale)))
  }

  /** One wireframe outline added with the style's stroke scale, transform
      list [transform] and colour, and no dash array whatever the line
      type. */
  function Outlined(st: Style, figure: Figure): Emitted
  {
    Emitted(st.strokeScale, Shape(figure, [st.transform], st.color, []))
  }

  /** What one entity's convertToFxShapes does when it does not throw: the
      boolean it returns and the shapes it adds, in order. */
  datatype Drawing = Drawing(drawn: bool, added: seq<Emitted>)

  /** The points of a vertex array as the flat coordinate list of a
      Polygon or Polyline. */
  function Coordinates(vs: seq<Vertex>): (r: seq<real>)
    ensures |r| == 2 * |vs|
  {
    if vs == [] then [] else Coordinates(vs[..|vs| - 1]) + [vs[|vs| - 1].x, vs[|vs| - 1].y]
  }

  /** Entry 2i of the coordinate list is the x of vertex i and entry
      2i + 1 its y. */
  lemma {:induction false} CoordinatesAt(vs: seq<Vertex>, i: nat)
    requires i < |vs|
    ensures Coordinates(vs)[2 * i] == vs[i].x && Coordinates(vs)[2 * i + 1] == vs[i].y
  {
    if i < |vs| - 1 {
      CoordinatesAt(vs[..|vs| - 1], i);
    }
  }

  /** The shape container: everything added, in order. Shapes are only
      ever appended. */
  class ShapeContainer {
    var shapes: seq<Emitted>

    constructor ()
      ensures shapes == []
    {
      shapes := [];
    }

    /** addShape: one more shape at the end, the earlier ones unchanged. */
    method AddShape(strokeScale: real, shape: Shape)
      modifies this
      ensures shapes == old(shapes) + [Emitted(strokeScale, shape)]
    {
      shapes := shapes + [Emitted(strokeScale, shape)];
    }
  }
}
