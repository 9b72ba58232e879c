// POLYLINE: the header record, the VERTEX records attached to it (sorted
// into control points, 3D vertices and 2D poly-vertices), and the decision
// whether and how the polyline is drawn.
module PolylineEntities {
  import opened Results
  import opened Numerics
  import opened Pairs
  import opened Geometry
  import opened Shapes
  import opened Entities
  import opened Vertices
  import opened Polylines

  /** Polyline flag bits, as bit positions: closed (1), 3D polyline (8),
      polygon mesh (16) and polyface mesh (64). */
  const BitClosed: nat := 0
  const Bit3D: nat := 3
  const BitPolygonMesh: nat := 4
  const BitPolyFaceMesh: nat := 6

  /** A list that stays null until its first element is added, read as
      the elements it holds. */
  function Listed<T>(l: Option<seq<T>>): (r: seq<T>)
    ensures l.None? ==> r == []
  {
    if l.None? then [] else l.value
  }

  /** The list with one more element at its end, created on first use. */
  function Appended<T>(l: Option<seq<T>>, x: T): (r: Option<seq<T>>)
    ensures r.Some? && r.value == Listed(l) + [x]
  {
    Some(Listed(l) + [x])
  }

  /** DxfPolyline: the elevation point (codes 10/20/30), thickness (39),
      flags (70), default widths (40/41), surface type (75) and extrusion
      (210/220/230), then the vertex lists the attached records fill in,
      the count of 3D vertices and whether some 2D vertex has a width. */
  datatype PolylineData = PolylineData(
    elevation: Point,
    thickness: real,
    flags: int,
    startWidth: real,
    endWidth: real,
    surfaceType: int,
    extrusion: Point,
    controlPoints: Option<seq<VertexData>>,
    vertices: Option<seq<VertexData>>,
    polyVertices: Option<seq<PolyVertex>>,
    vertexCount: int,
    hasWidth: bool)

  /** Whether some poly-vertex has a start or end width above 0. */
  predicate SomeWidth(pvs: seq<PolyVertex>)
  {
    exists i :: 0 <= i < |pvs| && (pvs[i].startWidth > 0.0 || pvs[i].endWidth > 0.0)
  }

  /** What the attached records leave true of a polyline: each list is
      null or non-empty and holds only its own kind of vertex, the vertex
      count is the length of the 3D list, and the width flag says whether
      some 2D vertex has a width. */
  predicate Consistent(pl: PolylineData)
  {
    && (pl.controlPoints.Some? ==> |pl.controlPoints.value| > 0)
    && (pl.vertices.Some? ==> |pl.vertices.value| > 0)
    && (pl.polyVertices.Some? ==> |pl.polyVertices.value| > 0)
    && (forall i :: 0 <= i < |Listed(pl.controlPoints)| ==> IsControlPoint(Listed(pl.controlPoints)[i]))
    && (forall i :: 0 <= i < |Listed(pl.vertices)| ==>
          !IsControlPoint(Listed(pl.vertices)[i]) && !IsVertex2D(Listed(pl.vertices)[i]))
    && pl.vertexCount == |Listed(pl.vertices)|
    && (pl.hasWidth <==> SomeWidth(Listed(pl.polyVertices)))
  }

  /** The POLYLINE decoder: every property read leniently, each "0" when
      absent; no vertex is attached yet. */
  function DecodePolyline(ns: NumberSyntax, ps: seq<Pair>): (r: Outcome<PolylineData>)
    ensures r.Ok? <==> PointOr0(ns, Lenient, ps, 10, 20, 30).Ok? && RealOr(ns, Lenient, ps, 39, "0").Ok?
                       && IntegerOr(ns, Lenient, ps, 70, "0").Ok? && RealOr(ns, Lenient, ps, 40, "0").Ok?
                       && RealOr(ns, Lenient, ps, 41, "0").Ok? && IntegerOr(ns, Lenient, ps, 75, "0").Ok?
                       && PointOr0(ns, Lenient, ps, 210, 220, 230).Ok?
    ensures r.Ok? ==> Ok(r.value.flags) == IntegerOr(ns, Lenient, ps, 70, "0")
                      && Ok(r.value.elevation) == PointOr0(ns, Lenient, ps, 10, 20, 30)
    ensures r.Ok? ==> r.value.controlPoints.None? && r.value.vertices.None? && r.value.polyVertices.None?
                      && Consistent(r.value)
  {
    var elevation :- PointOr0(ns, Lenient, ps, 10, 20, 30);
    var thickness :- RealOr(ns, Lenient, ps, 39, "0");
    var flags :- IntegerOr(ns, Lenient, ps, 70, "0");
    var startWidth :- RealOr(ns, Lenient, ps, 40, "0");
    var endWidth :- RealOr(ns, Lenient, ps, 41, "0");
    var surfaceType :- IntegerOr(ns, Lenient, ps, 75, "0");
    var extrusion :- PointOr0(ns, Lenient, ps, 210, 220, 230);
    Ok(PolylineData(elevation, thickness, flags, startWidth, endWidth, surfaceType, extrusion,
                    None, None, None, 0, false))
  }

  /** addEntity for a vertex record: a control point goes to the control
      points, a 3D vertex to the vertex list (and is counted), and a 2D
      vertex becomes a poly-vertex with its widths and bulge, setting the
      width flag when one of its widths is above 0. */
  function AddVertex(pl: PolylineData, v: VertexData): (r: PolylineData)
    ensures IsControlPoint(v) ==>
              Listed(r.controlPoints) == Listed(pl.controlPoints) + [v]
              && r == pl.(controlPoints := r.controlPoints)
    ensures !IsControlPoint(v) && !IsVertex2D(v) ==>
              Listed(r.vertices) == Listed(pl.vertices) + [v]
              && r == pl.(vertices := r.vertices, vertexCount := pl.vertexCount + 1)
    ensures !IsControlPoint(v) && IsVertex2D(v) ==>
              Listed(r.polyVertices) == Listed(pl.polyVertices) + [AsPolyVertex(v)]
              && r == pl.(polyVertices := r.polyVertices, hasWidth := r.hasWidth)
    ensures pl.hasWidth ==> r.hasWidth
  {
    if IsControlPoint(v) then pl.(controlPoints := Appended(pl.controlPoints, v))
    else if !IsVertex2D(v) then pl.(vertices := Appended(pl.vertices, v), vertexCount := pl.vertexCount + 1)
    else
      var sw, ew := StartWidth(v), EndWidth(v);
      pl.(polyVertices := Appended(pl.polyVertices, AsPolyVertex(v)), hasWidth := pl.hasWidth || sw > 0.0 || ew > 0.0)
  }

  /** Every vertex record lands in exactly one of the three lists, and
      attaching it keeps the polyline consistent: in particular the width
      flag stays true exactly when some 2D vertex has a width. */
  lemma AddVertexKeepsConsistent(pl: PolylineData, v: VertexData)
    requires Consistent(pl)
    ensures var r := AddVertex(pl, v);
            |Listed(r.controlPoints)| + |Listed(r.vertices)| + |Listed(r.polyVertices)|
            == |Listed(pl.controlPoints)| + |Listed(pl.vertices)| + |Listed(pl.polyVertices)| + 1
    ensures Consistent(AddVertex(pl, v))
  {
    var r := AddVertex(pl, v);
    if !IsControlPoint(v) && IsVertex2D(v) {
      var old_ := Listed(pl.polyVertices);
      var pvs := Listed(r.polyVertices);
      var pv := AsPolyVertex(v);
      GettersOf2DVertex(v);
      assert pvs[|old_|] == pv;
      if SomeWidth(old_) {
        var i :| 0 <= i < |old_| && (old_[i].startWidth > 0.0 || old_[i].endWidth > 0.0);
        assert pvs[i] == old_[i];
      }
      if SomeWidth(pvs) {
        var i :| 0 <= i < |pvs| && (pvs[i].startWidth > 0.0 || pvs[i].endWidth > 0.0);
        if i < |old_| {
          assert pvs[i] == old_[i];
        }
      }
    }
  }

  /** isClosed: flag bit 1. */
  predicate IsClosed(pl: PolylineData)
  {
    HasBit(pl.flags, BitClosed)
  }

  /** isVertex2D: flag bit 8 clear. */
  predicate Is2DPolyline(pl: PolylineData)
  {
    !HasBit(pl.flags, Bit3D)
  }

  /** needClose: a closed polyline whose first and last poly-vertices
      differ in x or y needs its closing segment. A closed polyline
      without poly-vertices throws, the list being null. */
  function NeedClose(pl: PolylineData): (r: Outcome<bool>)
    ensures r.Fail? <==> IsClosed(pl) && |Listed(pl.polyVertices)| == 0
    ensures r.Fail? ==> r.failure == if pl.polyVertices.None? then NullReference else IndexOutOfBounds(0)
    ensures r.Ok? ==> (r.value <==> IsClosed(pl) && |Listed(pl.polyVertices)| > 0
                                    && (pl.polyVertices.value[0].x != Last(pl.polyVertices.value).x
                                        || pl.polyVertices.value[0].y != Last(pl.polyVertices.value).y))
  {
    if !IsClosed(pl) then Ok(false)
    else if pl.polyVertices.None? then Fail(NullReference)
    else if pl.polyVertices.value == [] then Fail(IndexOutOfBounds(0))
    else Ok(CompareVertex2D(pl.polyVertices.value[0], Last(pl.polyVertices.value)) != 0)
  }

  function Last<T>(s: seq<T>): T
    requires |s| > 0
  {
    s[|s| - 1]
  }

  /** isDegenerate as written: fewer than two 3D vertices, whatever kind
      of polyline this is. */
  predicate IsDegenerateAsWritten(pl: PolylineData)
  {
    pl.vertices.None? || |pl.vertices.value| < 2
  }

  /** The number of vertices the conversion draws from: the poly-vertices
      of a 2D polyline, the 3D vertices of any other. */
  function DrawnCount(pl: PolylineData): nat
  {
    if Is2DPolyline(pl) then |Listed(pl.polyVertices)| else |Listed(pl.vertices)|
  }

  /** isDegenerate as the conversion needs it: fewer than two vertices in
      the list that is drawn. */
  predicate IsDegenerate(pl: PolylineData)
  {
    DrawnCount(pl) < 2
  }

  /** The points of the 3D vertex list, or null. */
  function Points(vs: Option<seq<VertexData>>): (r: Option<seq<Point>>)
    ensures r.Some? <==> vs.Some?
    ensures r.Some? ==> |r.value| == |vs.value| && forall i :: 0 <= i < |vs.value| ==> r.value[i] == vs.value[i].point
  {
    if vs.None? then None else Some(seq(|vs.value|, i requires 0 <= i < |vs.value| => vs.value[i].point))
  }

  /** What convertToFxShapes does once the layer is known to be on, given
      the degeneracy test it uses: a degenerate polyline is not drawn;
      otherwise the closing decision is taken and the polyline is drawn
      with the width flag false, even when a 2D vertex has a width. */
  function DrawingWith(trig: Trig, pl: PolylineData, st: Style, degenerate: bool): Outcome<Drawing>
  {
    if degenerate then Ok(Drawing(false, []))
    else
      var close :- NeedClose(pl);
      var vertices :- PolylineVertices(trig, Is2DPolyline(pl), pl.polyVertices, Points(pl.vertices), close, false);
      Ok(Drawing(true, PolyShapes(st.transform, st.strokeScale, st.color, st.lineType, st.lineTypeScale,
                                  vertices, close)))
  }

  /** The conversion as written, with the 3D-only degeneracy test. */
  function PolylineDrawingAsWritten(trig: Trig, pl: PolylineData, st: Style): Outcome<Drawing>
  {
    DrawingWith(trig, pl, st, IsDegenerateAsWritten(pl))
  }

  /** The conversion with the degeneracy test on the list that is drawn. */
  function PolylineDrawing(trig: Trig, pl: PolylineData, st: Style): (r: Outcome<Drawing>)
    ensures IsDegenerate(pl) ==> r == Ok(Drawing(false, []))
    ensures r.Ok? && r.value.drawn ==> |r.value.added| <= 1 && !IsDegenerate(pl)
    ensures !IsDegenerate(pl) && !IsClosed(pl) ==> r.Fail? || r.value.drawn
  {
    DrawingWith(trig, pl, st, IsDegenerate(pl))
  }

  /** A 2D polyline of two straight vertices is drawn as one segment once
      the degeneracy test looks at the list that is drawn; as written it is
      never drawn, since all its vertices are 2D and the 3D list stays
      null. */
  lemma AsWrittenSkips2DPolyline(trig: Trig, pl: PolylineData, st: Style, a: PolyVertex, b: PolyVertex)
    requires Is2DPolyline(pl) && !IsClosed(pl) && pl.vertices.None?
    requires pl.polyVertices == Some([a, b]) && a.bulge == 0.0 && b.bulge == 0.0
    ensures PolylineDrawingAsWritten(trig, pl, st) == Ok(Drawing(false, []))
    ensures PolylineDrawing(trig, pl, st)
            == Ok(Drawing(true, PolyShapes(st.transform, st.strokeScale, st.color, st.lineType, st.lineTypeScale,
                                           [Flat(a), Flat(b)], false)))
  {
    PolylineDrawsStraight2D(trig, pl, st);
    assert Flats([a, b]) == [Flat(a), Flat(b)];
  }

  function Flats(vs: seq<PolyVertex>): (r: seq<Vertex>)
    ensures |r| == |vs| && forall i :: 0 <= i < |vs| ==> r[i] == Flat(vs[i])
  {
    seq(|vs|, i requires 0 <= i < |vs| => Flat(vs[i]))
  }

  /** An open 2D polyline of at least two vertices and no bulge is drawn
      as one Polyline through its vertices in order. */
  lemma PolylineDrawsStraight2D(trig: Trig, pl: PolylineData, st: Style)
    requires Is2DPolyline(pl) && !IsClosed(pl)
    requires pl.polyVertices.Some? && |pl.polyVertices.value| >= 2 && AllStraight(pl.polyVertices.value)
    ensures PolylineDrawing(trig, pl, st)
            == Ok(Drawing(true, PolyShapes(st.transform, st.strokeScale, st.color, st.lineType, st.lineTypeScale,
                                           Flats(pl.polyVertices.value), false)))
  {
    var vs := pl.polyVertices.value;
    VertexListStraight(trig, NumberOfGrads, vs, false, false);
    var flats := Flats(vs);
    assert seq(|vs|, i requires 0 <= i < |vs| => Flat(vs[i])) == flats;
    FilledSomes(flats);
  }

  lemma FilledSomes(vs: seq<Vertex>)
    ensures Filled(Somes(vs)) == Some(vs)
  {
    var f := Filled(Somes(vs));
    assert f.Some?;
    assert f.value == vs;
  }

  /** A closed 3D polyline throws: the closing decision reads the first
      poly-vertex of a list that only 2D vertices fill. */
  lemma Closed3DPolylineThrows(trig: Trig, pl: PolylineData, st: Style)
    requires Consistent(pl) && !Is2DPolyline(pl) && IsClosed(pl) && pl.polyVertices.None?
    requires |Listed(pl.vertices)| >= 2
    ensures PolylineDrawing(trig, pl, st) == Fail(NullReference)
  {
  }

  /** convertToFxShapes once the layer is known to be on, with the
      degeneracy test on the list that is drawn. */
  method ConvertPolylineEntity(trig: Trig, container: ShapeContainer, pl: PolylineData, st: Style)
    returns (r: Outcome<bool>)
    modifies container
    ensures var d := PolylineDrawing(trig, pl, st);
            && (r.Ok? <==> d.Ok?)
            && (r.Fail? ==> r.failure == d.failure && container.shapes == old(container.shapes))
            && (r.Ok? ==> r.value == d.value.drawn && container.shapes == old(container.shapes) + d.value.added)
  {
    if IsDegenerate(pl) {
      return Ok(false);
    }
    var close :- NeedClose(pl);
    r := ConvertPolyline(trig, container, st.transform, st.strokeScale, st.color, st.lineType, st.lineTypeScale,
                         Is2DPolyline(pl), pl.polyVertices, Points(pl.vertices), close, false);
  }
}
