// The two mesh forms of POLYLINE: the polyface mesh, whose faces index its
// vertex list from 1, and the M x N polygon mesh, drawn as its grid lines.
module Meshes {
  import opened Results
  import opened Numerics
  import opened Pairs
  import opened Geometry
  import opened Shapes
  import opened Entities
  import opened Vertices
  import PE = PolylineEntities

  // ---------------------------------------------------------------------
  // Reading the vertex list

  /** _vertices.get(i) as the x and y it contributes: a null list and an
      index outside the list both throw. */
  function VertexAt(vs: Option<seq<VertexData>>, i: int): (r: Outcome<Vertex>)
    ensures r.Ok? <==> vs.Some? && 0 <= i < |vs.value|
  {
    if vs.None? then Fail(NullReference)
    else if i < 0 || i >= |vs.value| then Fail(IndexOutOfBounds(i))
    else Ok(Vertex2(vs.value[i].point.x, vs.value[i].point.y))
  }

  /** The reads of a list of indices, in order. */
  function Reads(vs: Option<seq<VertexData>>, indices: seq<int>): (r: seq<Outcome<Vertex>>)
    ensures |r| == |indices| && forall k :: 0 <= k < |indices| ==> r[k] == VertexAt(vs, indices[k])
  {
    seq(|indices|, k requires 0 <= k < |indices| => VertexAt(vs, indices[k]))
  }

  /** Reading the vertices at the given indices succeeds exactly when the
      list exists and holds every index, and then gives their points in
      the order of the indices. */
  lemma ReadsAll(vs: Option<seq<VertexData>>, indices: seq<int>)
    ensures CollectAll(Reads(vs, indices)).Ok?
            <==> |indices| == 0 || (vs.Some? && forall k :: 0 <= k < |indices| ==> 0 <= indices[k] < |vs.value|)
    ensures CollectAll(Reads(vs, indices)).Ok? ==>
              forall k :: 0 <= k < |indices| ==>
                CollectAll(Reads(vs, indices)).value[k]
                == Vertex2(vs.value[indices[k]].point.x, vs.value[indices[k]].point.y)
  {
    if |indices| > 0 && CollectAll(Reads(vs, indices)).Ok? {
      assert Reads(vs, indices)[0].Ok?;
    }
  }

  /** The inner loop of both mesh converters: the coordinates of the
      vertices at the given indices, read one at a time. */
  method Gather(vs: Option<seq<VertexData>>, indices: seq<int>) returns (r: Outcome<seq<real>>)
    ensures var c := CollectAll(Reads(vs, indices));
            && (r.Ok? <==> c.Ok?)
            && (r.Ok? ==> r.value == Coordinates(c.value))
            && (r.Fail? ==> r.failure == c.failure)
  {
    ghost var steps := Reads(vs, indices);
    ghost var corners: seq<Vertex> := [];
    var coordinates: seq<real> := [];
    var k := 0;
    while k < |indices|
      invariant 0 <= k <= |indices|
      invariant CollectAll(steps[..k]) == Ok(corners) && coordinates == Coordinates(corners)
    {
      CollectAllStep(steps, k);
      var index := indices[k];
      if vs.None? {
        return Fail(NullReference);
      }
      if index < 0 || index >= |vs.value| {
        return Fail(IndexOutOfBounds(index));
      }
      var vertex := vs.value[index];
      corners := corners + [Vertex2(vertex.point.x, vertex.point.y)];
      assert corners[..|corners| - 1] == corners[..k];
      coordinates := coordinates + [vertex.point.x, vertex.point.y];
      k := k + 1;
    }
    assert steps[..k] == steps;
    return Ok(coordinates);
  }

  // ---------------------------------------------------------------------
  // Polyface mesh

  /** DxfPolyFaceMesh: the polyline part, the declared vertex and face
      counts (codes 71 and 72) and the face records attached to it. */
  datatype PolyFaceMeshData = PolyFaceMeshData(polyline: PE.PolylineData, numberOfVertices: int,
                                               numberOfFaces: int, faces: Option<seq<seq<int>>>)

  /** The POLYFACE decoder: the polyline properties, then codes 71 and 72
      read leniently with no default. */
  function DecodePolyFaceMesh(ns: NumberSyntax, ps: seq<Pair>): (r: Outcome<PolyFaceMeshData>)
    ensures r.Ok? <==> PE.DecodePolyline(ns, ps).Ok? && LenientInteger(ns, GetValue(ps, 71)).Ok?
                       && LenientInteger(ns, GetValue(ps, 72)).Ok?
    ensures r.Ok? ==> Ok(r.value.polyline) == PE.DecodePolyline(ns, ps)
                      && Ok(r.value.numberOfVertices) == LenientInteger(ns, GetValue(ps, 71))
                      && Ok(r.value.numberOfFaces) == LenientInteger(ns, GetValue(ps, 72))
                      && r.value.faces.None?
  {
    var polyline :- PE.DecodePolyline(ns, ps);
    var numberOfVertices :- LenientInteger(ns, GetValue(ps, 71));
    var numberOfFaces :- LenientInteger(ns, GetValue(ps, 72));
    Ok(PolyFaceMeshData(polyline, numberOfVertices, numberOfFaces, None))
  }

  /** addEntity for a face record: appended to the face list, which is
      created on the first face with the declared face count as its
      capacity, so a negative count throws then. */
  function AddFace(m: PolyFaceMeshData, iv: seq<int>): (r: Outcome<PolyFaceMeshData>)
    ensures r.Fail? <==> m.faces.None? && m.numberOfFaces < 0
    ensures r.Fail? ==> r.failure == IllegalCapacity(m.numberOfFaces)
    ensures r.Ok? ==> PE.Listed(r.value.faces) == PE.Listed(m.faces) + [iv] && r.value == m.(faces := r.value.faces)
  {
    if m.faces.None? && m.numberOfFaces < 0 then Fail(IllegalCapacity(m.numberOfFaces))
    else Ok(m.(faces := PE.Appended(m.faces, iv)))
  }

  /** The number of corners drawn for a face: the count its face type
      stands for, which is its number of indices. */
  function CornerCount(iv: seq<int>): (n: nat)
    ensures n <= |iv|
    ensures 1 <= |iv| <= 4 ==> n == |iv|
  {
    FaceVertexCount(FaceTypeOf(iv))
  }

  /** The list positions of a face's corners: its indices are counted from
      1. */
  function CornerPositions(iv: seq<int>): (r: seq<int>)
    ensures |r| == CornerCount(iv) && forall k :: 0 <= k < |r| ==> r[k] == iv[k] - 1
  {
    seq(CornerCount(iv), k requires 0 <= k < CornerCount(iv) => iv[k] - 1)
  }

  /** The polygon one face adds: its corners' x and y, with the transform
      and the resolved colour and no dash array. */
  function FacePolygon(vs: Option<seq<VertexData>>, iv: seq<int>, st: Style): Outcome<Emitted>
  {
    var corners :- CollectAll(Reads(vs, CornerPositions(iv)));
    Ok(Outlined(st, Polygon(Coordinates(corners))))
  }

  /** A face of one to four indices is drawn exactly when every index lies
      between 1 and the number of vertices, and its polygon runs through
      the vertices at those indices less one, in order. */
  lemma FacePolygonCorners(vs: seq<VertexData>, iv: seq<int>, st: Style)
    requires 1 <= |iv| <= 4
    ensures FacePolygon(Some(vs), iv, st).Ok? <==> forall k :: 0 <= k < |iv| ==> 1 <= iv[k] <= |vs|
    ensures FacePolygon(Some(vs), iv, st).Ok? ==>
              var pts := FacePolygon(Some(vs), iv, st).value.shape.figure.points;
              |pts| == 2 * |iv|
              && forall k :: 0 <= k < |iv| ==> pts[2 * k] == vs[iv[k] - 1].point.x && pts[2 * k + 1] == vs[iv[k] - 1].point.y
  {
    var positions := CornerPositions(iv);
    ReadsAll(Some(vs), positions);
    var c := CollectAll(Reads(Some(vs), positions));
    if c.Ok? {
      forall k | 0 <= k < |iv|
        ensures Coordinates(c.value)[2 * k] == vs[iv[k] - 1].point.x
        ensures Coordinates(c.value)[2 * k + 1] == vs[iv[k] - 1].point.y
      {
        ReadCoordinates(Some(vs), positions, k);
      }
    }
  }

  /** Entries 2k and 2k + 1 of the coordinates read at a list of indices
      are the x and y of the vertex at the k-th index. */
  lemma ReadCoordinates(vs: Option<seq<VertexData>>, indices: seq<int>, k: nat)
    requires CollectAll(Reads(vs, indices)).Ok? && k < |indices|
    ensures var pts := Coordinates(CollectAll(Reads(vs, indices)).value);
            pts[2 * k] == vs.value[indices[k]].point.x && pts[2 * k + 1] == vs.value[indices[k]].point.y
  {
    var c := CollectAll(Reads(vs, indices));
    assert Reads(vs, indices)[k] == Ok(c.value[k]);
    CoordinatesAt(c.value, k);
  }

  /** One polygon per face, in face order, up to the first face that
      throws. */
  function FaceSteps(vs: Option<seq<VertexData>>, faces: seq<seq<int>>, st: Style): (r: seq<Outcome<Emitted>>)
    ensures |r| == |faces| && forall i :: 0 <= i < |faces| ==> r[i] == FacePolygon(vs, faces[i], st)
  {
    seq(|faces|, i requires 0 <= i < |faces| => FacePolygon(vs, faces[i], st))
  }

  /** convertToFxShapes as written, once the layer is known to be on: the
      face list is dereferenced first, so a mesh that never received a face
      throws. */
  function FaceMeshDrawingAsWritten(m: PolyFaceMeshData, st: Style): (r: Outcome<Drawing>)
    ensures m.faces.None? ==> r == Fail(NullReference)
  {
    if m.faces.None? then Fail(NullReference)
    else if m.faces.value == [] then Ok(Drawing(true, []))
    else
      var shapes :- CollectAll(FaceSteps(m.polyline.vertices, m.faces.value, st));
      Ok(Drawing(true, shapes))
  }

  /** convertToFxShapes with a missing face list read as an empty one: a
      mesh without faces draws nothing and reports success; otherwise one
      polygon per face, in order. */
  function FaceMeshDrawing(m: PolyFaceMeshData, st: Style): (r: Outcome<Drawing>)
    ensures PE.Listed(m.faces) == [] ==> r == Ok(Drawing(true, []))
    ensures r.Ok? ==> r.value.drawn && |r.value.added| == |PE.Listed(m.faces)|
    ensures r.Ok? <==> forall i :: 0 <= i < |PE.Listed(m.faces)| ==>
                         FacePolygon(m.polyline.vertices, PE.Listed(m.faces)[i], st).Ok?
  {
    var shapes :- CollectAll(FaceSteps(m.polyline.vertices, PE.Listed(m.faces), st));
    Ok(Drawing(true, shapes))
  }

  /** A mesh with no face record makes the conversion throw as written,
      while the corrected conversion reports success with nothing drawn;
      with a face list the two agree. */
  lemma FaceMeshWithoutFaces(m: PolyFaceMeshData, st: Style)
    ensures m.faces.None? ==> FaceMeshDrawingAsWritten(m, st) == Fail(NullReference)
                              && FaceMeshDrawing(m, st) == Ok(Drawing(true, []))
    ensures m.faces.Some? ==> FaceMeshDrawingAsWritten(m, st) == FaceMeshDrawing(m, st)
  {
    if m.faces.Some? && m.faces.value == [] {
      assert FaceSteps(m.polyline.vertices, [], st) == [];
    }
  }

  /** convertToFxShapes once the layer is known to be on, with a missing
      face list read as empty. A face that throws leaves the polygons of the
      faces before it in the container. */
  method ConvertPolyFaceMesh(container: ShapeContainer, m: PolyFaceMeshData, st: Style) returns (r: Outcome<bool>)
    modifies container
    ensures var d := FaceMeshDrawing(m, st);
            && (r.Ok? <==> d.Ok?)
            && (r.Ok? ==> r.value && container.shapes == old(container.shapes) + d.value.added)
            && (r.Fail? ==> r.failure == d.failure)
    ensures container.shapes
            == old(container.shapes) + Completed(FaceSteps(m.polyline.vertices, PE.Listed(m.faces), st))
  {
    var faces := PE.Listed(m.faces);
    if faces == [] {
      assert FaceSteps(m.polyline.vertices, faces, st) == [];
      return Ok(true);
    }
    var vs := m.polyline.vertices;
    ghost var steps := FaceSteps(vs, faces, st);
    ghost var added: seq<Emitted> := [];
    var i := 0;
    while i < |faces|
      invariant 0 <= i <= |faces|
      invariant CollectAll(steps[..i]) == Ok(added)
      invariant container.shapes == old(container.shapes) + added
    {
      CollectAllStep(steps, i);
      var coordinates := Gather(vs, CornerPositions(faces[i]));
      if coordinates.Fail? {
        assert steps[i] == Fail(coordinates.failure);
        CompletedIsCollected(steps, i);
        return Fail(coordinates.failure);
      }
      container.AddShape(st.strokeScale, Shape(Polygon(coordinates.value), [st.transform], st.color, []));
      AppendAssoc(old(container.shapes), added, [steps[i].value]);
      added := added + [steps[i].value];
      i := i + 1;
    }
    assert steps[..i] == steps;
    CompletedIsCollected(steps, i);
    return Ok(true);
  }

  // ---------------------------------------------------------------------
  // Polygon mesh

  /** DxfPolygonMesh: the polyline part, the vertex counts M and N (codes 71
      and 72) and the surface densities (codes 73 and 74). */
  datatype PolygonMeshData = PolygonMeshData(polyline: PE.PolylineData, mCount: int, nCount: int,
                                             mDensity: int, nDensity: int)

  /** The POLYGON3D decoder: the polyline properties, then codes 71 and 72
      read by Integer.parseInt with no default, and 73 and 74 defaulting to
      "0". */
  function DecodePolygonMesh(ns: NumberSyntax, ps: seq<Pair>): (r: Outcome<PolygonMeshData>)
    ensures r.Ok? <==> PE.DecodePolyline(ns, ps).Ok? && IntegerAt(ns, Strict, ps, 71).Ok?
                       && IntegerAt(ns, Strict, ps, 72).Ok? && IntegerOr(ns, Strict, ps, 73, "0").Ok?
                       && IntegerOr(ns, Strict, ps, 74, "0").Ok?
    ensures r.Ok? ==> Ok(r.value.polyline) == PE.DecodePolyline(ns, ps)
                      && Ok(r.value.mCount) == IntegerAt(ns, Strict, ps, 71)
                      && Ok(r.value.nCount) == IntegerAt(ns, Strict, ps, 72)
  {
    var polyline :- PE.DecodePolyline(ns, ps);
    var mCount :- IntegerAt(ns, Strict, ps, 71);
    var nCount :- IntegerAt(ns, Strict, ps, 72);
    var mDensity :- IntegerOr(ns, Strict, ps, 73, "0");
    var nDensity :- IntegerOr(ns, Strict, ps, 74, "0");
    Ok(PolygonMeshData(polyline, mCount, nCount, mDensity, nDensity))
  }

  /** The mesh closure bits: closed in the M direction (1) and in the N
      direction (32). */
  const BitMClosed: nat := 0
  const BitNClosed: nat := 5

  function Max0(x: int): nat
  {
    if x < 0 then 0 else x
  }

  /** The list position of grid vertex (m, n): m rows of N vertices come
      before it. */
  function GridIndex(nCount: int, m: nat, n: int): int
  {
    if m == 0 then n else GridIndex(nCount, m - 1, n) + nCount
  }

  lemma {:induction false} GridIndexIs(nCount: int, m: nat, n: int)
    ensures GridIndex(nCount, m, n) == nCount * m + n
  {
    if m > 0 {
      GridIndexIs(nCount, m - 1, n);
    }
  }

  /** The indices of grid column n: vertex (m, n) for m below M. */
  function ColumnIndices(d: PolygonMeshData, n: int): (r: seq<int>)
    ensures |r| == Max0(d.mCount) && forall m :: 0 <= m < |r| ==> r[m] == GridIndex(d.nCount, m, n)
  {
    seq(Max0(d.mCount), m requires 0 <= m < Max0(d.mCount) => GridIndex(d.nCount, m, n))
  }

  /** The indices of grid row m: vertex (m, n) for n below N. */
  function RowIndices(d: PolygonMeshData, m: nat): (r: seq<int>)
    ensures |r| == Max0(d.nCount) && forall n :: 0 <= n < |r| ==> r[n] == GridIndex(d.nCount, m, n)
  {
    seq(Max0(d.nCount), n requires 0 <= n < Max0(d.nCount) => GridIndex(d.nCount, m, n))
  }

  /** One grid line: its coordinate list is created with twice the number
      of points as its capacity, then the vertices are read and one Polygon
      (closed) or Polyline (open) is added. */
  function GridLine(vs: Option<seq<VertexData>>, count: int, indices: seq<int>, closed: bool, st: Style)
    : Outcome<Emitted>
  {
    if 2 * count < 0 then Fail(IllegalCapacity(2 * count))
    else
      var points :- CollectAll(Reads(vs, indices));
      var coordinates := Coordinates(points);
      Ok(Outlined(st, if closed then Polygon(coordinates) else Polyline(coordinates)))
  }

  /** Grid column n: M points, closed when bit 1 is set. */
  function Column(d: PolygonMeshData, n: int, st: Style): Outcome<Emitted>
  {
    GridLine(d.polyline.vertices, d.mCount, ColumnIndices(d, n), HasBit(d.polyline.flags, BitMClosed), st)
  }

  /** Grid row m: N points, closed when bit 32 is set. */
  function Row(d: PolygonMeshData, m: nat, st: Style): Outcome<Emitted>
  {
    GridLine(d.polyline.vertices, d.nCount, RowIndices(d, m), HasBit(d.polyline.flags, BitNClosed), st)
  }

  function Columns(d: PolygonMeshData, st: Style): (r: seq<Outcome<Emitted>>)
    ensures |r| == Max0(d.nCount) && forall n :: 0 <= n < |r| ==> r[n] == Column(d, n, st)
  {
    seq(Max0(d.nCount), n requires 0 <= n < Max0(d.nCount) => Column(d, n, st))
  }

  function Rows(d: PolygonMeshData, st: Style): (r: seq<Outcome<Emitted>>)
    ensures |r| == Max0(d.mCount) && forall m :: 0 <= m < |r| ==> r[m] == Row(d, m, st)
  {
    seq(Max0(d.mCount), m requires 0 <= m < Max0(d.mCount) => Row(d, m, st))
  }

  /** The grid lines in the order they are added: the N columns, then the
      M rows. */
  function GridSteps(d: PolygonMeshData, st: Style): seq<Outcome<Emitted>>
  {
    Columns(d, st) + Rows(d, st)
  }

  /** convertToFxShapes once the layer is known to be on: every grid line,
      columns first; the result is true. */
  function PolygonMeshDrawing(d: PolygonMeshData, st: Style): (r: Outcome<Drawing>)
    ensures r.Ok? ==> r.value.drawn && |r.value.added| == Max0(d.nCount) + Max0(d.mCount)
  {
    var shapes :- CollectAll(GridSteps(d, st));
    Ok(Drawing(true, shapes))
  }

  lemma MulMonotone(a: int, x: int, y: int)
    requires 0 <= a && x <= y
    ensures a * x <= a * y
  {
    assert a * y - a * x == a * (y - x);
  }

  /** Vertex (m, n) of an M x N grid lies inside the first M N entries. */
  lemma GridIndexInRange(mCount: int, nCount: int, m: int, n: int)
    requires 0 <= m < mCount && 0 <= n < nCount
    ensures 0 <= GridIndex(nCount, m, n) < mCount * nCount
  {
    GridIndexIs(nCount, m, n);
    MulMonotone(nCount, m, mCount - 1);
    assert nCount * (mCount - 1) == mCount * nCount - nCount;
  }

  /** Every column and row can be read exactly when the list holds the M N
      vertices of the grid. */
  predicate GridFits(d: PolygonMeshData)
  {
    d.mCount > 0 && d.nCount > 0 ==> d.polyline.vertices.Some? && |d.polyline.vertices.value| >= d.mCount * d.nCount
  }

  /** A column of a grid that the list holds is drawn. */
  lemma ColumnDrawn(d: PolygonMeshData, n: int, st: Style)
    requires d.mCount >= 0 && 0 <= n < d.nCount && GridFits(d)
    ensures Column(d, n, st).Ok?
  {
    var indices := ColumnIndices(d, n);
    forall m | 0 <= m < |indices|
      ensures 0 <= indices[m] < |d.polyline.vertices.value|
    {
      GridIndexInRange(d.mCount, d.nCount, m, n);
    }
    ReadsAll(d.polyline.vertices, indices);
  }

  /** A row of a grid that the list holds is drawn. */
  lemma RowDrawn(d: PolygonMeshData, m: int, st: Style)
    requires d.nCount >= 0 && 0 <= m < d.mCount && GridFits(d)
    ensures Row(d, m, st).Ok?
  {
    var indices := RowIndices(d, m);
    forall n | 0 <= n < |indices|
      ensures 0 <= indices[n] < |d.polyline.vertices.value|
    {
      GridIndexInRange(d.mCount, d.nCount, m, n);
    }
    ReadsAll(d.polyline.vertices, indices);
  }

  /** When the counts are not negative and the list holds the grid, every
      grid line is drawn. */
  lemma PolygonMeshDrawsAll(d: PolygonMeshData, st: Style)
    requires d.mCount >= 0 && d.nCount >= 0 && GridFits(d)
    ensures PolygonMeshDrawing(d, st).Ok?
  {
    AllColumnsDrawn(d, st);
    AllRowsDrawn(d, st);
    CollectAllAppend(Columns(d, st), Rows(d, st));
  }

  lemma AllColumnsDrawn(d: PolygonMeshData, st: Style)
    requires d.mCount >= 0 && GridFits(d)
    ensures CollectAll(Columns(d, st)).Ok?
  {
    forall n | 0 <= n < Max0(d.nCount)
      ensures Columns(d, st)[n].Ok?
    {
      ColumnDrawn(d, n, st);
    }
  }

  lemma AllRowsDrawn(d: PolygonMeshData, st: Style)
    requires d.nCount >= 0 && GridFits(d)
    ensures CollectAll(Rows(d, st)).Ok?
  {
    forall m | 0 <= m < Max0(d.mCount)
      ensures Rows(d, st)[m].Ok?
    {
      RowDrawn(d, m, st);
    }
  }

  /** A list shorter than the grid makes the last column throw, on the
      vertex (M - 1, N - 1) it cannot hold. */
  lemma PolygonMeshShortListThrows(d: PolygonMeshData, st: Style)
    requires d.mCount > 0 && d.nCount > 0 && !GridFits(d)
    ensures PolygonMeshDrawing(d, st).Fail?
  {
    LastColumnFails(d, st);
    var steps := GridSteps(d, st);
    assert steps[d.nCount - 1] == Column(d, d.nCount - 1, st);
    assert !steps[d.nCount - 1].Ok?;
  }

  /** The last column reads vertex (M - 1, N - 1), at index M·N - 1. */
  lemma LastColumnFails(d: PolygonMeshData, st: Style)
    requires d.mCount > 0 && d.nCount > 0 && !GridFits(d)
    ensures Column(d, d.nCount - 1, st).Fail?
  {
    var last := ColumnIndices(d, d.nCount - 1);
    assert last[d.mCount - 1] == d.mCount * d.nCount - 1 by {
      GridIndexIs(d.nCount, d.mCount - 1, d.nCount - 1);
      assert d.nCount * (d.mCount - 1) == d.mCount * d.nCount - d.nCount;
    }
    assert Reads(d.polyline.vertices, last)[d.mCount - 1].Fail?;
  }

  /** A negative count throws when the first line of the other family
      creates its coordinate list, provided that family has a line. */
  lemma PolygonMeshNegativeCountThrows(d: PolygonMeshData, st: Style)
    ensures d.mCount < 0 && d.nCount > 0 ==> PolygonMeshDrawing(d, st) == Fail(IllegalCapacity(2 * d.mCount))
    ensures d.nCount < 0 && d.mCount > 0 ==> PolygonMeshDrawing(d, st) == Fail(IllegalCapacity(2 * d.nCount))
  {
    var steps := GridSteps(d, st);
    if d.mCount < 0 && d.nCount > 0 {
      assert steps[0] == Column(d, 0, st);
      CollectAllFirstFailure(steps, 0);
    } else if d.nCount < 0 && d.mCount > 0 {
      assert steps[0] == Row(d, 0, st);
      CollectAllFirstFailure(steps, 0);
    }
  }

  /** The points of a drawn grid line: column n runs through vertices
      (0, n) to (M - 1, n), row m through (m, 0) to (m, N - 1). */
  lemma GridLinePoints(vs: Option<seq<VertexData>>, count: int, indices: seq<int>, closed: bool, st: Style, k: nat)
    requires GridLine(vs, count, indices, closed, st).Ok?
    ensures var pts := GridLine(vs, count, indices, closed, st).value.shape.figure.points;
            && |pts| == 2 * |indices|
            && (k < |indices| ==> pts[2 * k] == vs.value[indices[k]].point.x
                                  && pts[2 * k + 1] == vs.value[indices[k]].point.y)
  {
    ReadsAll(vs, indices);
    if k < |indices| {
      ReadCoordinates(vs, indices, k);
    }
  }

  /** Each drawn line is the grid line at its place: the columns first,
      then the rows. */
  lemma PolygonMeshLines(d: PolygonMeshData, st: Style)
    requires PolygonMeshDrawing(d, st).Ok?
    ensures var added := PolygonMeshDrawing(d, st).value.added;
            && (forall n :: 0 <= n < Max0(d.nCount) ==> Column(d, n, st) == Ok(added[n]))
            && (forall m :: 0 <= m < Max0(d.mCount) ==> Row(d, m, st) == Ok(added[Max0(d.nCount) + m]))
  {
    CollectAllAppend(Columns(d, st), Rows(d, st));
    var columns := CollectAll(Columns(d, st)).value;
    var rows := CollectAll(Rows(d, st)).value;
    ColumnsCollected(d, st);
    RowsCollected(d, st);
    assert PolygonMeshDrawing(d, st).value.added == columns + rows;
  }

  lemma ColumnsCollected(d: PolygonMeshData, st: Style)
    requires CollectAll(Columns(d, st)).Ok?
    ensures forall n :: 0 <= n < Max0(d.nCount) ==> Column(d, n, st) == Ok(CollectAll(Columns(d, st)).value[n])
  {
  }

  lemma RowsCollected(d: PolygonMeshData, st: Style)
    requires CollectAll(Rows(d, st)).Ok?
    ensures forall m :: 0 <= m < Max0(d.mCount) ==> Row(d, m, st) == Ok(CollectAll(Rows(d, st)).value[m])
  {
  }

  /** One pass of either outer loop: the coordinate list is created, the
      inner loop reads the line's vertices and one Polygon or Polyline is
      added; a throw adds nothing. */
  method AddGridLine(container: ShapeContainer, vs: Option<seq<VertexData>>, count: int, indices: seq<int>,
                     closed: bool, st: Style) returns (r: Outcome<bool>)
    modifies container
    ensures var line := GridLine(vs, count, indices, closed, st);
            && (r.Ok? <==> line.Ok?)
            && (r.Ok? ==> container.shapes == old(container.shapes) + [line.value])
            && (r.Fail? ==> r.failure == line.failure && container.shapes == old(container.shapes))
  {
    if 2 * count < 0 {
      return Fail(IllegalCapacity(2 * count));
    }
    var coordinates := Gather(vs, indices);
    if coordinates.Fail? {
      return Fail(coordinates.failure);
    }
    if closed {
      container.AddShape(st.strokeScale, Shape(Polygon(coordinates.value), [st.transform], st.color, []));
    } else {
      container.AddShape(st.strokeScale, Shape(Polyline(coordinates.value), [st.transform], st.color, []));
    }
    return Ok(true);
  }

  /** The outer loop over the columns. A column that throws leaves the
      columns before it in the container. */
  method AddColumns(container: ShapeContainer, d: PolygonMeshData, st: Style) returns (r: Outcome<bool>)
    modifies container
    ensures var lines := Columns(d, st);
            && (r.Ok? <==> CollectAll(lines).Ok?)
            && (r.Ok? ==> r.value)
            && (r.Fail? ==> r.failure == CollectAll(lines).failure)
            && container.shapes == old(container.shapes) + Completed(lines)
  {
    ghost var lines := Columns(d, st);
    ghost var added: seq<Emitted> := [];
    var closed := HasBit(d.polyline.flags, BitMClosed);
    var n := 0;
    while n < d.nCount
      invariant 0 <= n <= Max0(d.nCount)
      invariant CollectAll(lines[..n]) == Ok(added)
      invariant container.shapes == old(container.shapes) + added
    {
      CollectAllStep(lines, n);
      var line := AddGridLine(container, d.polyline.vertices, d.mCount, ColumnIndices(d, n), closed, st);
      if line.Fail? {
        CompletedIsCollected(lines, n);
        return line;
      }
      AppendAssoc(old(container.shapes), added, [lines[n].value]);
      added := added + [lines[n].value];
      n := n + 1;
    }
    assert lines[..n] == lines;
    CompletedIsCollected(lines, n);
    return Ok(true);
  }

  /** The outer loop over the rows. A row that throws leaves the rows
      before it in the container. */
  method AddRows(container: ShapeContainer, d: PolygonMeshData, st: Style) returns (r: Outcome<bool>)
    modifies container
    ensures var lines := Rows(d, st);
            && (r.Ok? <==> CollectAll(lines).Ok?)
            && (r.Ok? ==> r.value)
            && (r.Fail? ==> r.failure == CollectAll(lines).failure)
            && container.shapes == old(container.shapes) + Completed(lines)
  {
    ghost var lines := Rows(d, st);
    ghost var added: seq<Emitted> := [];
    var closed := HasBit(d.polyline.flags, BitNClosed);
    var m := 0;
    while m < d.mCount
      invariant 0 <= m <= Max0(d.mCount)
      invariant CollectAll(lines[..m]) == Ok(added)
      invariant container.shapes == old(container.shapes) + added
    {
      CollectAllStep(lines, m);
      var line := AddGridLine(container, d.polyline.vertices, d.nCount, RowIndices(d, m), closed, st);
      if line.Fail? {
        CompletedIsCollected(lines, m);
        return line;
      }
      AppendAssoc(old(container.shapes), added, [lines[m].value]);
      added := added + [lines[m].value];
      m := m + 1;
    }
    assert lines[..m] == lines;
    CompletedIsCollected(lines, m);
    return Ok(true);
  }

  /** A column that throws ends the drawing with its failure, and the
      lines drawn are the columns before it. */
  lemma ColumnsThrow(d: PolygonMeshData, st: Style)
    requires CollectAll(Columns(d, st)).Fail?
    ensures PolygonMeshDrawing(d, st) == Fail(CollectAll(Columns(d, st)).failure)
    ensures Completed(GridSteps(d, st)) == Completed(Columns(d, st))
  {
    CollectAllAppend(Columns(d, st), Rows(d, st));
    CompletedAppend(Columns(d, st), Rows(d, st));
  }

  /** Once every column is drawn, the drawing is the columns followed by
      the rows, and a row that throws keeps the columns and the rows
      before it. */
  lemma RowsAfterColumns(d: PolygonMeshData, st: Style)
    requires CollectAll(Columns(d, st)).Ok?
    ensures var columns := CollectAll(Columns(d, st)).value;
            var rows := CollectAll(Rows(d, st));
            && PolygonMeshDrawing(d, st)
               == (if rows.Fail? then Fail(rows.failure) else Ok(Drawing(true, columns + rows.value)))
            && Completed(GridSteps(d, st)) == columns + Completed(Rows(d, st))
  {
    CompletedAll(Columns(d, st));
    CollectAllAppend(Columns(d, st), Rows(d, st));
    CompletedAppend(Columns(d, st), Rows(d, st));
  }

  /** convertToFxShapes once the layer is known to be on: the columns, then
      the rows. A line that throws leaves the lines before it in the
      container. */
  method ConvertPolygonMesh(container: ShapeContainer, d: PolygonMeshData, st: Style) returns (r: Outcome<bool>)
    modifies container
    ensures var dr := PolygonMeshDrawing(d, st);
            && (r.Ok? <==> dr.Ok?)
            && (r.Ok? ==> r.value && container.shapes == old(container.shapes) + dr.value.added)
            && (r.Fail? ==> r.failure == dr.failure)
    ensures container.shapes == old(container.shapes) + Completed(GridSteps(d, st))
  {
    ghost var start := container.shapes;
    r := AddColumns(container, d, st);
    if r.Fail? {
      ColumnsThrow(d, st);
      return;
    }
    ghost var columns := CollectAll(Columns(d, st)).value;
    CompletedAll(Columns(d, st));
    RowsAfterColumns(d, st);
    r := AddRows(container, d, st);
    AppendAssoc(start, columns, Completed(Rows(d, st)));
    if r.Ok? {
      CompletedAll(Rows(d, st));
    }
  }
}
