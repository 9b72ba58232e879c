// POINT, VERTEX and the face records of a polyface mesh: a point entity, a
// polyline vertex with its flags, widths and bulge, and a face given as a
// list of 1-based vertex indices.
module Vertices {
  import opened Results
  import opened Numerics
  import opened Pairs
  import opened Geometry
  import opened Entities

  /** DxfPoint: x, y and z from codes 10, 20 and 30, none of them
      defaulted. */
  function DecodePoint(ns: NumberSyntax, ps: seq<Pair>): (r: Outcome<Point>)
    ensures r.Ok? <==> RealAt(ns, Lenient, ps, 10).Ok? && RealAt(ns, Lenient, ps, 20).Ok?
                       && RealAt(ns, Lenient, ps, 30).Ok?
    ensures r.Ok? ==> r.value == Point(RealAt(ns, Lenient, ps, 10).value, RealAt(ns, Lenient, ps, 20).value,
                                       RealAt(ns, Lenient, ps, 30).value)
  {
    PointAt(ns, Lenient, ps, 10, 20, 30)
  }

  /** A point decodes from its three coordinate codes alone: pair lists that
      agree on the first values of codes 10, 20 and 30 give the same point. */
  lemma DecodePointReadsOnlyCoordinates(ns: NumberSyntax, ps: seq<Pair>, qs: seq<Pair>)
    requires GetValue(ps, 10) == GetValue(qs, 10) && GetValue(ps, 20) == GetValue(qs, 20)
    requires GetValue(ps, 30) == GetValue(qs, 30)
    ensures DecodePoint(ns, ps) == DecodePoint(ns, qs)
  {
  }

  /** Vertex flag bits. */
  const FlagControlPoint: nat := 4    // 16
  const Flag3DPolyline: int := 32

  /** DxfVertex: the point, the start and end widths (codes 40/41), the
      bulge (code 42) and the flags (code 70). */
  datatype VertexData = VertexData(point: Point, startWidth: real, endWidth: real, bulge: real, flags: int)

  /** The VERTEX decoder: the point as DxfPoint reads it, then widths, bulge
      and flags, each "0" when absent. */
  function DecodeVertex(ns: NumberSyntax, ps: seq<Pair>): (r: Outcome<VertexData>)
    ensures r.Ok? <==> DecodePoint(ns, ps).Ok? && RealOr(ns, Lenient, ps, 40, "0").Ok?
                       && RealOr(ns, Lenient, ps, 41, "0").Ok? && RealOr(ns, Lenient, ps, 42, "0").Ok?
                       && IntegerOr(ns, Lenient, ps, 70, "0").Ok?
    ensures r.Ok? ==> Ok(r.value.point) == DecodePoint(ns, ps)
                      && Ok(r.value.flags) == IntegerOr(ns, Lenient, ps, 70, "0")
                      && Ok(r.value.bulge) == RealOr(ns, Lenient, ps, 42, "0")
  {
    var point :- DecodePoint(ns, ps);
    var startWidth :- RealOr(ns, Lenient, ps, 40, "0");
    var endWidth :- RealOr(ns, Lenient, ps, 41, "0");
    var bulge :- RealOr(ns, Lenient, ps, 42, "0");
    var flags :- IntegerOr(ns, Lenient, ps, 70, "0");
    Ok(VertexData(point, startWidth, endWidth, bulge, flags))
  }

  /** A vertex that gives only its point has no width, no bulge and no
      flags, so it is a plain 2D vertex. */
  lemma DecodeVertexDefaults(ns: NumberSyntax, ps: seq<Pair>)
    requires ReadsDefaults(ns)
    requires forall j :: 0 <= j < |ps| ==> ps[j].code !in {40, 41, 42, 70}
    requires DecodePoint(ns, ps).Ok?
    ensures DecodeVertex(ns, ps) == Ok(VertexData(DecodePoint(ns, ps).value, 0.0, 0.0, 0.0, 0))
    ensures IsVertex2D(DecodeVertex(ns, ps).value) && !IsControlPoint(DecodeVertex(ns, ps).value)
  {
    assert !HasBit(0, FlagControlPoint) by { assert Pow2(4) == 16; }
  }

  /** isControlPoint: flag bit 16. */
  predicate IsControlPoint(v: VertexData)
  {
    HasBit(v.flags, FlagControlPoint)
  }

  /** isVertex2D: the flags compared with 32 as a number, not a test of
      bit 32. */
  predicate IsVertex2D(v: VertexData)
  {
    v.flags < Flag3DPolyline
  }

  /** The comparison and the bit test disagree: a negative flag word with
      the 3D-polyline bit set still counts as 2D, and a 3D polygon-mesh
      vertex (flags 64) without that bit does not. */
  lemma IsVertex2DIsNotABitTest()
    ensures var v := VertexData(Point(0.0, 0.0, 0.0), 0.0, 0.0, 0.0, -32);
            IsVertex2D(v) && HasBit(v.flags, 5)
    ensures var v := VertexData(Point(0.0, 0.0, 0.0), 0.0, 0.0, 0.0, 64);
            !IsVertex2D(v) && !HasBit(v.flags, 5)
  {
    assert Pow2(5) == 32;
  }

  /** getBulge, getStartWidth and getEndWidth: the stored value for a 2D
      vertex, 0 for any other. */
  function Bulge(v: VertexData): (b: real)
    ensures !IsVertex2D(v) ==> b == 0.0
  {
    if IsVertex2D(v) then v.bulge else 0.0
  }

  function StartWidth(v: VertexData): (w: real)
    ensures !IsVertex2D(v) ==> w == 0.0
  {
    if IsVertex2D(v) then v.startWidth else 0.0
  }

  function EndWidth(v: VertexData): (w: real)
    ensures !IsVertex2D(v) ==> w == 0.0
  {
    if IsVertex2D(v) then v.endWidth else 0.0
  }

  /** The three getters hand back the stored values exactly when the vertex
      is 2D. */
  lemma GettersOf2DVertex(v: VertexData)
    requires IsVertex2D(v)
    ensures Bulge(v) == v.bulge && StartWidth(v) == v.startWidth && EndWidth(v) == v.endWidth
  {
  }

  /** getArc: the bulge arc from this vertex to (x2, y2). */
  function VertexArc(trig: Trig, v: VertexData, x2: real, y2: real): Option<EllipticalArc>
  {
    GetArc(trig, Bulge(v), v.point.x, v.point.y, x2, y2)
  }

  /** A 3D vertex never starts an arc, whatever bulge it stored; a 2D
      vertex starts one exactly when its bulge is not 0 in float. */
  lemma VertexArcOnlyFor2D(trig: Trig, v: VertexData, x2: real, y2: real)
    ensures !IsVertex2D(v) ==> VertexArc(trig, v, x2, y2).None?
    ensures IsVertex2D(v) ==> (VertexArc(trig, v, x2, y2).Some? <==> !FloatIsZero(v.bulge))
  {
  }

  /** The PolyVertex a 2D vertex contributes to a polyline: its point,
      widths and bulge as the getters give them. */
  function AsPolyVertex(v: VertexData): (pv: PolyVertex)
    ensures pv.x == v.point.x && pv.y == v.point.y && pv.z == v.point.z
    ensures IsVertex2D(v) ==> pv.startWidth == v.startWidth && pv.endWidth == v.endWidth && pv.bulge == v.bulge
  {
    PolyVertex(v.point.x, v.point.y, v.point.z, StartWidth(v), EndWidth(v), Bulge(v))
  }

  // ---------------------------------------------------------------------
  // Face records

  /** The kind of a face, from the number of its indices. */
  datatype FaceType = Undefined | PointFace | LineFace | Triangle | Quad

  /** getFaceType. */
  function FaceTypeOf(iv: seq<int>): (t: FaceType)
    ensures t == Undefined <==> |iv| == 0 || |iv| > 4
  {
    match |iv|
    case 1 => PointFace
    case 2 => LineFace
    case 3 => Triangle
    case 4 => Quad
    case _ => Undefined
  }

  /** The number of polygon vertices a face type stands for. */
  function FaceVertexCount(t: FaceType): (n: nat)
    ensures n <= 4
  {
    match t
    case Undefined => 0
    case PointFace => 1
    case LineFace => 2
    case Triangle => 3
    case Quad => 4
  }

  /** The index list of a face: all four indices when the fourth is not
      negative, else the first three when the third is not negative, else the
      first two when the second is not negative, else only the first. */
  function FaceIndices(iv1: int, iv2: int, iv3: int, iv4: int): (r: seq<int>)
  {
    if iv4 < 0 then
      if iv3 < 0 then
        if iv2 < 0 then [iv1] else [iv1, iv2]
      else [iv1, iv2, iv3]
    else [iv1, iv2, iv3, iv4]
  }

  /** The list keeps the indices unchanged and in order, up to the last one
      that is not negative; its length is 1 to 4, so its face type is never
      undefined and stands for exactly that many vertices. */
  lemma FaceIndicesShape(iv1: int, iv2: int, iv3: int, iv4: int)
    ensures var r := FaceIndices(iv1, iv2, iv3, iv4);
            1 <= |r| <= 4 && r == [iv1, iv2, iv3, iv4][..|r|]
            && (|r| == 4 <==> iv4 >= 0)
            && (|r| == 3 <==> iv4 < 0 && iv3 >= 0)
            && (|r| == 2 <==> iv4 < 0 && iv3 < 0 && iv2 >= 0)
            && FaceTypeOf(r) != Undefined && FaceVertexCount(FaceTypeOf(r)) == |r|
  {
  }

  /** A negative index counts as absent, whatever its value: it may be
      replaced by the default -1 without changing the list. */
  lemma NegativeIndexIsAbsent(iv1: int, iv2: int, iv3: int, iv4: int)
    ensures iv4 < 0 ==> FaceIndices(iv1, iv2, iv3, iv4) == FaceIndices(iv1, iv2, iv3, -1)
    ensures iv4 < 0 && iv3 < 0 ==> FaceIndices(iv1, iv2, iv3, iv4) == FaceIndices(iv1, iv2, -1, -1)
    ensures iv4 < 0 && iv3 < 0 && iv2 < 0 ==> FaceIndices(iv1, iv2, iv3, iv4) == FaceIndices(iv1, -1, -1, -1)
  {
  }

  /** A face record decoded from a VERTEX whose code 71 is not 0: index 1
      from code 71, which must be present, and indices 2 to 4 from codes
      72/73/74, each -1 when absent. One copy of the class reads them
      leniently, the other with Integer.parseInt. */
  function DecodeFaceDef(ns: NumberSyntax, p: Parsing, ps: seq<Pair>): (r: Outcome<seq<int>>)
    ensures r.Ok? <==> IntegerAt(ns, p, ps, 71).Ok? && IntegerOr(ns, p, ps, 72, "-1").Ok?
                       && IntegerOr(ns, p, ps, 73, "-1").Ok? && IntegerOr(ns, p, ps, 74, "-1").Ok?
    ensures r.Ok? ==> r.value == FaceIndices(IntegerAt(ns, p, ps, 71).value, IntegerOr(ns, p, ps, 72, "-1").value,
                                             IntegerOr(ns, p, ps, 73, "-1").value,
                                             IntegerOr(ns, p, ps, 74, "-1").value)
  {
    var iv1 :- IntegerAt(ns, p, ps, 71);
    var iv2 :- IntegerOr(ns, p, ps, 72, "-1");
    var iv3 :- IntegerOr(ns, p, ps, 73, "-1");
    var iv4 :- IntegerOr(ns, p, ps, 74, "-1");
    Ok(FaceIndices(iv1, iv2, iv3, iv4))
  }

  /** A face record that gives only codes 71 to 73 is a triangle of those
      three indices. */
  lemma DecodeFaceDefTriangle(ns: NumberSyntax, p: Parsing, ps: seq<Pair>)
    requires ReadsDefaults(ns)
    requires forall j :: 0 <= j < |ps| ==> ps[j].code != 74
    requires IntegerAt(ns, p, ps, 71).Ok? && IntegerOr(ns, p, ps, 72, "-1").Ok?
    requires IntegerOr(ns, p, ps, 73, "-1").Ok? && IntegerOr(ns, p, ps, 73, "-1").value >= 0
    ensures DecodeFaceDef(ns, p, ps).Ok?
    ensures DecodeFaceDef(ns, p, ps).value
            == [IntegerAt(ns, p, ps, 71).value, IntegerOr(ns, p, ps, 72, "-1").value,
                IntegerOr(ns, p, ps, 73, "-1").value]
    ensures FaceTypeOf(DecodeFaceDef(ns, p, ps).value) == Triangle
  {
    ReadDefaults(ns, p);
  }
}
