// The entities the parser builds: one record per DXF entity, made of the
// shared properties and the data of its concrete class, and the way a
// VERTEX record is attached to the entity that owns it.
module Kinds {
  import opened Results
  import opened Numerics
  import opened Pairs
  import opened EntityTypes
  import opened Entities
  import Vertices
  import Lines
  import Arcs
  import Faces
  import LwPolylines
  import Meshes
  import Inserts
  import PE = PolylineEntities

  /** The concrete class of an entity with what it decoded. An XLINE keeps
      the data of the RAY it extends; SOLID and TRACE are built from their
      shared properties only, since DxfSolid is not part of this model. */
  datatype Kind =
    | PointKind(point: Geometry.Point)
    | VertexKind(vertex: Vertices.VertexData)
    | FaceDefKind(indices: seq<int>)
    | LineKind(line: Lines.LineData)
    | RayKind(ray: Lines.RayData)
    | XLineKind(xline: Lines.RayData)
    | ArcKind(arc: Arcs.ArcData)
    | CircleKind(circle: Arcs.CircleData)
    | EllipseKind(ellipse: Arcs.EllipseData)
    | Face3DKind(face: Faces.Face3DData)
    | LwPolylineKind(lwpolyline: LwPolylines.LwPolylineData)
    | PolylineKind(polyline: PE.PolylineData)
    | PolyFaceMeshKind(polyFaceMesh: Meshes.PolyFaceMeshData)
    | PolygonMeshKind(polygonMesh: Meshes.PolygonMeshData)
    | InsertKind(insert: Inserts.InsertData)
    | DimensionKind(dimension: Inserts.DimensionData)
    | SolidKind

  /** A DxfEntity: its shared properties, its class data and the block it
      was added to (its parent block), given as the block's slot in the
      document; none until it is added to one. */
  datatype Entity = Entity(common: Common, kind: Kind, parent: Option<nat>)

  /** The entity types parseEntity has a constructor for. FACEDEF,
      POLYFACE3D and POLYGON3D are only ever reached through VERTEX and
      POLYLINE, and SEQEND builds nothing. */
  const Constructed: set<EntityType> :=
    {ARC, CIRCLE, DIMENSION, ELLIPSE, FACE3D, INSERT, LINE, LWPOLYLINE, POINT, POLYLINE, RAY, SOLID, TRACE,
     VERTEX, XLINE}

  /** The types a record can be decoded as once POLYLINE and VERTEX have
      been told apart. */
  const Decodable: set<EntityType> := Constructed + {FACEDEF, POLYFACE3D, POLYGON3D}

  /** The class a POLYLINE record is built as: the polygon-mesh bit (16)
      wins over the polyface-mesh bit (64); everything else, 3D polylines
      included, is a plain polyline. */
  function PolylineTypeOf(flags: int): (t: EntityType)
    ensures t in {POLYLINE, POLYGON3D, POLYFACE3D}
  {
    if HasBit(flags, PE.BitPolygonMesh) then POLYGON3D
    else if HasBit(flags, PE.BitPolyFaceMesh) then POLYFACE3D
    else POLYLINE
  }

  /** The class a VERTEX record is built as: code 71 (0 when absent) being
      0 makes a vertex, anything else a face record. */
  function VertexTypeOf(test: int): (t: EntityType)
    ensures t in {VERTEX, FACEDEF}
  {
    if test == 0 then VERTEX else FACEDEF
  }

  /** The class-specific decoder of each type, with the parser each one
      uses. */
  function DecodeKind(ns: NumberSyntax, trig: Trig, ps: seq<Pair>, t: EntityType): (r: Outcome<Kind>)
    requires t in Decodable
    ensures r.Ok? ==> && (r.value.PolygonMeshKind? <==> t == POLYGON3D)
                      && (r.value.PolyFaceMeshKind? <==> t == POLYFACE3D)
                      && (r.value.PolylineKind? <==> t == POLYLINE)
                      && (r.value.VertexKind? <==> t == VERTEX)
                      && (r.value.FaceDefKind? <==> t == FACEDEF)
  {
    match t
    case ARC =>
      var d :- Arcs.DecodeArc(ns, Lenient, ps);
      Ok(ArcKind(d))
    case CIRCLE =>
      var d :- Arcs.DecodeCircle(ns, ps);
      Ok(CircleKind(d))
    case DIMENSION =>
      var d :- Inserts.DecodeDimension(ns, ps);
      Ok(DimensionKind(d))
    case ELLIPSE =>
      var d :- Arcs.DecodeEllipse(ns, trig, ps);
      Ok(EllipseKind(d))
    case FACE3D =>
      var d :- Faces.DecodeFace3D(ns, ps);
      Ok(Face3DKind(d))
    case INSERT =>
      var d :- Inserts.DecodeInsert(ns, trig, ps);
      Ok(InsertKind(d))
    case LINE =>
      var d :- Lines.DecodeLine(ns, ps);
      Ok(LineKind(d))
    case LWPOLYLINE =>
      var d :- LwPolylines.DecodeLwPolyline(ns, ps);
      Ok(LwPolylineKind(d))
    case POINT =>
      var d :- Vertices.DecodePoint(ns, ps);
      Ok(PointKind(d))
    case POLYLINE =>
      var d :- PE.DecodePolyline(ns, ps);
      Ok(PolylineKind(d))
    case POLYGON3D =>
      var d :- Meshes.DecodePolygonMesh(ns, ps);
      Ok(PolygonMeshKind(d))
    case POLYFACE3D =>
      var d :- Meshes.DecodePolyFaceMesh(ns, ps);
      Ok(PolyFaceMeshKind(d))
    case RAY =>
      var d :- Lines.DecodeRay(ns, ps);
      Ok(RayKind(d))
    case XLINE =>
      var d :- Lines.DecodeRay(ns, ps);
      Ok(XLineKind(d))
    case VERTEX =>
      var d :- Vertices.DecodeVertex(ns, ps);
      Ok(VertexKind(d))
    case FACEDEF =>
      var d :- Vertices.DecodeFaceDef(ns, Lenient, ps);
      Ok(FaceDefKind(d))
    case _ => Ok(SolidKind)
  }

  /** One DxfEntity constructor: the shared properties first, so that a
      paper-space record rejected there (None) decodes nothing else, then
      the class data. */
  function Build(ns: NumberSyntax, trig: Trig, ps: seq<Pair>, t: EntityType, ignorePaperSpace: bool)
    : (r: Outcome<Option<Entity>>)
    requires t in Decodable
    ensures r.Ok? ==> (r.value.None? <==> DecodeCommon(ns, ps, t, ignorePaperSpace) == Ok(None))
    ensures r.Ok? && r.value.Some? ==>
              && Ok(Some(r.value.value.common)) == DecodeCommon(ns, ps, t, ignorePaperSpace)
              && Ok(r.value.value.kind) == DecodeKind(ns, trig, ps, t)
              && r.value.value.parent.None?
    ensures DecodeCommon(ns, ps, t, ignorePaperSpace).Fail? ==> r.Fail?
  {
    var common :- DecodeCommon(ns, ps, t, ignorePaperSpace);
    if common.None? then Ok(None)
    else
      var kind :- DecodeKind(ns, trig, ps, t);
      Ok(Some(Entity(common.value, kind, None)))
  }

  /** The switch of parseEntity: the record built for a type, None when the
      type has no constructor or the record lies in ignored paper space,
      or the exception that aborts the load. POLYLINE and VERTEX read their
      deciding code with Integer.parseInt before anything else. */
  function Construct(ns: NumberSyntax, trig: Trig, ps: seq<Pair>, t: EntityType, ignorePaperSpace: bool)
    : (r: Outcome<Option<Entity>>)
    ensures t !in Constructed ==> r == Ok(None)
    ensures r.Ok? && r.value.Some? ==> r.value.value.parent.None?
  {
    if t == POLYLINE then
      var flags :- StrictInteger(GetValueOr(ps, 70, Some("0")));
      Build(ns, trig, ps, PolylineTypeOf(flags), ignorePaperSpace)
    else if t == VERTEX then
      var test :- StrictInteger(GetValueOr(ps, 71, Some("0")));
      Build(ns, trig, ps, VertexTypeOf(test), ignorePaperSpace)
    else if t in Constructed then Build(ns, trig, ps, t, ignorePaperSpace)
    else Ok(None)
  }

  /** The type a built record carries: the type it was read as, except
      that a POLYLINE takes the class its flags select and a VERTEX with a
      non-zero code 71 becomes a face record. */
  lemma ConstructRetypes(ns: NumberSyntax, trig: Trig, ps: seq<Pair>, t: EntityType, ignorePaperSpace: bool)
    requires Construct(ns, trig, ps, t, ignorePaperSpace).Ok?
    requires Construct(ns, trig, ps, t, ignorePaperSpace).value.Some?
    ensures var e := Construct(ns, trig, ps, t, ignorePaperSpace).value.value;
            && t in Constructed
            && (t == POLYLINE ==>
                  e.common.entityType == PolylineTypeOf(StrictInteger(GetValueOr(ps, 70, Some("0"))).value))
            && (t == VERTEX ==>
                  e.common.entityType == VertexTypeOf(StrictInteger(GetValueOr(ps, 71, Some("0"))).value))
            && (t != POLYLINE && t != VERTEX ==> e.common.entityType == t)
  {
    var u := if t == POLYLINE then PolylineTypeOf(StrictInteger(GetValueOr(ps, 70, Some("0"))).value)
             else if t == VERTEX then VertexTypeOf(StrictInteger(GetValueOr(ps, 71, Some("0"))).value)
             else t;
    assert Construct(ns, trig, ps, t, ignorePaperSpace) == Build(ns, trig, ps, u, ignorePaperSpace);
    var e := Build(ns, trig, ps, u, ignorePaperSpace).value.value;
    assert Ok(Some(e.common)) == DecodeCommon(ns, ps, u, ignorePaperSpace);
  }

  /** The class built matches the type: a polygon mesh for POLYGON3D, a
      polyface mesh for POLYFACE3D, a polyline for POLYLINE, a vertex for
      VERTEX and a face record for FACEDEF. */
  lemma ConstructKinds(ns: NumberSyntax, trig: Trig, ps: seq<Pair>, t: EntityType, ignorePaperSpace: bool)
    requires Construct(ns, trig, ps, t, ignorePaperSpace).Ok?
    requires Construct(ns, trig, ps, t, ignorePaperSpace).value.Some?
    ensures var e := Construct(ns, trig, ps, t, ignorePaperSpace).value.value;
            && (e.common.entityType == POLYGON3D <==> e.kind.PolygonMeshKind?)
            && (e.common.entityType == POLYFACE3D <==> e.kind.PolyFaceMeshKind?)
            && (e.common.entityType == POLYLINE <==> e.kind.PolylineKind?)
            && (e.common.entityType == VERTEX <==> e.kind.VertexKind?)
            && (e.common.entityType == FACEDEF <==> e.kind.FaceDefKind?)
  {
    var u := if t == POLYLINE then PolylineTypeOf(StrictInteger(GetValueOr(ps, 70, Some("0"))).value)
             else if t == VERTEX then VertexTypeOf(StrictInteger(GetValueOr(ps, 71, Some("0"))).value)
             else t;
    assert Construct(ns, trig, ps, t, ignorePaperSpace) == Build(ns, trig, ps, u, ignorePaperSpace);
    var e := Build(ns, trig, ps, u, ignorePaperSpace).value.value;
    assert e.common.entityType == u;
    assert DecodeKind(ns, trig, ps, u) == Ok(e.kind);
  }

  /** A POLYLINE whose flag word does not parse, or a VERTEX whose code 71
      does not, aborts the load before any other property is read. */
  lemma ConstructDecidingCodeThrows(ns: NumberSyntax, trig: Trig, ps: seq<Pair>, ignorePaperSpace: bool)
    ensures StrictInteger(GetValueOr(ps, 70, Some("0"))).Fail? ==>
              Construct(ns, trig, ps, POLYLINE, ignorePaperSpace)
              == Fail(StrictInteger(GetValueOr(ps, 70, Some("0"))).failure)
    ensures StrictInteger(GetValueOr(ps, 71, Some("0"))).Fail? ==>
              Construct(ns, trig, ps, VERTEX, ignorePaperSpace)
              == Fail(StrictInteger(GetValueOr(ps, 71, Some("0"))).failure)
  {
  }

  /** A record flagged as lying in paper space, read while paper space is
      ignored, builds nothing and reads nothing beyond its shared flags. */
  lemma ConstructRejectsPaperSpace(ns: NumberSyntax, trig: Trig, ps: seq<Pair>, t: EntityType)
    requires InPaperSpace(ns, ps) == Ok(true)
    requires t == POLYLINE ==> StrictInteger(GetValueOr(ps, 70, Some("0"))).Ok?
    requires t == VERTEX ==> StrictInteger(GetValueOr(ps, 71, Some("0"))).Ok?
    ensures Construct(ns, trig, ps, t, true) == Ok(None)
  {
    DecodeCommonPaperSpace(ns, ps, t);
    if t == POLYLINE {
      DecodeCommonPaperSpace(ns, ps, PolylineTypeOf(StrictInteger(GetValueOr(ps, 70, Some("0"))).value));
    } else if t == VERTEX {
      DecodeCommonPaperSpace(ns, ps, VertexTypeOf(StrictInteger(GetValueOr(ps, 71, Some("0"))).value));
    }
  }

  /** The polygon-mesh bit selects the polygon mesh whatever the
      polyface-mesh bit says, and the polyface-mesh bit alone selects the
      polyface mesh. */
  lemma PolylineTypeOfBits()
    ensures PolylineTypeOf(0) == POLYLINE && PolylineTypeOf(1) == POLYLINE && PolylineTypeOf(8) == POLYLINE
    ensures PolylineTypeOf(16) == POLYGON3D && PolylineTypeOf(16 + 64) == POLYGON3D
    ensures PolylineTypeOf(64) == POLYFACE3D && PolylineTypeOf(64 + 1) == POLYFACE3D
  {
    assert Pow2(4) == 16 && Pow2(6) == 64 by {
      assert Pow2(1) == 2;
      assert Pow2(2) == 4;
      assert Pow2(3) == 8;
      assert Pow2(5) == 32;
    }
  }

  /** Whether the entity implements DxfEntityContainer: polylines and both
      meshes, which extend DxfPolyline, and block references. */
  predicate IsContainer(k: Kind)
  {
    k.PolylineKind? || k.PolygonMeshKind? || k.PolyFaceMeshKind? || k.InsertKind?
  }

  /** addEntity on the entity a VERTEX record names as its owner (or on the
      last entity added, for files without owner handles), after the cast
      to DxfEntityContainer: a polyline or polygon mesh casts the child to
      DxfVertex and files it; a polyface mesh keeps face records for itself
      and passes anything else on to its polyline part; a block reference
      ignores it; every other entity fails the cast. */
  function Attach(target: Kind, child: Kind): (r: Outcome<Kind>)
    ensures !IsContainer(target) ==> r == Fail(ClassCast)
    ensures target.InsertKind? ==> r == Ok(target)
    ensures r.Ok? ==> IsContainer(r.value) && (r.value.PolylineKind? <==> target.PolylineKind?)
                      && (r.value.PolygonMeshKind? <==> target.PolygonMeshKind?)
                      && (r.value.PolyFaceMeshKind? <==> target.PolyFaceMeshKind?)
  {
    match target
    case PolylineKind(pl) =>
      if child.VertexKind? then Ok(PolylineKind(PE.AddVertex(pl, child.vertex))) else Fail(ClassCast)
    case PolygonMeshKind(d) =>
      if child.VertexKind? then Ok(PolygonMeshKind(d.(polyline := PE.AddVertex(d.polyline, child.vertex))))
      else Fail(ClassCast)
    case PolyFaceMeshKind(m) =>
      if child.FaceDefKind? then
        var m' :- Meshes.AddFace(m, child.indices);
        Ok(PolyFaceMeshKind(m'))
      else if child.VertexKind? then Ok(PolyFaceMeshKind(m.(polyline := PE.AddVertex(m.polyline, child.vertex))))
      else Fail(ClassCast)
    case InsertKind(_) => Ok(target)
    case _ => Fail(ClassCast)
  }

  /** A vertex reaches exactly one list of its polyline, whichever polyline
      form owns it, and the polyline stays consistent; a polyface mesh's
      face list does not change. */
  lemma AttachVertex(target: Kind, v: Vertices.VertexData)
    requires target.PolylineKind? || target.PolygonMeshKind? || target.PolyFaceMeshKind?
    requires var pl := PolylinePart(target); PE.Consistent(pl)
    ensures var r := Attach(target, VertexKind(v));
            && r.Ok?
            && PolylinePart(r.value) == PE.AddVertex(PolylinePart(target), v)
            && PE.Consistent(PolylinePart(r.value))
            && (target.PolyFaceMeshKind? ==> r.value.polyFaceMesh == target.polyFaceMesh.(polyline := PolylinePart(r.value)))
            && (target.PolygonMeshKind? ==> r.value.polygonMesh == target.polygonMesh.(polyline := PolylinePart(r.value)))
  {
    PE.AddVertexKeepsConsistent(PolylinePart(target), v);
  }

  /** The polyline part of a polyline or of either mesh. */
  function PolylinePart(k: Kind): PE.PolylineData
    requires k.PolylineKind? || k.PolygonMeshKind? || k.PolyFaceMeshKind?
  {
    match k
    case PolylineKind(pl) => pl
    case PolygonMeshKind(d) => d.polyline
    case PolyFaceMeshKind(m) => m.polyline
  }

  /** A face record is kept only by a polyface mesh, where it goes to the
      end of the face list (created with the declared face count as its
      capacity); a plain polyline or a polygon mesh fails the cast to
      DxfVertex. */
  lemma AttachFaceRecord(target: Kind, indices: seq<int>)
    ensures var r := Attach(target, FaceDefKind(indices));
            && (target.PolylineKind? || target.PolygonMeshKind? ==> r == Fail(ClassCast))
            && (target.PolyFaceMeshKind? ==>
                  (r.Fail? <==> target.polyFaceMesh.faces.None? && target.polyFaceMesh.numberOfFaces < 0)
                  && (r.Ok? ==> PE.Listed(r.value.polyFaceMesh.faces) == PE.Listed(target.polyFaceMesh.faces) + [indices]
                                && r.value.polyFaceMesh.polyline == target.polyFaceMesh.polyline))
  {
  }
}
