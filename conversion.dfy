// Drawing the document: a block converts its entities in order, each entity
// resolves its colour and line type against its layer and its parent
// block, draws its shapes, and a block reference or a dimension sets the
// current colour (and line type) of the block it names and draws that block
// in turn. The blocks' current colours and line types (their pens) are the
// only document state the conversion changes.
module Conversion {
  import opened Results
  import opened Numerics
  import opened Geometry
  import opened Layers
  import opened LineTypes
  import opened Entities
  import opened Shapes
  import opened Kinds
  import opened Documents
  import Lines
  import Arcs
  import Faces
  import LwPolylines
  import Meshes
  import Inserts
  import PE = PolylineEntities

  /** The parts of the document a conversion reads and never changes: the
      block table, the blocks, the entities, the layer and line-type tables
      and the global line-type scale. */
  datatype Scene = Scene(blocks: map<string, nat>, blockStore: seq<Block>, entities: seq<Entity>,
                         layers: map<string, Layer>, lineTypes: map<string, LineType>, lineTypeScale: real)

  /** Every slot the scene refers to is in its stores. */
  predicate SceneValid(sc: Scene)
  {
    && (forall k :: k in sc.blocks ==> sc.blocks[k] < |sc.blockStore|)
    && (forall b :: 0 <= b < |sc.blockStore| ==> SlotsBelow(sc.blockStore[b].entities, |sc.entities|))
    && (forall id :: 0 <= id < |sc.entities| ==> ParentBelow(sc.entities[id], |sc.blockStore|))
  }

  /** The scene of a document. */
  function SceneOf(doc: Document): Scene
    reads doc`blocks, doc`blockStore, doc`entities, doc`layers, doc`lineTypes, doc`lineTypeScale
  {
    Scene(doc.blocks, doc.blockStore, doc.entities, doc.layers, doc.lineTypes, doc.lineTypeScale)
  }

  /** A valid document has a valid scene, with one pen per block. */
  lemma SceneOfValid(doc: Document)
    requires doc.Valid()
    ensures SceneValid(SceneOf(doc)) && |doc.pens| == |SceneOf(doc).blockStore|
  {
  }

  // ---------------------------------------------------------------------
  // Resolving an entity's colour and line type

  /** The current colour of the entity's parent block; none when the
      entity has no parent. */
  function ParentColor(pens: seq<Pen>, e: Entity): Option<int>
    requires ParentBelow(e, |pens|)
  {
    if e.parent.Some? then Some(pens[e.parent.value].color) else None
  }

  /** getRealColorIndex and getColor for an entity under the override of
      the block being drawn. */
  function ResolveColor(pens: seq<Pen>, e: Entity, overriding: Option<int>, layer: Layer): Outcome<int>
    requires ParentBelow(e, |pens|)
  {
    RealColorIndex(overriding, e.common.colorIndex, ParentColor(pens, e), layer.color)
  }

  /** getLineType: the line type the layer names, the parent block's
      current one (a null parent is dereferenced), or the one the entity
      names; the tables fall back to CONTINUOUS. */
  function ResolveLineType(sc: Scene, pens: seq<Pen>, e: Entity, layer: Layer): (r: Outcome<Option<LineType>>)
    requires ParentBelow(e, |pens|)
    ensures r.Fail? <==> LineTypeSourceOf(e.common.lineType) == FromBlock && e.parent.None?
    ensures r.Ok? && LineTypeSourceOf(e.common.lineType) != FromBlock ==> r.value.Some?
  {
    match LineTypeSourceOf(e.common.lineType)
    case FromLayer => Ok(Some(LineTypeNamed(sc.lineTypes, layer.lineType)))
    case FromBlock => if e.parent.None? then Fail(NullReference) else Ok(pens[e.parent.value].lineType)
    case Named(n) => Ok(Some(LineTypeNamed(sc.lineTypes, n)))
  }

  /** The entities whose conversion adds shapes itself. */
  predicate IsLeaf(k: Kind)
  {
    k.LineKind? || k.RayKind? || k.XLineKind? || k.ArcKind? || k.CircleKind? || k.EllipseKind? || k.Face3DKind?
    || k.LwPolylineKind? || k.PolylineKind? || k.PolyFaceMeshKind? || k.PolygonMeshKind?
  }

  /** The entities that ask for their line type; faces and meshes only ask
      for their colour. */
  predicate NeedsLineType(k: Kind)
  {
    k.LineKind? || k.RayKind? || k.XLineKind? || k.ArcKind? || k.CircleKind? || k.EllipseKind?
    || k.LwPolylineKind? || k.PolylineKind?
  }

  /** The style an entity draws with: the resolved colour, the resolved
      line type when it asks for one, and the global line-type scale times
      its own. */
  function StyleFor(sc: Scene, pens: seq<Pen>, e: Entity, overriding: Option<int>, layer: Layer,
                    transform: Affine, strokeScale: real): (r: Outcome<Style>)
    requires ParentBelow(e, |pens|)
    ensures r.Ok? ==> && Ok(r.value.color) == ResolveColor(pens, e, overriding, layer)
                      && r.value.transform == transform && r.value.strokeScale == strokeScale
                      && r.value.lineTypeScale == sc.lineTypeScale * e.common.lineTypeScale
    ensures r.Fail? ==> r.failure == NullReference
  {
    var color :- ResolveColor(pens, e, overriding, layer);
    var lineType :- if NeedsLineType(e.kind) then ResolveLineType(sc, pens, e, layer) else Ok(None);
    Ok(Style(transform, strokeScale, color, lineType, sc.lineTypeScale * e.common.lineTypeScale))
  }

  /** The result some leaves return before they resolve their style: a
      degenerate polyline is not drawn and a polyface mesh without faces
      reports success with nothing drawn. */
  function EarlyResult(k: Kind): Option<bool>
  {
    match k
    case LwPolylineKind(d) => if LwPolylines.IsDegenerate(d) then Some(false) else None
    case PolylineKind(pl) => if PE.IsDegenerate(pl) then Some(false) else None
    case PolyFaceMeshKind(m) => if PE.Listed(m.faces) == [] then Some(true) else None
    case _ => None
  }

  // ---------------------------------------------------------------------
  // What one conversion does

  /** What a leaf's conversion does once its layer is on and its style is
      resolved: its result and the shapes it adds. A mesh that throws
      leaves the shapes it added before the failing face or grid line. */
  datatype Effect = Effect(result: Outcome<bool>, added: seq<Emitted>)

  function LeafEffect(trig: Trig, k: Kind, st: Style): (r: Effect)
    requires IsLeaf(k)
    ensures (k.LineKind? || k.RayKind? || k.XLineKind? || k.ArcKind? || k.CircleKind? || k.EllipseKind?
             || k.Face3DKind?) ==> r.result == Ok(true) && |r.added| == 1
    ensures r.result.Fail? && (k.LwPolylineKind? || k.PolylineKind?) ==> r.added == []
  {
    match k
    case LineKind(d) => Effect(Ok(true), [Stroked(st, Lines.LineFigure(d))])
    case RayKind(d) => Effect(Ok(true), [Stroked(st, Lines.RayFigure(d))])
    case XLineKind(d) => Effect(Ok(true), [Stroked(st, Lines.XLineFigure(d))])
    case ArcKind(d) => Effect(Ok(true), [Stroked(st, Arcs.ArcFigure(d))])
    case CircleKind(d) => Effect(Ok(true), [Stroked(st, Arcs.CircleFigure(d))])
    case EllipseKind(d) =>
      Arcs.EllipseShapesSingle(trig, d, st);
      Effect(Ok(true), Arcs.EllipseShapes(trig, d, st))
    case Face3DKind(d) => Effect(Ok(true), [Faces.Face3DShape(d, st)])
    case LwPolylineKind(d) => FromDrawing(LwPolylines.LwPolylineDrawing(trig, d, st), [])
    case PolylineKind(pl) => FromDrawing(PE.PolylineDrawing(trig, pl, st), [])
    case PolyFaceMeshKind(m) =>
      FromDrawing(Meshes.FaceMeshDrawing(m, st),
                  Completed(Meshes.FaceSteps(m.polyline.vertices, PE.Listed(m.faces), st)))
    case PolygonMeshKind(d) => FromDrawing(Meshes.PolygonMeshDrawing(d, st), Completed(Meshes.GridSteps(d, st)))
  }

  /** The effect of a converter that returns a drawing, or throws after
      adding the given shapes. */
  function FromDrawing(dr: Outcome<Drawing>, partial: seq<Emitted>): (r: Effect)
    ensures dr.Ok? ==> r == Effect(Ok(dr.value.drawn), dr.value.added)
    ensures dr.Fail? ==> r == Effect(Fail(dr.failure), partial)
  {
    match dr
    case Ok(d) => Effect(Ok(d.drawn), d.added)
    case Fail(f) => Effect(Fail(f), partial)
  }

  /** What a conversion does to the document and the container: its result
      (or the exception that ends the drawing), the blocks' pens after it,
      and the shapes it adds. */
  datatype Run = Run(result: Outcome<bool>, pens: seq<Pen>, added: seq<Emitted>)

  /** The boolean of a block's loop after one more child: still true only if
      the child returned true; an exception wins. */
  function Then(drawn: bool, rest: Outcome<bool>): (r: Outcome<bool>)
    ensures r.Fail? <==> rest.Fail?
    ensures r.Ok? ==> (r.value <==> drawn && rest.value)
  {
    if rest.Ok? then Ok(drawn && rest.value) else rest
  }

  /** The parameters a drawing runs with. The recursion depth left (fuel)
      stands for the Java stack: a block that draws itself again through a
      block reference overflows it. */
  datatype Frame = Frame(transform: Affine, strokeScale: real)

  /** DxfEntity.convertToFxShapes of the entity in the given slot, drawn in
      a block whose property override is the given one. Points, vertices,
      face records and solids draw nothing and return false; an entity with
      no layer name throws; one on a switched-off layer returns false. */
  function EntityRun(trig: Trig, sc: Scene, pens: seq<Pen>, id: nat, overriding: Option<int>, f: Frame, fuel: nat)
    : (r: Run)
    requires SceneValid(sc) && |pens| == |sc.blockStore| && id < |sc.entities|
    ensures |r.pens| == |pens|
    ensures var k := sc.entities[id].kind;
            !(k.InsertKind? || k.DimensionKind?) ==> r.pens == pens
    ensures var e := sc.entities[id];
            && (e.kind.PointKind? || e.kind.VertexKind? || e.kind.FaceDefKind? || e.kind.SolidKind? ==>
                  r == Run(Ok(false), pens, []))
            && (e.common.layer.Some? && !LayerNamed(sc.layers, e.common.layer.value).on ==>
                  r == Run(Ok(false), pens, []))
    decreases fuel, 1, 0
  {
    var e := sc.entities[id];
    if e.kind.PointKind? || e.kind.VertexKind? || e.kind.FaceDefKind? || e.kind.SolidKind? then
      Run(Ok(false), pens, [])
    else if e.common.layer.None? then Run(Fail(NullReference), pens, [])
    else
      var layer := LayerNamed(sc.layers, e.common.layer.value);
      if !layer.on then Run(Ok(false), pens, [])
      else if e.kind.InsertKind? then PlanRun(trig, sc, InsertPlan(sc, pens, id, overriding, layer, f), fuel)
      else if e.kind.DimensionKind? then PlanRun(trig, sc, DimensionPlan(sc, pens, id, overriding, layer, f), fuel)
      else LeafRun(trig, sc, pens, e, overriding, layer, f)
  }

  /** A leaf's convertToFxShapes once its layer is on: the early result of
      a degenerate polyline or an empty polyface mesh, or the style's
      exception, or what the leaf draws in its style. */
  function LeafRun(trig: Trig, sc: Scene, pens: seq<Pen>, e: Entity, overriding: Option<int>, layer: Layer, f: Frame)
    : (r: Run)
    requires IsLeaf(e.kind) && ParentBelow(e, |pens|)
    ensures r.pens == pens
  {
    if EarlyResult(e.kind).Some? then Run(Ok(EarlyResult(e.kind).value), pens, [])
    else
      match StyleFor(sc, pens, e, overriding, layer, f.transform, f.strokeScale)
      case Fail(failure) => Run(Fail(failure), pens, [])
      case Ok(st) =>
        var eff := LeafEffect(trig, e.kind, st);
        Run(eff.result, pens, eff.added)
  }

  /** How a block reference or a dimension goes on once its layer is on:
      it stops with a run of its own, or it draws the given block with the
      given pens in the given frame. */
  datatype Plan = Stop(run: Run) | Draw(block: nat, pens: seq<Pen>, frame: Frame)

  /** The frame a block reference draws its block in: its block transform
      appended to the current one and its stroke scale multiplied in. */
  function InsertFrame(f: Frame, d: Inserts.InsertData): (r: Frame)
    requires d.strokeScale.Some?
    ensures r.transform == Append(f.transform, d.blockTransform)
    ensures r.strokeScale == d.strokeScale.value * f.strokeScale
  {
    Frame(Append(f.transform, d.blockTransform), d.strokeScale.value * f.strokeScale)
  }

  /** The checks and pen updates of DxfInsert.convertToFxShapes before it
      draws: a missing or blank block name, or one that names no block,
      returns false; otherwise the named block takes the reference's line
      type and then its colour, and is drawn with the reference's transform
      appended and its stroke scale multiplied in. */
  function InsertPlan(sc: Scene, pens: seq<Pen>, id: nat, overriding: Option<int>, layer: Layer, f: Frame)
    : (p: Plan)
    requires SceneValid(sc) && |pens| == |sc.blockStore| && id < |sc.entities|
    requires sc.entities[id].kind.InsertKind?
    ensures p.Stop? ==> |p.run.pens| == |pens| && p.run.added == [] && p.run.result != Ok(true)
    ensures p.Draw? ==> p.block < |sc.blockStore| && |p.pens| == |pens|
  {
    var e := sc.entities[id];
    var d := e.kind.insert;
    if !Inserts.NamesBlock(d.blockName) then Stop(Run(Ok(false), pens, []))
    else
      match Lookup(sc.blocks, d.blockName.value)
      case None => Stop(Run(Ok(false), pens, []))
      case Some(b) => FoundInsertPlan(sc, pens, id, b, overriding, layer, f)
  }

  /** The plan of a block reference once the block it names is found. */
  function FoundInsertPlan(sc: Scene, pens: seq<Pen>, id: nat, b: nat, overriding: Option<int>, layer: Layer,
                           f: Frame): (p: Plan)
    requires SceneValid(sc) && |pens| == |sc.blockStore| && id < |sc.entities| && b < |pens|
    requires sc.entities[id].kind.InsertKind?
    ensures p.Stop? ==> |p.run.pens| == |pens| && p.run.added == [] && p.run.result.Fail?
    ensures p.Draw? ==> p.block == b && |p.pens| == |pens|
  {
    var e := sc.entities[id];
    var d := e.kind.insert;
    match ResolveLineType(sc, pens, e, layer)
    case Fail(failure) => Stop(Run(Fail(failure), pens, []))
    case Ok(lineType) =>
      var withLineType := pens[b := pens[b].(lineType := lineType)];
      match ResolveColor(withLineType, e, overriding, layer)
      case Fail(failure) => Stop(Run(Fail(failure), withLineType, []))
      case Ok(color) =>
        var withPen := withLineType[b := withLineType[b].(color := color)];
        if d.strokeScale.None? then Stop(Run(Fail(NonFiniteStrokeScale), withPen, []))
        else Draw(b, withPen, InsertFrame(f, d))
  }

  /** The checks and pen update of DxfDimension.convertToFxShapes before it
      draws: a missing name or block is dereferenced and throws; otherwise
      the named block takes the dimension's colour and is drawn with the
      same transform and stroke scale. */
  function DimensionPlan(sc: Scene, pens: seq<Pen>, id: nat, overriding: Option<int>, layer: Layer, f: Frame)
    : (p: Plan)
    requires SceneValid(sc) && |pens| == |sc.blockStore| && id < |sc.entities|
    requires sc.entities[id].kind.DimensionKind?
    ensures p.Stop? ==> |p.run.pens| == |pens| && p.run.added == [] && p.run.result.Fail?
    ensures p.Draw? ==> p.block < |sc.blockStore| && |p.pens| == |pens| && p.frame == f
  {
    var e := sc.entities[id];
    var d := e.kind.dimension;
    if d.block.None? then Stop(Run(Fail(NullReference), pens, []))
    else
      match Lookup(sc.blocks, d.block.value)
      case None => Stop(Run(Fail(NullReference), pens, []))
      case Some(b) =>
        match ResolveColor(pens, e, overriding, layer)
        case Fail(failure) => Stop(Run(Fail(failure), pens, []))
        case Ok(color) => Draw(b, pens[b := pens[b].(color := color)], f)
  }

  /** A block reference or a dimension after its checks: the block it names
      is drawn, one level deeper, and the reference returns true whatever
      the block returned, unless the block threw. */
  function PlanRun(trig: Trig, sc: Scene, p: Plan, fuel: nat): (r: Run)
    requires SceneValid(sc) && (p.Draw? ==> p.block < |sc.blockStore| && |p.pens| == |sc.blockStore|)
    ensures p.Stop? ==> r == p.run
    ensures p.Draw? ==> |r.pens| == |p.pens| && (r.result.Ok? ==> r.result.value && fuel > 0)
    decreases fuel, 0, 0
  {
    match p
    case Stop(run) => run
    case Draw(b, pens, frame) =>
      if fuel == 0 then Run(Fail(StackOverflow), pens, [])
      else
        var inner := BlockRun(trig, sc, pens, b, frame, fuel - 1);
        Run(if inner.result.Fail? then inner.result else Ok(true), inner.pens, inner.added)
  }

  /** DxfBlock.convertToFxShapes: the block's entities in order, each under
      the block's property override; an empty block returns true, and so
      does any block none of whose entities returned false. */
  function BlockRun(trig: Trig, sc: Scene, pens: seq<Pen>, b: nat, f: Frame, fuel: nat): (r: Run)
    requires SceneValid(sc) && |pens| == |sc.blockStore| && b < |sc.blockStore|
    ensures |r.pens| == |pens|
    ensures sc.blockStore[b].entities == [] ==> r == Run(Ok(true), pens, [])
    decreases fuel, 3, 0
  {
    ChildrenRun(trig, sc, pens, sc.blockStore[b].entities, sc.blockStore[b].overriding, f, fuel)
  }

  /** The loop of DxfBlock.convertToFxShapes over the given entities: each
      child draws with the pens the previous ones left; an exception ends
      the loop; the result is true iff no child returned false. Its ensures
      only keeps the pen count; what it computes is stated by
      ChildrenRunStep (one child at a time), ChildrenRunAppend (the run
      splits over concatenated child lists) and InsertHandsPenToChildren,
      and ConvertBlock's loop is proved equal to it. */
  function ChildrenRun(trig: Trig, sc: Scene, pens: seq<Pen>, ids: seq<nat>, overriding: Option<int>, f: Frame,
                       fuel: nat): (r: Run)
    requires SceneValid(sc) && |pens| == |sc.blockStore| && SlotsBelow(ids, |sc.entities|)
    ensures |r.pens| == |pens|
    decreases fuel, 2, |ids|
  {
    if ids == [] then Run(Ok(true), pens, [])
    else
      var first := EntityRun(trig, sc, pens, ids[0], overriding, f, fuel);
      if first.result.Fail? then first
      else
        var rest := ChildrenRun(trig, sc, first.pens, ids[1..], overriding, f, fuel);
        Run(Then(first.result.value, rest.result), rest.pens, first.added + rest.added)
  }

  /** A block's loop part-way through: the children already drawn added the
      given shapes and the given number of them returned false; the rest of
      the loop is the given run. */
  function Pending(failures: nat, added: seq<Emitted>, rest: Run): (r: Run)
    ensures r.pens == rest.pens && r.added == added + rest.added
    ensures r.result.Fail? <==> rest.result.Fail?
    ensures r.result.Ok? ==> (r.result.value <==> failures == 0 && rest.result.value)
  {
    Run(Then(failures == 0, rest.result), rest.pens, added + rest.added)
  }

  /** One turn of a block's loop: the first remaining child either throws,
      which ends the loop, or is counted and the loop goes on from the pens
      it left. */
  lemma ChildrenRunStep(trig: Trig, sc: Scene, pens: seq<Pen>, ids: seq<nat>, overriding: Option<int>, f: Frame,
                        fuel: nat, failures: nat, added: seq<Emitted>)
    requires SceneValid(sc) && |pens| == |sc.blockStore| && SlotsBelow(ids, |sc.entities|) && ids != []
    ensures var first := EntityRun(trig, sc, pens, ids[0], overriding, f, fuel);
            var whole := Pending(failures, added, ChildrenRun(trig, sc, pens, ids, overriding, f, fuel));
            && (first.result.Fail? ==> whole == Run(first.result, first.pens, added + first.added))
            && (first.result.Ok? ==>
                  whole == Pending(if first.result.value then failures else failures + 1, added + first.added,
                                   ChildrenRun(trig, sc, first.pens, ids[1..], overriding, f, fuel)))
  {
    var first := EntityRun(trig, sc, pens, ids[0], overriding, f, fuel);
    if first.result.Ok? {
      var rest := ChildrenRun(trig, sc, first.pens, ids[1..], overriding, f, fuel);
      AppendAssoc(added, first.added, rest.added);
    }
  }

  // ---------------------------------------------------------------------
  // What the drawing promises

  /** A block reference hands its resolved colour and line type to the
      block it draws: a child of that block whose colour is ByBlock draws
      in the reference's colour, one whose line type is ByBlock draws with
      the reference's line type, and no other block's pen changes. */
  lemma InsertHandsPenToChildren(sc: Scene, pens: seq<Pen>, id: nat, overriding: Option<int>, layer: Layer, f: Frame,
                                 x: Entity, xLayer: Layer)
    requires SceneValid(sc) && |pens| == |sc.blockStore| && id < |sc.entities|
    requires sc.entities[id].kind.InsertKind?
    requires InsertPlan(sc, pens, id, overriding, layer, f).Draw?
    requires x.parent == Some(InsertPlan(sc, pens, id, overriding, layer, f).block)
    ensures var p := InsertPlan(sc, pens, id, overriding, layer, f);
            var e := sc.entities[id];
            && (x.common.colorIndex == ColorByBlock ==>
                  ResolveColor(p.pens, x, None, xLayer) == ResolveColor(pens, e, overriding, layer))
            && (LineTypeSourceOf(x.common.lineType) == FromBlock ==>
                  ResolveLineType(sc, p.pens, x, xLayer) == ResolveLineType(sc, pens, e, layer))
            && (forall j :: 0 <= j < |pens| && j != p.block ==> p.pens[j] == pens[j])
  {
    var e := sc.entities[id];
    var b := Lookup(sc.blocks, e.kind.insert.blockName.value).value;
    var lineType := ResolveLineType(sc, pens, e, layer).value;
    var withLineType := pens[b := pens[b].(lineType := lineType)];
    assert ParentColor(withLineType, e) == ParentColor(pens, e);
  }

  /** A dimension hands its resolved colour to the block it draws; in an
      arrow-head block, whose override is ByBlock, every child draws in the
      dimension's colour whatever its own colour; no other block's pen
      changes. */
  lemma DimensionColoursArrowHeads(sc: Scene, pens: seq<Pen>, id: nat, overriding: Option<int>, layer: Layer, f: Frame,
                                   x: Entity, xLayer: Layer)
    requires SceneValid(sc) && |pens| == |sc.blockStore| && id < |sc.entities|
    requires sc.entities[id].kind.DimensionKind?
    requires DimensionPlan(sc, pens, id, overriding, layer, f).Draw?
    requires x.parent == Some(DimensionPlan(sc, pens, id, overriding, layer, f).block)
    ensures var p := DimensionPlan(sc, pens, id, overriding, layer, f);
            && ResolveColor(p.pens, x, Some(ArrowOverride), xLayer) == ResolveColor(pens, sc.entities[id], overriding, layer)
            && (forall j :: 0 <= j < |pens| && j != p.block ==> p.pens[j] == pens[j])
  {
  }

  /** A block's loop over two lists of entities is the loop over the first
      followed by the loop over the second from the pens the first left,
      unless the first throws. */
  lemma {:induction false} ChildrenRunAppend(trig: Trig, sc: Scene, pens: seq<Pen>, xs: seq<nat>, ys: seq<nat>,
                                             overriding: Option<int>, f: Frame, fuel: nat)
    requires SceneValid(sc) && |pens| == |sc.blockStore|
    requires SlotsBelow(xs, |sc.entities|) && SlotsBelow(ys, |sc.entities|)
    ensures SlotsBelow(xs + ys, |sc.entities|)
    ensures var first := ChildrenRun(trig, sc, pens, xs, overriding, f, fuel);
            var both := ChildrenRun(trig, sc, pens, xs + ys, overriding, f, fuel);
            && (first.result.Fail? ==> both == first)
            && (first.result.Ok? ==>
                  var rest := ChildrenRun(trig, sc, first.pens, ys, overriding, f, fuel);
                  both == Run(Then(first.result.value, rest.result), rest.pens, first.added + rest.added))
    decreases |xs|
  {
    assert SlotsBelow(xs + ys, |sc.entities|) by {
      forall i | 0 <= i < |xs + ys| ensures (xs + ys)[i] < |sc.entities| {
        if i >= |xs| { assert (xs + ys)[i] == ys[i - |xs|]; }
      }
    }
    if xs == [] {
      assert xs + ys == ys;
    } else {
      var one := EntityRun(trig, sc, pens, xs[0], overriding, f, fuel);
      assert (xs + ys)[0] == xs[0] && (xs + ys)[1..] == xs[1..] + ys;
      if one.result.Ok? {
        ChildrenRunAppend(trig, sc, one.pens, xs[1..], ys, overriding, f, fuel);
        var mid := ChildrenRun(trig, sc, one.pens, xs[1..], overriding, f, fuel);
        if mid.result.Ok? {
          var rest := ChildrenRun(trig, sc, mid.pens, ys, overriding, f, fuel);
          AppendAssoc(one.added, mid.added, rest.added);
        }
      }
    }
  }

  /** A block whose first entity is a visible reference to the block
      itself never finishes drawing: the Java stack overflows, whatever the
      recursion depth allowed. */
  lemma {:induction false} SelfReferenceOverflows(trig: Trig, sc: Scene, pens: seq<Pen>, b: nat, f: Frame, fuel: nat)
    requires SceneValid(sc) && |pens| == |sc.blockStore| && b < |sc.blockStore|
    requires sc.blockStore[b].entities != []
    requires var e := sc.entities[sc.blockStore[b].entities[0]];
             && e.kind.InsertKind? && e.parent == Some(b)
             && e.common.layer.Some? && LayerNamed(sc.layers, e.common.layer.value).on
             && Inserts.NamesBlock(e.kind.insert.blockName) && Lookup(sc.blocks, e.kind.insert.blockName.value) == Some(b)
             && e.kind.insert.strokeScale.Some?
    ensures BlockRun(trig, sc, pens, b, f, fuel).result == Fail(StackOverflow)
    decreases fuel
  {
    var inner, frame := SelfReferenceHead(trig, sc, pens, b, f, fuel);
    if fuel > 0 {
      SelfReferenceOverflows(trig, sc, inner, b, frame, fuel - 1);
    }
  }

  /** Such a block draws itself again, one level deeper, with the pens
      and in the frame its first entity sets up. */
  lemma SelfReferenceHead(trig: Trig, sc: Scene, pens: seq<Pen>, b: nat, f: Frame, fuel: nat)
    returns (inner: seq<Pen>, frame: Frame)
    requires SceneValid(sc) && |pens| == |sc.blockStore| && b < |sc.blockStore|
    requires sc.blockStore[b].entities != []
    requires var e := sc.entities[sc.blockStore[b].entities[0]];
             && e.kind.InsertKind? && e.parent == Some(b)
             && e.common.layer.Some? && LayerNamed(sc.layers, e.common.layer.value).on
             && Inserts.NamesBlock(e.kind.insert.blockName) && Lookup(sc.blocks, e.kind.insert.blockName.value) == Some(b)
             && e.kind.insert.strokeScale.Some?
    ensures |inner| == |pens|
    ensures fuel == 0 ==> BlockRun(trig, sc, pens, b, f, fuel).result == Fail(StackOverflow)
    ensures fuel > 0 && BlockRun(trig, sc, inner, b, frame, fuel - 1).result == Fail(StackOverflow) ==>
              BlockRun(trig, sc, pens, b, f, fuel).result == Fail(StackOverflow)
  {
    var id := sc.blockStore[b].entities[0];
    var e := sc.entities[id];
    var layer := LayerNamed(sc.layers, e.common.layer.value);
    var overriding := sc.blockStore[b].overriding;
    var p := InsertPlan(sc, pens, id, overriding, layer, f);
    SelfReferencePlan(sc, pens, b, f);
    inner, frame := p.pens, p.frame;
    if fuel == 0 || BlockRun(trig, sc, inner, b, frame, fuel - 1).result == Fail(StackOverflow) {
      PlanOverflows(trig, sc, p, fuel);
      EntityRunOfReference(trig, sc, pens, id, overriding, f, fuel);
      BlockRunHeadFails(trig, sc, pens, b, f, fuel);
    }
  }

  /** A visible block reference runs its plan. */
  lemma EntityRunOfReference(trig: Trig, sc: Scene, pens: seq<Pen>, id: nat, overriding: Option<int>, f: Frame,
                             fuel: nat)
    requires SceneValid(sc) && |pens| == |sc.blockStore| && id < |sc.entities|
    requires var e := sc.entities[id];
             e.kind.InsertKind? && e.common.layer.Some? && LayerNamed(sc.layers, e.common.layer.value).on
    ensures var layer := LayerNamed(sc.layers, sc.entities[id].common.layer.value);
            EntityRun(trig, sc, pens, id, overriding, f, fuel)
            == PlanRun(trig, sc, InsertPlan(sc, pens, id, overriding, layer, f), fuel)
  {
  }

  /** A block whose first entity throws throws the same exception. */
  lemma BlockRunHeadFails(trig: Trig, sc: Scene, pens: seq<Pen>, b: nat, f: Frame, fuel: nat)
    requires SceneValid(sc) && |pens| == |sc.blockStore| && b < |sc.blockStore|
    requires sc.blockStore[b].entities != []
    requires EntityRun(trig, sc, pens, sc.blockStore[b].entities[0], sc.blockStore[b].overriding, f, fuel).result.Fail?
    ensures BlockRun(trig, sc, pens, b, f, fuel).result
            == EntityRun(trig, sc, pens, sc.blockStore[b].entities[0], sc.blockStore[b].overriding, f, fuel).result
  {
  }

  /** A reference or dimension overflows the stack when the block it draws
      does, or when no depth is left. */
  lemma PlanOverflows(trig: Trig, sc: Scene, p: Plan, fuel: nat)
    requires SceneValid(sc) && p.Draw? && p.block < |sc.blockStore| && |p.pens| == |sc.blockStore|
    requires fuel > 0 ==> BlockRun(trig, sc, p.pens, p.block, p.frame, fuel - 1).result == Fail(StackOverflow)
    ensures PlanRun(trig, sc, p, fuel).result == Fail(StackOverflow)
  {
  }

  /** The reference at the head of such a block plans to draw the block
      itself. */
  lemma SelfReferencePlan(sc: Scene, pens: seq<Pen>, b: nat, f: Frame)
    requires SceneValid(sc) && |pens| == |sc.blockStore| && b < |sc.blockStore|
    requires sc.blockStore[b].entities != []
    requires var e := sc.entities[sc.blockStore[b].entities[0]];
             && e.kind.InsertKind? && e.parent == Some(b) && e.common.layer.Some?
             && Inserts.NamesBlock(e.kind.insert.blockName) && Lookup(sc.blocks, e.kind.insert.blockName.value) == Some(b)
             && e.kind.insert.strokeScale.Some?
    ensures var id := sc.blockStore[b].entities[0];
            var e := sc.entities[id];
            var p := InsertPlan(sc, pens, id, sc.blockStore[b].overriding, LayerNamed(sc.layers, e.common.layer.value), f);
            p.Draw? && p.block == b
  {
    var id := sc.blockStore[b].entities[0];
    var e := sc.entities[id];
    var layer := LayerNamed(sc.layers, e.common.layer.value);
    var lineType := ResolveLineType(sc, pens, e, layer);
    assert lineType.Ok?;
    var withLineType := pens[b := pens[b].(lineType := lineType.value)];
    assert ParentColor(withLineType, e) == Some(withLineType[b].color);
    assert ResolveColor(withLineType, e, sc.blockStore[b].overriding, layer).Ok?;
    assert FoundInsertPlan(sc, pens, id, b, sc.blockStore[b].overriding, layer, f).Draw?;
  }

  /** The recursion depth only stands for the Java stack: a drawing that
      does not overflow it gives the same result, pens and shapes with more
      depth. */
  lemma {:induction false} EntityRunMoreFuel(trig: Trig, sc: Scene, pens: seq<Pen>, id: nat, overriding: Option<int>,
                                             f: Frame, fuel: nat)
    requires SceneValid(sc) && |pens| == |sc.blockStore| && id < |sc.entities|
    requires EntityRun(trig, sc, pens, id, overriding, f, fuel).result != Fail(StackOverflow)
    ensures EntityRun(trig, sc, pens, id, overriding, f, fuel + 1) == EntityRun(trig, sc, pens, id, overriding, f, fuel)
    decreases fuel, 1, 0
  {
    var e := sc.entities[id];
    if !(e.kind.PointKind? || e.kind.VertexKind? || e.kind.FaceDefKind? || e.kind.SolidKind?) && e.common.layer.Some? {
      var layer := LayerNamed(sc.layers, e.common.layer.value);
      if layer.on && e.kind.InsertKind? {
        PlanRunMoreFuel(trig, sc, InsertPlan(sc, pens, id, overriding, layer, f), fuel);
      } else if layer.on && e.kind.DimensionKind? {
        PlanRunMoreFuel(trig, sc, DimensionPlan(sc, pens, id, overriding, layer, f), fuel);
      }
    }
  }

  lemma {:induction false} PlanRunMoreFuel(trig: Trig, sc: Scene, p: Plan, fuel: nat)
    requires SceneValid(sc) && (p.Draw? ==> p.block < |sc.blockStore| && |p.pens| == |sc.blockStore|)
    requires PlanRun(trig, sc, p, fuel).result != Fail(StackOverflow)
    ensures PlanRun(trig, sc, p, fuel + 1) == PlanRun(trig, sc, p, fuel)
    decreases fuel, 0, 0
  {
    if p.Draw? {
      BlockRunMoreFuel(trig, sc, p.pens, p.block, p.frame, fuel - 1);
    }
  }

  lemma {:induction false} BlockRunMoreFuel(trig: Trig, sc: Scene, pens: seq<Pen>, b: nat, f: Frame, fuel: nat)
    requires SceneValid(sc) && |pens| == |sc.blockStore| && b < |sc.blockStore|
    requires BlockRun(trig, sc, pens, b, f, fuel).result != Fail(StackOverflow)
    ensures BlockRun(trig, sc, pens, b, f, fuel + 1) == BlockRun(trig, sc, pens, b, f, fuel)
    decreases fuel, 3, 0
  {
    ChildrenRunMoreFuel(trig, sc, pens, sc.blockStore[b].entities, sc.blockStore[b].overriding, f, fuel);
  }

  lemma {:induction false} ChildrenRunMoreFuel(trig: Trig, sc: Scene, pens: seq<Pen>, ids: seq<nat>,
                                               overriding: Option<int>, f: Frame, fuel: nat)
    requires SceneValid(sc) && |pens| == |sc.blockStore| && SlotsBelow(ids, |sc.entities|)
    requires ChildrenRun(trig, sc, pens, ids, overriding, f, fuel).result != Fail(StackOverflow)
    ensures ChildrenRun(trig, sc, pens, ids, overriding, f, fuel + 1) == ChildrenRun(trig, sc, pens, ids, overriding, f, fuel)
    decreases fuel, 2, |ids|
  {
    if ids != [] {
      var first := EntityRun(trig, sc, pens, ids[0], overriding, f, fuel);
      EntityRunMoreFuel(trig, sc, pens, ids[0], overriding, f, fuel);
      if first.result.Ok? {
        ChildrenRunMoreFuel(trig, sc, first.pens, ids[1..], overriding, f, fuel);
      }
    }
  }

  // ---------------------------------------------------------------------
  // The conversion itself

  /** A leaf's convertToFxShapes once its layer is on and its style is
      resolved. */
  method ConvertLeaf(trig: Trig, container: ShapeContainer, k: Kind, st: Style) returns (r: Outcome<bool>)
    requires IsLeaf(k)
    modifies container
    ensures r == LeafEffect(trig, k, st).result
    ensures container.shapes == old(container.shapes) + LeafEffect(trig, k, st).added
  {
    match k
    case LineKind(d) =>
      var s := Stroked(st, Lines.LineFigure(d));
      container.AddShape(s.strokeScale, s.shape);
      r := Ok(true);
    case RayKind(d) =>
      var s := Stroked(st, Lines.RayFigure(d));
      container.AddShape(s.strokeScale, s.shape);
      r := Ok(true);
    case XLineKind(d) =>
      var s := Stroked(st, Lines.XLineFigure(d));
      container.AddShape(s.strokeScale, s.shape);
      r := Ok(true);
    case ArcKind(d) =>
      var s := Stroked(st, Arcs.ArcFigure(d));
      container.AddShape(s.strokeScale, s.shape);
      r := Ok(true);
    case CircleKind(d) =>
      var s := Stroked(st, Arcs.CircleFigure(d));
      container.AddShape(s.strokeScale, s.shape);
      r := Ok(true);
    case EllipseKind(d) =>
      Arcs.EllipseShapesSingle(trig, d, st);
      var s := Arcs.EllipseShapes(trig, d, st)[0];
      assert Arcs.EllipseShapes(trig, d, st) == [s];
      container.AddShape(s.strokeScale, s.shape);
      r := Ok(true);
    case Face3DKind(d) =>
      Faces.ConvertFace3D(container, d, st);
      r := Ok(true);
    case LwPolylineKind(d) =>
      r := LwPolylines.ConvertLwPolyline(trig, container, d, st);
    case PolylineKind(pl) =>
      r := PE.ConvertPolylineEntity(trig, container, pl, st);
    case PolyFaceMeshKind(m) =>
      r := Meshes.ConvertPolyFaceMesh(container, m, st);
    case PolygonMeshKind(d) =>
      r := Meshes.ConvertPolygonMesh(container, d, st);
  }

  /** DxfEntity.convertToFxShapes, for the entity in the given slot. */
  method ConvertEntity(trig: Trig, doc: Document, container: ShapeContainer, sc: Scene, id: nat,
                       overriding: Option<int>, f: Frame, fuel: nat) returns (r: Outcome<bool>)
    requires sc == SceneOf(doc) && SceneValid(sc) && |doc.pens| == |sc.blockStore| && id < |sc.entities|
    modifies doc`pens, container
    ensures var run := EntityRun(trig, sc, old(doc.pens), id, overriding, f, fuel);
            r == run.result && doc.pens == run.pens && container.shapes == old(container.shapes) + run.added
    decreases fuel, 2, 0
  {
    var e := sc.entities[id];
    if e.kind.PointKind? || e.kind.VertexKind? || e.kind.FaceDefKind? || e.kind.SolidKind? {
      return Ok(false);
    }
    if e.common.layer.None? {
      return Fail(NullReference);
    }
    var layer := LayerNamed(doc.layers, e.common.layer.value);
    if !IsLayerOn(layer) {
      return Ok(false);
    }
    if e.kind.InsertKind? {
      r := ConvertInsert(trig, doc, container, sc, id, overriding, layer, f, fuel);
      return;
    }
    if e.kind.DimensionKind? {
      r := ConvertDimension(trig, doc, container, sc, id, overriding, layer, f, fuel);
      return;
    }
    var early := EarlyResult(e.kind);
    if early.Some? {
      return Ok(early.value);
    }
    var st := StyleFor(sc, doc.pens, e, overriding, layer, f.transform, f.strokeScale);
    if st.Fail? {
      return Fail(st.failure);
    }
    r := ConvertLeaf(trig, container, e.kind, st.value);
  }

  /** DxfInsert.convertToFxShapes once the layer is on. */
  method ConvertInsert(trig: Trig, doc: Document, container: ShapeContainer, sc: Scene, id: nat,
                       overriding: Option<int>, layer: Layer, f: Frame, fuel: nat) returns (r: Outcome<bool>)
    requires sc == SceneOf(doc) && SceneValid(sc) && |doc.pens| == |sc.blockStore| && id < |sc.entities|
    requires sc.entities[id].kind.InsertKind?
    modifies doc`pens, container
    ensures var run := PlanRun(trig, sc, InsertPlan(sc, old(doc.pens), id, overriding, layer, f), fuel);
            r == run.result && doc.pens == run.pens && container.shapes == old(container.shapes) + run.added
    decreases fuel, 1, 1
  {
    var e := sc.entities[id];
    var d := e.kind.insert;
    if !Inserts.NamesBlock(d.blockName) {
      return Ok(false);
    }
    var block := Lookup(doc.blocks, d.blockName.value);
    if block.None? {
      return Ok(false);
    }
    r := ConvertFoundInsert(trig, doc, container, sc, id, block.value, overriding, layer, f, fuel);
  }

  /** DxfInsert.convertToFxShapes once the block it names is found: the
      block takes the reference's line type, then its colour, and is
      drawn. */
  method ConvertFoundInsert(trig: Trig, doc: Document, container: ShapeContainer, sc: Scene, id: nat, b: nat,
                            overriding: Option<int>, layer: Layer, f: Frame, fuel: nat) returns (r: Outcome<bool>)
    requires sc == SceneOf(doc) && SceneValid(sc) && |doc.pens| == |sc.blockStore| && id < |sc.entities|
    requires sc.entities[id].kind.InsertKind? && b < |sc.blockStore|
    modifies doc`pens, container
    ensures var run := PlanRun(trig, sc, FoundInsertPlan(sc, old(doc.pens), id, b, overriding, layer, f), fuel);
            r == run.result && doc.pens == run.pens && container.shapes == old(container.shapes) + run.added
    decreases fuel, 1, 0
  {
    var e := sc.entities[id];
    var d := e.kind.insert;
    var lineType := ResolveLineType(sc, doc.pens, e, layer);
    if lineType.Fail? {
      return Fail(lineType.failure);
    }
    doc.SetCurrentLineType(b, lineType.value);
    var color := ResolveColor(doc.pens, e, overriding, layer);
    if color.Fail? {
      return Fail(color.failure);
    }
    doc.SetCurrentColor(b, color.value);
    if d.strokeScale.None? {
      return Fail(NonFiniteStrokeScale);
    }
    var frame := InsertFrame(f, d);
    r := DrawPlanned(trig, doc, container, sc, b, frame, fuel);
  }

  /** DxfDimension.convertToFxShapes once the layer is on. */
  method ConvertDimension(trig: Trig, doc: Document, container: ShapeContainer, sc: Scene, id: nat,
                          overriding: Option<int>, layer: Layer, f: Frame, fuel: nat) returns (r: Outcome<bool>)
    requires sc == SceneOf(doc) && SceneValid(sc) && |doc.pens| == |sc.blockStore| && id < |sc.entities|
    requires sc.entities[id].kind.DimensionKind?
    modifies doc`pens, container
    ensures var run := PlanRun(trig, sc, DimensionPlan(sc, old(doc.pens), id, overriding, layer, f), fuel);
            r == run.result && doc.pens == run.pens && container.shapes == old(container.shapes) + run.added
    decreases fuel, 1, 0
  {
    var e := sc.entities[id];
    var d := e.kind.dimension;
    if d.block.None? {
      return Fail(NullReference);
    }
    var block := Lookup(doc.blocks, d.block.value);
    if block.None? {
      return Fail(NullReference);
    }
    var b := block.value;
    var color := ResolveColor(doc.pens, e, overriding, layer);
    if color.Fail? {
      return Fail(color.failure);
    }
    doc.SetCurrentColor(b, color.value);
    assert DimensionPlan(sc, old(doc.pens), id, overriding, layer, f) == Draw(b, doc.pens, f);
    r := DrawPlanned(trig, doc, container, sc, b, f, fuel);
  }

  /** The end of a block reference's or a dimension's conversion: the named
      block drawn one level deeper; true unless it threw. */
  method DrawPlanned(trig: Trig, doc: Document, container: ShapeContainer, sc: Scene, b: nat, frame: Frame,
                     fuel: nat) returns (r: Outcome<bool>)
    requires sc == SceneOf(doc) && SceneValid(sc) && |doc.pens| == |sc.blockStore| && b < |sc.blockStore|
    modifies doc`pens, container
    ensures var run := PlanRun(trig, sc, Draw(b, old(doc.pens), frame), fuel);
            r == run.result && doc.pens == run.pens && container.shapes == old(container.shapes) + run.added
    decreases fuel, 0, 0
  {
    if fuel == 0 {
      return Fail(StackOverflow);
    }
    var inner := ConvertBlock(trig, doc, container, sc, b, frame, fuel - 1);
    r := if inner.Fail? then inner else Ok(true);
  }

  /** DxfBlock.convertToFxShapes: each entity in turn under the block's
      override, counting the ones that return false. */
  method ConvertBlock(trig: Trig, doc: Document, container: ShapeContainer, sc: Scene, b: nat, f: Frame,
                      fuel: nat) returns (r: Outcome<bool>)
    requires sc == SceneOf(doc) && SceneValid(sc) && |doc.pens| == |sc.blockStore| && b < |sc.blockStore|
    modifies doc`pens, container
    ensures var run := BlockRun(trig, sc, old(doc.pens), b, f, fuel);
            r == run.result && doc.pens == run.pens && container.shapes == old(container.shapes) + run.added
    decreases fuel, 3, 0
  {
    var ids := sc.blockStore[b].entities;
    var overriding := sc.blockStore[b].overriding;
    if ids == [] {
      return Ok(true);
    }
    ghost var total := ChildrenRun(trig, sc, doc.pens, ids, overriding, f, fuel);
    ghost var added: seq<Emitted> := [];
    var failures := 0;
    var i := 0;
    assert ids[0..] == ids && [] + total.added == total.added;
    while i < |ids|
      invariant 0 <= i <= |ids|
      invariant sc == SceneOf(doc) && |doc.pens| == |sc.blockStore|
      invariant container.shapes == old(container.shapes) + added
      invariant total == Pending(failures, added, ChildrenRun(trig, sc, doc.pens, ids[i..], overriding, f, fuel))
    {
      ChildrenRunStep(trig, sc, doc.pens, ids[i..], overriding, f, fuel, failures, added);
      assert ids[i..][0] == ids[i] && ids[i..][1..] == ids[i + 1..];
      ghost var first := EntityRun(trig, sc, doc.pens, ids[i], overriding, f, fuel);
      var drawn := ConvertEntity(trig, doc, container, sc, ids[i], overriding, f, fuel);
      AppendAssoc(old(container.shapes), added, first.added);
      if drawn.Fail? {
        return drawn;
      }
      if !drawn.value {
        failures := failures + 1;
      }
      added := added + first.added;
      i := i + 1;
    }
    assert ids[i..] == [] && added + [] == added;
    r := Ok(failures == 0);
  }

  /** The conversion of a loaded document: the model-space block with the
      identity transform and stroke scale 1. */
  method ConvertModelSpace(trig: Trig, doc: Document, container: ShapeContainer, fuel: nat) returns (r: Outcome<bool>)
    requires doc.Valid()
    modifies doc`pens, container
    ensures doc.Valid()
    ensures var run := BlockRun(trig, SceneOf(doc), old(doc.pens), ModelSpace, Frame(Identity, 1.0), fuel);
            r == run.result && doc.pens == run.pens && container.shapes == old(container.shapes) + run.added
  {
    SceneOfValid(doc);
    r := ConvertBlock(trig, doc, container, SceneOf(doc), ModelSpace, Frame(Identity, 1.0), fuel);
  }
}
