// The document a DXF file is read into: its blocks (model space, paper
// space and the named blocks), the entities registered by handle, the
// LAYER and LTYPE tables, the dimension arrow blocks and the header
// settings. Blocks and entities are Java objects that refer to each other;
// here they live in two stores of the document and refer to each other by
// slot, so that a block's entity list and an entity's parent block are
// indices into those stores.
module Documents {
  import opened Results
  import opened Text
  import opened Numerics
  import opened Pairs
  import opened Geometry
  import opened Layers
  import opened LineTypes
  import opened DistanceUnits
  import opened Entities
  import opened Kinds
  import opened Status
  import PE = PolylineEntities

  /** The names of the two fixed blocks. */
  const ModelBlock: string := "*MODEL_SPACE"
  const PaperBlock: string := "*PAPER_SPACE"

  /** Their slots in the block store: they are created first. */
  const ModelSpace: nat := 0
  const PaperSpace: nat := 1

  /** A DxfBlock: name, origin, flags, its entities in the order added
      (slots of the entity store) and the colour its property override
      imposes on them, when one is set. */
  datatype Block = Block(name: string, origin: Point2D, flags: int, entities: seq<nat>, overriding: Option<int>)

  /** The current colour index and line type of a block, which a block
      reference or dimension sets before drawing it and which ByBlock
      properties of the block's entities resolve to. A block starts with
      colour 7 and no line type. */
  datatype Pen = Pen(color: int, lineType: Option<LineType>)

  const NewPen: Pen := Pen(7, None)

  /** initBlock: a block with no entities and no override. */
  function NewBlock(name: string, x: real, y: real, flags: int): (b: Block)
    ensures b.name == name && b.entities == [] && b.overriding.None?
  {
    Block(name, Point2D(x, y), flags, [], None)
  }

  /** The DxfBlock constructor that reads a BLOCK structure: the origin
      from codes 10 and 20 and the flags from code 70, all read by the
      library's lenient parsers with no default. */
  function DecodeBlock(ns: NumberSyntax, ps: seq<Pair>, name: string): (r: Outcome<Block>)
    ensures r.Ok? <==> LenientDouble(ns, GetValue(ps, 10)).Ok? && LenientDouble(ns, GetValue(ps, 20)).Ok?
                       && LenientInteger(ns, GetValue(ps, 70)).Ok?
    ensures r.Ok? ==> r.value == NewBlock(name, LenientDouble(ns, GetValue(ps, 10)).value,
                                          LenientDouble(ns, GetValue(ps, 20)).value,
                                          LenientInteger(ns, GetValue(ps, 70)).value)
  {
    var x :- LenientDouble(ns, GetValue(ps, 10));
    var y :- LenientDouble(ns, GetValue(ps, 20));
    var flags :- LenientInteger(ns, GetValue(ps, 70));
    Ok(NewBlock(name, x, y, flags))
  }

  // ---------------------------------------------------------------------
  // Tables keyed by upper-cased name

  /** A lookup by name in a table filed under upper-cased names. */
  function Lookup<V>(table: map<string, V>, name: string): (r: Option<V>)
    ensures r.Some? <==> Upper(name) in table
    ensures r.Some? ==> r.value == table[Upper(name)]
  {
    if Upper(name) in table then Some(table[Upper(name)]) else None
  }

  /** getLayer: the layer filed under the upper-cased name, or the default
      layer (on, colour 7, CONTINUOUS) when there is none. */
  function LayerNamed(layers: map<string, Layer>, name: string): (l: Layer)
    ensures Upper(name) in layers ==> l == layers[Upper(name)]
    ensures Upper(name) !in layers ==> l == DefaultLayer
  {
    match Lookup(layers, name)
    case None => DefaultLayer
    case Some(l) => l
  }

  /** getLineType: the line type filed under the upper-cased name, or the
      default CONTINUOUS line type when there is none. */
  function LineTypeNamed(lineTypes: map<string, LineType>, name: string): (lt: LineType)
    ensures Upper(name) in lineTypes ==> lt == lineTypes[Upper(name)]
    ensures Upper(name) !in lineTypes ==> lt == DefaultLineType
  {
    match Lookup(lineTypes, name)
    case None => DefaultLineType
    case Some(lt) => lt
  }

  /** After a name is filed, looking up any spelling of it finds the new
      entry and every other name finds what it found before. */
  lemma {:induction false} LookupAfterPut<V>(table: map<string, V>, name: string, v: V, query: string)
    ensures Lookup(table[Upper(name) := v], query)
            == if EqualsIgnoreCase(query, name) then Some(v) else Lookup(table, query)
  {
  }

  /** A lookup never tells two spellings of a name apart. */
  lemma LookupIgnoresCase<V>(table: map<string, V>, a: string, b: string)
    requires EqualsIgnoreCase(a, b)
    ensures Lookup(table, a) == Lookup(table, b)
    ensures Lookup(table, a) == Lookup(table, Upper(a))
  {
    UpperIsUpper(a);
  }

  // ---------------------------------------------------------------------
  // Dimension arrow blocks

  /** Whether the list already holds the name in some spelling. */
  predicate HasArrow(arrows: seq<string>, name: string)
  {
    exists i :: 0 <= i < |arrows| && EqualsIgnoreCase(arrows[i], name)
  }

  /** No name is listed twice, in any spelling. */
  predicate DistinctIgnoringCase(names: seq<string>)
  {
    forall i, j :: 0 <= i < j < |names| ==> !EqualsIgnoreCase(names[i], names[j])
  }

  /** addArrowBlock: the list (created on first use) with the name appended
      unless some spelling of it is already there. */
  function WithArrow(arrows: Option<seq<string>>, name: string): (r: seq<string>)
  {
    var list := PE.Listed(arrows);
    if HasArrow(list, name) then list else list + [name]
  }

  /** Adding an arrow block name keeps the list free of duplicates in any
      spelling, leaves the name listed, keeps every earlier entry in place
      and adds at most one entry. */
  lemma WithArrowKeepsDistinct(arrows: Option<seq<string>>, name: string)
    requires DistinctIgnoringCase(PE.Listed(arrows))
    ensures var r := WithArrow(arrows, name);
            && DistinctIgnoringCase(r)
            && HasArrow(r, name)
            && PE.Listed(arrows) <= r
            && |r| <= |PE.Listed(arrows)| + 1
  {
    var list := PE.Listed(arrows);
    var r := WithArrow(arrows, name);
    if !HasArrow(list, name) {
      forall i, j | 0 <= i < j < |r|
        ensures !EqualsIgnoreCase(r[i], r[j])
      {
        if j == |list| {
          assert r[j] == name;
          assert !EqualsIgnoreCase(list[i], name);
        }
      }
      assert r[|list|] == name;
      EqualsIgnoreCaseIsEquivalence(name, name, name);
    }
  }

  /** Adding the same name again, in any spelling, changes nothing. */
  lemma WithArrowIdempotent(arrows: Option<seq<string>>, name: string, again: string)
    requires EqualsIgnoreCase(name, again)
    ensures WithArrow(Some(WithArrow(arrows, name)), again) == WithArrow(arrows, name)
  {
    var list := PE.Listed(arrows);
    var r := WithArrow(arrows, name);
    if HasArrow(list, name) {
      var i :| 0 <= i < |list| && EqualsIgnoreCase(list[i], name);
      assert EqualsIgnoreCase(r[i], again);
    } else {
      assert r[|list|] == name;
      assert EqualsIgnoreCase(r[|list|], again);
    }
  }

  /** The colour index initialize imposes on arrow blocks: ByBlock. */
  const ArrowOverride: int := ColorByBlock

  /** initialize, one arrow name at a time: each name that finds a block
      gives that block the ByBlock override. */
  function OverrideArrows(store: seq<Block>, blocks: map<string, nat>, arrows: seq<string>): (r: seq<Block>)
    ensures |r| == |store|
  {
    if arrows == [] then store
    else
      var before := OverrideArrows(store, blocks, arrows[..|arrows| - 1]);
      match Lookup(blocks, arrows[|arrows| - 1])
      case Some(b) =>
        if b < |before| then before[b := before[b].(overriding := Some(ArrowOverride))] else before
      case None => before
  }

  /** Whether some listed arrow name finds the block. */
  predicate IsArrowBlock(blocks: map<string, nat>, arrows: seq<string>, b: nat)
  {
    exists i :: 0 <= i < |arrows| && Lookup(blocks, arrows[i]) == Some(b)
  }

  /** After initialize, exactly the blocks some arrow name finds carry the
      ByBlock override; every other block, and everything else about the
      arrow blocks, is as it was. */
  lemma {:induction false} OverrideArrowsAt(store: seq<Block>, blocks: map<string, nat>, arrows: seq<string>, b: nat)
    requires b < |store|
    ensures OverrideArrows(store, blocks, arrows)[b]
            == if IsArrowBlock(blocks, arrows, b) then store[b].(overriding := Some(ArrowOverride)) else store[b]
  {
    if arrows != [] {
      var init := arrows[..|arrows| - 1];
      OverrideArrowsAt(store, blocks, init, b);
      if IsArrowBlock(blocks, init, b) {
        var i :| 0 <= i < |init| && Lookup(blocks, init[i]) == Some(b);
        assert arrows[i] == init[i];
      }
      if IsArrowBlock(blocks, arrows, b) && Lookup(blocks, arrows[|arrows| - 1]) != Some(b) {
        var i :| 0 <= i < |arrows| && Lookup(blocks, arrows[i]) == Some(b);
        assert init[i] == arrows[i];
      }
    }
  }

  /** OverrideArrowsAt for every block at once. */
  lemma OverrideArrowsEach(store: seq<Block>, blocks: map<string, nat>, arrows: seq<string>)
    ensures forall b :: 0 <= b < |store| ==>
              OverrideArrows(store, blocks, arrows)[b]
              == if IsArrowBlock(blocks, arrows, b) then store[b].(overriding := Some(ArrowOverride)) else store[b]
  {
    forall b | 0 <= b < |store|
      ensures OverrideArrows(store, blocks, arrows)[b]
              == if IsArrowBlock(blocks, arrows, b) then store[b].(overriding := Some(ArrowOverride)) else store[b]
    {
      OverrideArrowsAt(store, blocks, arrows, b);
    }
  }

  // ---------------------------------------------------------------------
  // The document

  /** Every entity slot a list holds is in the store. */
  predicate SlotsBelow(ids: seq<nat>, n: nat)
  {
    forall i :: 0 <= i < |ids| ==> ids[i] < n
  }

  /** The parent block of an entity, if any, is in the block store. */
  predicate ParentBelow(e: Entity, n: nat)
  {
    e.parent.Some? ==> e.parent.value < n
  }

  class Document {
    /** The reading statistics, present exactly when status logging is on. */
    const status: DxfStatus?

    var blocks: map<string, nat>
    var blockStore: seq<Block>
    var pens: seq<Pen>
    var entities: seq<Entity>
    var refEntities: map<Option<string>, nat>
    var lastEntity: Option<nat>
    var arrows: Option<seq<string>>
    var layers: map<string, Layer>
    var lineTypes: map<string, LineType>
    var distanceUnit: DistanceUnit
    var lineTypeScale: real
    var limitsMin: Point2D
    var limitsMax: Point2D

    /** Whether clearDocument has run; its tables are then gone. */
    var cleared: bool

    /** The stores agree with each other: every block and entity slot the
        tables and blocks hold is in range, each block has its pen, the
        arrow list has no duplicates in any spelling, and every layer and
        line type is filed under its own name. */
    predicate Valid()
      reads this
    {
      && !cleared
      && |pens| == |blockStore| >= 2
      && (forall k :: k in blocks ==> blocks[k] < |blockStore|)
      && (forall b :: 0 <= b < |blockStore| ==> SlotsBelow(blockStore[b].entities, |entities|))
      && (forall h :: h in refEntities ==> refEntities[h] < |entities|)
      && (lastEntity.Some? ==> lastEntity.value < |entities|)
      && (forall id :: 0 <= id < |entities| ==> ParentBelow(entities[id], |blockStore|))
      && DistinctIgnoringCase(PE.Listed(arrows))
      && (forall k :: k in layers ==> layers[k].name == k)
      && (forall k :: k in lineTypes ==> lineTypes[k].name == k)
    }

    /** A new document: unitless, with the statistics when they are
        logged, and the model-space and paper-space blocks created and
        filed under their names. */
    constructor (logStatus: bool)
      ensures Valid()
      ensures (status != null) == logStatus && (logStatus ==> fresh(status))
      ensures distanceUnit == UNITLESS
      ensures blockStore == [NewBlock(ModelBlock, 0.0, 0.0, 0), NewBlock(PaperBlock, 0.0, 0.0, 0)]
      ensures pens == [NewPen, NewPen]
      ensures blocks == map[ModelBlock := ModelSpace, PaperBlock := PaperSpace]
      ensures entities == [] && refEntities == map[] && lastEntity.None? && arrows.None?
      ensures layers == map[] && lineTypes == map[]
      ensures lineTypeScale == 0.0 && limitsMin == Point2D(0.0, 0.0) && limitsMax == Point2D(0.0, 0.0)
    {
      distanceUnit := UNITLESS;
      if logStatus {
        status := new DxfStatus();
      } else {
        status := null;
      }
      assert Upper(ModelBlock) == ModelBlock && Upper(PaperBlock) == PaperBlock;
      blockStore := [NewBlock(ModelBlock, 0.0, 0.0, 0), NewBlock(PaperBlock, 0.0, 0.0, 0)];
      pens := [NewPen, NewPen];
      blocks := map[Upper(ModelBlock) := ModelSpace, Upper(PaperBlock) := PaperSpace];
      entities := [];
      refEntities := map[];
      lastEntity := None;
      arrows := None;
      layers := map[];
      lineTypes := map[];
      lineTypeScale := 0.0;
      limitsMin := Point2D(0.0, 0.0);
      limitsMax := Point2D(0.0, 0.0);
      cleared := false;
    }

    /** new DxfBlock: the block gets the next slot of the store and a fresh
        pen; it is not filed under its name until addBlock. */
    method CreateBlock(b: Block) returns (slot: nat)
      requires Valid() && SlotsBelow(b.entities, |entities|)
      modifies this`blockStore, this`pens
      ensures Valid()
      ensures slot == |old(blockStore)|
      ensures blockStore == old(blockStore) + [b] && pens == old(pens) + [NewPen]
    {
      slot := |blockStore|;
      blockStore := blockStore + [b];
      pens := pens + [NewPen];
    }

    /** addBlock: the block is filed under its upper-cased name, replacing
        any block filed under any spelling of that name. */
    method AddBlock(slot: nat)
      requires Valid() && slot < |blockStore|
      modifies this`blocks
      ensures Valid()
      ensures blocks == old(blocks)[Upper(blockStore[slot].name) := slot]
    {
      blocks := blocks[Upper(blockStore[slot].name) := slot];
    }

    /** A new entity object: the record gets the next slot of the entity
        store. */
    method CreateEntity(e: Entity) returns (id: nat)
      requires Valid() && ParentBelow(e, |blockStore|)
      modifies this`entities
      ensures Valid()
      ensures id == |old(entities)| && entities == old(entities) + [e]
    {
      id := |entities|;
      entities := entities + [e];
      forall b | 0 <= b < |blockStore|
        ensures SlotsBelow(blockStore[b].entities, |entities|)
      {
        assert SlotsBelow(blockStore[b].entities, |entities| - 1);
      }
    }

    /** addEntityByRef: the entity is registered under its handle (a
        missing handle is a key like any other), replacing whatever was
        registered under it. */
    method AddEntityByRef(id: nat)
      requires Valid() && id < |entities|
      modifies this`refEntities
      ensures Valid()
      ensures refEntities == old(refEntities)[entities[id].common.handle := id]
    {
      refEntities := refEntities[entities[id].common.handle := id];
    }

    /** addArrowBlock: the name is appended to the list of arrow blocks
        (created on first use) unless some spelling of it is listed. */
    method AddArrowBlock(name: string)
      requires Valid()
      modifies this`arrows
      ensures Valid()
      ensures arrows == Some(WithArrow(old(arrows), name))
    {
      WithArrowKeepsDistinct(arrows, name);
      var list := PE.Listed(arrows);
      arrows := Some(list);
      var i := 0;
      while i < |list|
        invariant 0 <= i <= |list|
        invariant forall j :: 0 <= j < i ==> !EqualsIgnoreCase(list[j], name)
      {
        if EqualsIgnoreCase(list[i], name) {
          return;
        }
        i := i + 1;
      }
      arrows := Some(list + [name]);
    }

    /** addLayer: the layer is built from the upper-cased name and filed
        under it. A missing name or line-type name throws and files
        nothing. */
    method AddLayer(name: Option<string>, flags: int, color: int, lineType: Option<string>) returns (r: Outcome<Layer>)
      requires Valid() && IsInt32(color)
      modifies this`layers
      ensures Valid()
      ensures r.Fail? <==> name.None? || lineType.None?
      ensures r.Fail? ==> r.failure == NullReference && layers == old(layers)
      ensures r.Ok? ==> r == NewLayer(Upper(name.value), flags, color, lineType)
                        && layers == old(layers)[Upper(name.value) := r.value]
    {
      if name.None? {
        return Fail(NullReference);
      }
      var layerName := Upper(name.value);
      r := NewLayer(layerName, flags, color, lineType);
      if r.Ok? {
        layers := layers[layerName := r.value];
      }
    }

    /** addLineType: the line type is stored with its upper-cased name and
        filed under it. A missing name throws and files nothing. */
    method AddLineType(name: Option<string>, flags: int, complexFlags: int, description: string, itemCount: int,
                       pattern: Option<seq<real>>, patternLength: real) returns (r: Outcome<LineType>)
      requires Valid()
      modifies this`lineTypes
      ensures Valid()
      ensures r.Fail? <==> name.None?
      ensures r.Fail? ==> r.failure == NullReference && lineTypes == old(lineTypes)
      ensures r.Ok? ==> r.value == LineType(Upper(name.value), flags, complexFlags, description, itemCount, pattern,
                                            patternLength)
                        && lineTypes == old(lineTypes)[Upper(name.value) := r.value]
    {
      if name.None? {
        return Fail(NullReference);
      }
      var lineTypeName := Upper(name.value);
      var lt := LineType(lineTypeName, flags, complexFlags, description, itemCount, pattern, patternLength);
      lineTypes := lineTypes[lineTypeName := lt];
      r := Ok(lt);
    }

    /** getBlock: the block filed under the upper-cased name, if any. */
    function GetBlock(name: string): (r: Option<nat>)
      reads this
      requires Valid()
      ensures r.Some? ==> r.value < |blockStore|
    {
      Lookup(blocks, name)
    }

    /** getEntityByRef: the entity last registered under the handle. */
    function GetEntityByRef(handle: Option<string>): (r: Option<nat>)
      reads this
      requires Valid()
      ensures r.Some? <==> handle in refEntities
      ensures r.Some? ==> r.value == refEntities[handle] && r.value < |entities|
    {
      if handle in refEntities then Some(refEntities[handle]) else None
    }

    /** getLayer, with its default. */
    function GetLayer(name: string): Layer
      reads this
    {
      LayerNamed(layers, name)
    }

    /** getLineType, with its default. */
    function GetLineType(name: string): LineType
      reads this
    {
      LineTypeNamed(lineTypes, name)
    }

    /** initialize: every block some arrow name finds gets the ByBlock
        colour override; nothing else changes. */
    method Initialize()
      requires Valid()
      modifies this`blockStore
      ensures Valid()
      ensures blockStore == OverrideArrows(old(blockStore), blocks, PE.Listed(arrows))
      ensures forall b :: 0 <= b < |blockStore| ==>
                blockStore[b] == if IsArrowBlock(blocks, PE.Listed(arrows), b)
                                 then old(blockStore[b]).(overriding := Some(ArrowOverride))
                                 else old(blockStore[b])
    {
      ghost var store := blockStore;
      var updated := blockStore;
      if arrows.Some? {
        var list := arrows.value;
        var i := 0;
        while i < |list|
          invariant 0 <= i <= |list|
          invariant updated == OverrideArrows(store, blocks, list[..i])
        {
          assert list[..i + 1][..i] == list[..i];
          var blk := GetBlock(list[i]);
          if blk.Some? {
            updated := updated[blk.value := updated[blk.value].(overriding := Some(ArrowOverride))];
          }
          i := i + 1;
        }
        assert list[..i] == list;
      }
      OverrideArrowsEach(store, blocks, PE.Listed(arrows));
      assert forall b :: 0 <= b < |updated| ==> updated[b].entities == store[b].entities;
      blockStore := updated;
    }

    /** clearDocument: the model-space and paper-space blocks are emptied
        and the arrow list, block table, handle table and both tables are
        dropped. */
    method ClearDocument()
      requires Valid()
      modifies this`blockStore, this`arrows, this`blocks, this`refEntities, this`layers, this`lineTypes,
               this`cleared
      ensures cleared
      ensures |blockStore| == |old(blockStore)|
      ensures blockStore[ModelSpace] == old(blockStore[ModelSpace]).(entities := [])
      ensures blockStore[PaperSpace] == old(blockStore[PaperSpace]).(entities := [])
      ensures forall b :: PaperSpace < b < |blockStore| ==> blockStore[b] == old(blockStore[b])
      ensures arrows.None? && blocks == map[] && refEntities == map[] && layers == map[] && lineTypes == map[]
    {
      blockStore := blockStore[ModelSpace := blockStore[ModelSpace].(entities := [])];
      blockStore := blockStore[PaperSpace := blockStore[PaperSpace].(entities := [])];
      arrows := None;
      blocks := map[];
      refEntities := map[];
      layers := map[];
      lineTypes := map[];
      cleared := true;
    }

    method SetDistanceUnit(u: DistanceUnit)
      requires Valid()
      modifies this`distanceUnit
      ensures Valid() && distanceUnit == u
    {
      distanceUnit := u;
    }

    method SetGlobalLineTypeScale(scale: real)
      requires Valid()
      modifies this`lineTypeScale
      ensures Valid() && lineTypeScale == scale
    {
      lineTypeScale := scale;
    }

    method SetLimitsMin(x: real, y: real)
      requires Valid()
      modifies this`limitsMin
      ensures Valid() && limitsMin == Point2D(x, y)
    {
      limitsMin := Point2D(x, y);
    }

    method SetLimitsMax(x: real, y: real)
      requires Valid()
      modifies this`limitsMax
      ensures Valid() && limitsMax == Point2D(x, y)
    {
      limitsMax := Point2D(x, y);
    }

    /** DxfBlock.addEntity: the entity joins the end of the block's list,
        takes the block as its parent and becomes the document's last added
        entity; no other block or entity changes. */
    method AddEntityToBlock(b: nat, id: nat)
      requires Valid() && b < |blockStore| && id < |entities|
      modifies this`blockStore, this`entities, this`lastEntity
      ensures Valid()
      ensures blockStore == old(blockStore)[b := old(blockStore[b]).(entities := old(blockStore[b].entities) + [id])]
      ensures entities == old(entities)[id := old(entities[id]).(parent := Some(b))]
      ensures lastEntity == Some(id)
    {
      blockStore := blockStore[b := blockStore[b].(entities := blockStore[b].entities + [id])];
      entities := entities[id := entities[id].(parent := Some(b))];
      lastEntity := Some(id);
    }

    /** addEntity on the container a VERTEX record was attached to: the
        container's data is replaced by its updated data. */
    method SetKind(id: nat, k: Kind)
      requires Valid() && id < |entities|
      modifies this`entities
      ensures Valid()
      ensures entities == old(entities)[id := old(entities[id]).(kind := k)]
    {
      entities := entities[id := entities[id].(kind := k)];
    }

    /** DxfBlock.setCurrentColor. */
    method SetCurrentColor(b: nat, color: int)
      requires b < |pens|
      modifies this`pens
      ensures pens == old(pens)[b := old(pens[b]).(color := color)]
    {
      pens := pens[b := pens[b].(color := color)];
    }

    /** DxfBlock.setCurrentLineType (none is a null line type). */
    method SetCurrentLineType(b: nat, lineType: Option<LineType>)
      requires b < |pens|
      modifies this`pens
      ensures pens == old(pens)[b := old(pens[b]).(lineType := lineType)]
    {
      pens := pens[b := pens[b].(lineType := lineType)];
    }

    /** DxfBlock.setPropertyOverriding. */
    method SetPropertyOverriding(b: nat, overriding: Option<int>)
      requires Valid() && b < |blockStore|
      modifies this`blockStore
      ensures Valid()
      ensures blockStore == old(blockStore)[b := old(blockStore[b]).(overriding := overriding)]
    {
      blockStore := blockStore[b := blockStore[b].(overriding := overriding)];
    }

    /** DxfBlock.clearBlock: the block's entity list is emptied. */
    method ClearBlock(b: nat)
      requires Valid() && b < |blockStore|
      modifies this`blockStore
      ensures Valid()
      ensures blockStore == old(blockStore)[b := old(blockStore[b]).(entities := [])]
    {
      blockStore := blockStore[b := blockStore[b].(entities := [])];
    }
  }
}
