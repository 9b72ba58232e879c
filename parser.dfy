// The parser the reader hands every structure to: it opens and closes
// blocks, remembers which table is being read, builds the entities and
// files them in the right block, reads the header variables and the LAYER
// and LTYPE tables, and keeps the reading statistics.
module Parser {
  import opened Results
  import opened Text
  import opened Numerics
  import opened Pairs
  import opened Geometry
  import opened DistanceUnits
  import opened EntityTypes
  import opened Entities
  import opened Kinds
  import opened Status
  import opened Layers
  import opened LineTypes
  import opened Documents
  import PE = PolylineEntities

  /** The table whose records are being read: the value of _entry. Before
      the first TABLE structure it is none of the known tables. */
  datatype Table =
    | NoTable | UnknownTable | AppIdTable | BlockRecordTable | DimStyleTable | LayerTable | LTypeTable
    | StyleTable | UcsTable | ViewTable | VPortTable

  // ---------------------------------------------------------------------
  // parseEntity

  /** What parseEntity makes of one structure once its type is known: an
      unsupported type, a supported type that built nothing (no
      constructor, or a record in ignored paper space), a vertex or face
      record to hand to its owner, or an entity to register and file. */
  datatype Decision =
    | Unsupported
    | Skipped
    | AttachVertex(child: Entity)
    | Place(entity: Entity)

  /** The constructor switch with the support test in front of it. An
      exception from a constructor aborts the load. */
  function Decide(ns: NumberSyntax, trig: Trig, ps: seq<Pair>, t: EntityType, ignorePaperSpace: bool)
    : (r: Outcome<Decision>)
    ensures !IsSupported(t) ==> r == Ok(Unsupported)
    ensures IsSupported(t) ==> (r.Fail? <==> Construct(ns, trig, ps, t, ignorePaperSpace).Fail?)
    ensures r.Ok? ==> (r.value.Skipped? <==> IsSupported(t) && Construct(ns, trig, ps, t, ignorePaperSpace) == Ok(None))
    ensures r.Ok? && r.value.AttachVertex? ==>
              t == VERTEX && Construct(ns, trig, ps, t, ignorePaperSpace) == Ok(Some(r.value.child))
              && r.value.child.parent.None?
    ensures r.Ok? && r.value.Place? ==>
              t != VERTEX && Construct(ns, trig, ps, t, ignorePaperSpace) == Ok(Some(r.value.entity))
              && r.value.entity.parent.None?
  {
    if !IsSupported(t) then Ok(Unsupported)
    else
      var built :- Construct(ns, trig, ps, t, ignorePaperSpace);
      if built.None? then Ok(Skipped)
      else if t == VERTEX then Ok(AttachVertex(built.value))
      else Ok(Place(built.value))
  }

  /** Where a registered entity is filed: the block being read in the
      BLOCKS section, paper space or model space in the ENTITIES section,
      or nowhere (a BLOCKS-section entity outside BLOCK..ENDBLK, or a
      paper-space entity while paper space is ignored). */
  datatype Target = OpenBlock | ModelSpaceBlock | PaperSpaceBlock | Unfiled

  function TargetOf(e: Entity, blockContext: bool, reading: bool, ignorePaperSpace: bool): Target
  {
    if blockContext then (if reading then OpenBlock else Unfiled)
    else if e.common.inPaperSpace then (if ignorePaperSpace then Unfiled else PaperSpaceBlock)
    else ModelSpaceBlock
  }

  /** The block slot a target stands for; the open block is the last block
      markBlockStarted created, if any. */
  function TargetSlot(target: Target, newBlock: Option<nat>): Option<nat>
  {
    match target
    case OpenBlock => newBlock
    case ModelSpaceBlock => Some(ModelSpace)
    case PaperSpaceBlock => Some(PaperSpace)
    case Unfiled => None
  }

  /** The statistics context parseEntity counts a structure in, if any.
      Structures in the BLOCKS section outside BLOCK..ENDBLK are never
      counted; vertex records, once attached, count as ignored. */
  function CountedAs(d: Decision, blockContext: bool, reading: bool, ignorePaperSpace: bool): Option<Context>
  {
    match d
    case Unsupported =>
      if blockContext then (if reading then Some(UnsupportedBlockContext) else None)
      else Some(UnsupportedModelAndPaperSpace)
    case Place(e) =>
      (match TargetOf(e, blockContext, reading, ignorePaperSpace)
       case OpenBlock => Some(BlockContextRead)
       case ModelSpaceBlock => Some(ModelSpaceRead)
       case PaperSpaceBlock => Some(PaperSpaceRead)
       case Unfiled => if blockContext then None else Some(PaperSpaceIgnored))
    case _ =>
      if blockContext then (if reading then Some(BlockContextIgnored) else None)
      else if ignorePaperSpace then Some(PaperSpaceIgnored)
      else Some(ModelSpaceIgnored)
  }

  predicate IsReadContext(c: Context)
  {
    c == BlockContextRead || c == ModelSpaceRead || c == PaperSpaceRead
  }

  /** The statistics agree with the filing: a structure is counted as read
      exactly when an entity was built for it and filed in a block, and the
      context it is counted in names that block. */
  lemma CountedAsReadIffFiled(d: Decision, blockContext: bool, reading: bool, ignorePaperSpace: bool)
    ensures var c := CountedAs(d, blockContext, reading, ignorePaperSpace);
            (c.Some? && IsReadContext(c.value))
            <==> d.Place? && TargetOf(d.entity, blockContext, reading, ignorePaperSpace) != Unfiled
    ensures d.Place? ==>
              var c := CountedAs(d, blockContext, reading, ignorePaperSpace);
              match TargetOf(d.entity, blockContext, reading, ignorePaperSpace)
              case OpenBlock => c == Some(BlockContextRead)
              case ModelSpaceBlock => c == Some(ModelSpaceRead)
              case PaperSpaceBlock => c == Some(PaperSpaceRead)
              case Unfiled => c.None? || !IsReadContext(c.value)
  {
  }

  /** A record built from a list: its shared properties are the ones the
      shared-property reader gives for the type it was built as. */
  lemma ConstructedCommon(ns: NumberSyntax, trig: Trig, ps: seq<Pair>, t: EntityType, ignorePaperSpace: bool)
    requires Construct(ns, trig, ps, t, ignorePaperSpace).Ok?
    requires Construct(ns, trig, ps, t, ignorePaperSpace).value.Some?
    ensures var e := Construct(ns, trig, ps, t, ignorePaperSpace).value.value;
            DecodeCommon(ns, ps, e.common.entityType, ignorePaperSpace) == Ok(Some(e.common))
  {
    ConstructRetypes(ns, trig, ps, t, ignorePaperSpace);
    var u := if t == POLYLINE then PolylineTypeOf(StrictInteger(GetValueOr(ps, 70, Some("0"))).value)
             else if t == VERTEX then VertexTypeOf(StrictInteger(GetValueOr(ps, 71, Some("0"))).value)
             else t;
    var b := Build(ns, trig, ps, u, ignorePaperSpace);
    assert Construct(ns, trig, ps, t, ignorePaperSpace) == b;
    assert Ok(Some(b.value.value.common)) == DecodeCommon(ns, ps, u, ignorePaperSpace);
  }

  /** While paper space is ignored, no entity of the ENTITIES section is
      left unfiled: a paper-space record is already rejected by its
      constructor, so the parser's own "count it as ignored" branch for
      paper-space entities is never taken. */
  lemma PlacedEntitiesAreFiled(ns: NumberSyntax, trig: Trig, ps: seq<Pair>, t: EntityType, ignorePaperSpace: bool)
    requires Decide(ns, trig, ps, t, ignorePaperSpace).Ok?
    requires Decide(ns, trig, ps, t, ignorePaperSpace).value.Place?
    ensures var e := Decide(ns, trig, ps, t, ignorePaperSpace).value.entity;
            && TargetOf(e, false, false, ignorePaperSpace) != Unfiled
            && TargetOf(e, false, false, ignorePaperSpace) == (if e.common.inPaperSpace then PaperSpaceBlock
                                                                else ModelSpaceBlock)
  {
    ConstructedCommon(ns, trig, ps, t, ignorePaperSpace);
  }

  /** The entity a vertex or face record is handed to: the one registered
      under its owner handle when it has one (current files), the last
      entity added to a block otherwise (old files). */
  function OwnerOf(refEntities: map<Option<string>, nat>, lastEntity: Option<nat>, child: Entity): Option<nat>
  {
    if child.common.ownerId.Some? then
      (if child.common.ownerId in refEntities then Some(refEntities[child.common.ownerId]) else None)
    else lastEntity
  }

  // ---------------------------------------------------------------------
  // What the BLOCKS and ENTITIES sections file, as values

  /** The part of the document and of the parser that parseEntity,
      markBlockStarted and markBlockCompleted change, statistics aside. */
  datatype Filing = Filing(entities: seq<Entity>, refEntities: map<Option<string>, nat>, lastEntity: Option<nat>,
                           blockStore: seq<Block>, pens: seq<Pen>, blocks: map<string, nat>,
                           newBlock: Option<nat>, blockIsReading: bool)

  /** The slots a filing refers to exist: the model-space and paper-space
      blocks, the open block, every registered entity and the last entity
      added. */
  predicate Fits(f: Filing)
  {
    && |f.blockStore| >= 2
    && (f.newBlock.Some? ==> f.newBlock.value < |f.blockStore|)
    && (forall h :: h in f.refEntities ==> f.refEntities[h] < |f.entities|)
    && (f.lastEntity.Some? ==> f.lastEntity.value < |f.entities|)
  }

  /** The filing after an entity was registered and filed, as Registered
      states it of the document. */
  function Placed(f: Filing, e: Entity, blockContext: bool, ignorePaperSpace: bool): (r: Outcome<Filing>)
    requires Fits(f)
    ensures r.Ok? ==> Fits(r.value)
  {
    var id := |f.entities|;
    var target := TargetOf(e, blockContext, f.blockIsReading, ignorePaperSpace);
    var refs := f.refEntities[e.common.handle := id];
    if target == OpenBlock && f.newBlock.None? then Fail(NullReference)
    else
      match TargetSlot(target, f.newBlock)
      case None => Ok(f.(entities := f.entities + [e], refEntities := refs))
      case Some(b) =>
        var filed := f.blockStore[b].(entities := f.blockStore[b].entities + [id]);
        Ok(f.(entities := f.entities + [e.(parent := Some(b))], refEntities := refs, lastEntity := Some(id),
              blockStore := f.blockStore[b := filed]))
  }

  /** The filing after a vertex or face record was handed to its owner, as
      AttachedTo states it of the document. */
  function Attached(f: Filing, child: Entity): (r: Outcome<Filing>)
    requires Fits(f)
    ensures r.Ok? ==> Fits(r.value)
  {
    var id := |f.entities|;
    var stored := f.entities + [child];
    var refs := f.refEntities[child.common.handle := id];
    match OwnerOf(refs, f.lastEntity, child)
    case None => Ok(f.(entities := stored, refEntities := refs))
    case Some(owner) =>
      var k :- Attach(stored[owner].kind, child.kind);
      Ok(f.(entities := stored[owner := stored[owner].(kind := k)], refEntities := refs))
  }

  /** The filing after the filing half of parseEntity: an exception
      aborts, an unsupported type or a structure that built nothing
      changes nothing, a record goes to its owner and any other entity is
      registered and filed. */
  function FiledInto(decided: Outcome<Decision>, blockContext: bool, ignorePaperSpace: bool, f: Filing)
    : (r: Outcome<Filing>)
    requires Fits(f)
    ensures r.Ok? ==> Fits(r.value)
  {
    var d :- decided;
    match d
    case AttachVertex(child) => Attached(f, child)
    case Place(e) => Placed(f, e, blockContext, ignorePaperSpace)
    case _ => Ok(f)
  }

  /** The filing after markBlockStarted, as that method states it of the
      document. */
  function BlockStarted(ns: NumberSyntax, ps: seq<Pair>, name: string, f: Filing): (r: Outcome<Filing>)
    requires Fits(f)
    ensures r.Ok? ==> Fits(r.value)
  {
    var reading := f.(blockIsReading := true);
    if EqualsIgnoreCase(ModelBlock, name) || EqualsIgnoreCase(PaperBlock, name) then Ok(reading)
    else
      var b :- DecodeBlock(ns, ps, name);
      var slot := |f.blockStore|;
      Ok(reading.(blockStore := f.blockStore + [b], pens := f.pens + [NewPen],
                  blocks := f.blocks[Upper(name) := slot], newBlock := Some(slot)))
  }

  // ---------------------------------------------------------------------
  // parseHeaderVariables

  /** The document settings the HEADER section sets. */
  datatype Header = Header(arrows: Option<seq<string>>, distanceUnit: DistanceUnit, lineTypeScale: real,
                           limitsMin: Point2D, limitsMax: Point2D)

  function HeaderOf(d: Document): Header
    reads d`arrows, d`distanceUnit, d`lineTypeScale, d`limitsMin, d`limitsMax
  {
    Header(d.arrows, d.distanceUnit, d.lineTypeScale, d.limitsMin, d.limitsMax)
  }

  /** The names of the arrow-block variables. */
  predicate IsArrowVariable(name: string)
  {
    name == "$DIMBLK" || name == "$DIMBLK1" || name == "$DIMBLK2"
  }

  /** The value of the pair after a variable name, which it.next() hands
      out whatever its code; none left is NoSuchElementException. */
  function NextValue(ps: seq<Pair>, i: nat): (r: Outcome<string>)
    ensures r.Ok? <==> i < |ps|
    ensures r.Ok? ==> r.value == ps[i].value
  {
    if i < |ps| then Ok(ps[i].value) else Fail(NoSuchElement)
  }

  /** One turn of the iteration of parseHeaderVariables at position i: the
      position the next turn starts at and the settings after this one. A
      code-9 pair names a variable (case-insensitively); $DIMBLK, $DIMBLK1
      and $DIMBLK2 add a non-blank value to the arrow blocks, $INSUNITS
      sets the unit, $LTSCALE the line-type scale, $LIMMIN and $LIMMAX read
      two values for a corner. Values are taken from the pairs that follow,
      whatever their codes, which the iteration then skips. */
  function HeaderStep(ns: NumberSyntax, ps: seq<Pair>, i: nat, h: Header): (r: Outcome<(nat, Header)>)
    requires i < |ps|
    ensures r.Ok? ==> i < r.value.0 <= |ps|
    ensures ps[i].code != 9 ==> r == Ok((i + 1, h))
  {
    if ps[i].code != 9 then Ok((i + 1, h))
    else
      var variable := Upper(ps[i].value);
      if IsArrowVariable(variable) then
        var v :- NextValue(ps, i + 1);
        Ok((i + 2, if IsBlank(v) then h else h.(arrows := Some(WithArrow(h.arrows, v)))))
      else if variable == "$INSUNITS" then
        var v :- NextValue(ps, i + 1);
        var index :- StrictInteger(Some(v));
        Ok((i + 2, h.(distanceUnit := IndexToDistanceUnit(index))))
      else if variable == "$LTSCALE" then
        var v :- NextValue(ps, i + 1);
        var scale :- ParseDouble(ns, Some(v));
        Ok((i + 2, h.(lineTypeScale := scale)))
      else if variable == "$LIMMIN" || variable == "$LIMMAX" then
        var vx :- NextValue(ps, i + 1);
        var x :- ParseDouble(ns, Some(vx));
        var vy :- NextValue(ps, i + 2);
        var y :- ParseDouble(ns, Some(vy));
        Ok((i + 3, if variable == "$LIMMIN" then h.(limitsMin := Point2D(x, y)) else h.(limitsMax := Point2D(x, y))))
      else Ok((i + 1, h))
  }

  /** The iteration from position i to the end of the list, or the first
      exception. */
  function HeaderFrom(ns: NumberSyntax, ps: seq<Pair>, i: nat, h: Header): Outcome<Header>
    decreases |ps| - i
  {
    if i >= |ps| then Ok(h)
    else
      var (next, h') :- HeaderStep(ns, ps, i, h);
      HeaderFrom(ns, ps, next, h')
  }

  /** The settings a pair list leaves: its iteration from the start. */
  function ApplyHeader(ns: NumberSyntax, ps: seq<Pair>, h: Header): Outcome<Header>
  {
    HeaderFrom(ns, ps, 0, h)
  }

  /** A turn that stays inside a list takes the same turn when more pairs
      follow. */
  lemma HeaderStepPrefix(ns: NumberSyntax, ps: seq<Pair>, qs: seq<Pair>, i: nat, h: Header)
    requires i < |ps| && HeaderStep(ns, ps, i, h).Ok?
    ensures HeaderStep(ns, ps + qs, i, h) == HeaderStep(ns, ps, i, h)
  {
    var all := ps + qs;
    assert all[i] == ps[i];
    var n := HeaderStep(ns, ps, i, h).value.0;
    assert forall k :: i <= k < n ==> all[k] == ps[k];
  }

  /** A turn past the end of a prefix is the turn on what was appended,
      shifted by the prefix's length. */
  lemma HeaderStepShift(ns: NumberSyntax, ps: seq<Pair>, qs: seq<Pair>, j: nat, h: Header)
    requires j < |qs|
    ensures var r := HeaderStep(ns, qs, j, h);
            HeaderStep(ns, ps + qs, |ps| + j, h)
            == if r.Ok? then Ok((|ps| + r.value.0, r.value.1)) else Fail(r.failure)
  {
    var all := ps + qs;
    assert forall k :: j <= k < |qs| ==> all[|ps| + k] == qs[k];
  }

  /** The iteration of a longer list past the end of a prefix is the
      iteration of what was appended. */
  lemma {:induction false} HeaderFromShift(ns: NumberSyntax, ps: seq<Pair>, qs: seq<Pair>, j: nat, h: Header)
    requires j <= |qs|
    ensures HeaderFrom(ns, ps + qs, |ps| + j, h) == HeaderFrom(ns, qs, j, h)
    decreases |qs| - j
  {
    if j < |qs| {
      HeaderStepShift(ns, ps, qs, j, h);
      var r := HeaderStep(ns, qs, j, h);
      if r.Ok? {
        HeaderFromShift(ns, ps, qs, r.value.0, r.value.1);
      }
    }
  }

  /** The HEADER section hands the parser its container again after every
      structure without clearing it: reading the longer list repeats the
      settings of the earlier pairs and then applies the new ones, as if
      the earlier ones were read once more on their own. */
  lemma {:induction false} HeaderFromAppend(ns: NumberSyntax, ps: seq<Pair>, qs: seq<Pair>, i: nat, h: Header)
    requires i <= |ps|
    requires HeaderFrom(ns, ps, i, h).Ok?
    ensures HeaderFrom(ns, ps + qs, i, h) == HeaderFrom(ns, qs, 0, HeaderFrom(ns, ps, i, h).value)
    decreases |ps| - i
  {
    if i < |ps| {
      var r := HeaderStep(ns, ps, i, h);
      HeaderStepPrefix(ns, ps, qs, i, h);
      HeaderFromAppend(ns, ps, qs, r.value.0, r.value.1);
    } else {
      HeaderFromShift(ns, ps, qs, 0, h);
    }
  }

  // ---------------------------------------------------------------------
  // The dash pattern of an LTYPE record

  /** Double.parseDouble on each value, in order. */
  function ParseSteps(ns: NumberSyntax, vs: seq<string>): (r: seq<Outcome<real>>)
    ensures |r| == |vs| && forall i :: 0 <= i < |vs| ==> r[i] == ParseDouble(ns, Some(vs[i]))
  {
    seq(|vs|, i requires 0 <= i < |vs| => ParseDouble(ns, Some(vs[i])))
  }

  function Zeros(n: nat): (r: seq<real>)
    ensures |r| == n && forall i :: 0 <= i < n ==> r[i] == 0.0
  {
    seq(n, _ => 0.0)
  }

  /** The pattern array of an LTYPE record declaring count dashes: the
      first count code-49 values, parsed in order (the first that does not
      parse aborts the load), and 0 for each dash without a value. */
  function PatternOf(ns: NumberSyntax, vs: seq<string>, count: nat): (r: Outcome<seq<real>>)
    ensures r.Ok? ==> |r.value| == count
  {
    var k := if count < |vs| then count else |vs|;
    var xs :- CollectAll(ParseSteps(ns, vs[..k]));
    Ok(xs + Zeros(count - k))
  }

  /** The pattern has one entry per declared dash: the parsed value of
      each code-49 value there is room for, 0 after the last value; values
      beyond the declared count are neither stored nor parsed. */
  lemma PatternOfShape(ns: NumberSyntax, vs: seq<string>, count: nat, more: seq<string>)
    ensures PatternOf(ns, vs, count).Ok? ==>
              var p := PatternOf(ns, vs, count).value;
              && |p| == count
              && (forall i :: 0 <= i < count && i < |vs| ==> Ok(p[i]) == ParseDouble(ns, Some(vs[i])))
              && (forall i :: |vs| <= i < count ==> p[i] == 0.0)
    ensures PatternOf(ns, vs, count).Fail? <==>
              exists i :: 0 <= i < count && i < |vs| && ParseDouble(ns, Some(vs[i])).Fail?
    ensures count <= |vs| ==> PatternOf(ns, vs + more, count) == PatternOf(ns, vs, count)
  {
    var k := if count < |vs| then count else |vs|;
    var steps := ParseSteps(ns, vs[..k]);
    if CollectAll(steps).Fail? {
      var i :| 0 <= i < |steps| && steps[i].Fail?;
      assert vs[..k][i] == vs[i];
    } else {
      forall i | 0 <= i < count && i < |vs| ensures ParseDouble(ns, Some(vs[i])).Ok? {
        assert vs[..k][i] == vs[i];
      }
    }
    if count <= |vs| {
      assert (vs + more)[..count] == vs[..count];
    }
  }

  /** A value that does not parse, with room left for it and every value
      before it parsed, aborts the pattern with its exception. */
  lemma PatternPrefixFails(ns: NumberSyntax, vs: seq<string>, count: nat, i: nat)
    requires i < count && i < |vs| && forall j :: 0 <= j < i ==> ParseDouble(ns, Some(vs[j])).Ok?
    requires ParseDouble(ns, Some(vs[i])).Fail?
    ensures PatternOf(ns, vs, count) == Fail(ParseDouble(ns, Some(vs[i])).failure)
  {
    var k := if count < |vs| then count else |vs|;
    var steps := ParseSteps(ns, vs[..k]);
    assert CollectAll(steps[..i]).Ok?;
    CollectAllStep(steps, i);
  }

  /** Parsed values that fill the array, or take every value, make the
      pattern, padded with zeros. */
  lemma PatternPrefixDone(ns: NumberSyntax, vs: seq<string>, count: nat, xs: seq<real>)
    requires |xs| <= count && |xs| <= |vs| && (|xs| == count || |xs| == |vs|)
    requires forall j :: 0 <= j < |xs| ==> ParseDouble(ns, Some(vs[j])) == Ok(xs[j])
    ensures PatternOf(ns, vs, count) == Ok(xs + Zeros(count - |xs|))
  {
    var steps := ParseSteps(ns, vs[..|xs|]);
    assert CollectAll(steps).Ok?;
    assert CollectAll(steps).value == xs;
  }

  /** An array whose first i entries are the parsed values, where i is its
      length or the number of values, and whose other entries are 0, is the
      pattern. */
  lemma PatternOfFilled(ns: NumberSyntax, vs: seq<string>, count: nat, a: seq<real>, i: nat)
    requires |a| == count && i <= count && i <= |vs| && (i == count || i == |vs|)
    requires forall j :: 0 <= j < i ==> ParseDouble(ns, Some(vs[j])) == Ok(a[j])
    requires forall j :: i <= j < count ==> a[j] == 0.0
    ensures PatternOf(ns, vs, count) == Ok(a)
  {
    PatternPrefixDone(ns, vs, count, a[..i]);
    assert a == a[..i] + Zeros(count - i);
  }

  /** The state of the pattern loop of parseTable as written: the number of
      dashes stored and the code-49 values the iterator has not handed out
      (the values themselves, and whether they parse, play no part in
      whether the loop ends). */
  datatype PatternLoop = PatternLoop(stored: nat, left: seq<string>)

  /** One turn of the loop as written, taken while the iterator has a
      value: it calls next() only while the array has room, so once the
      array is full the turn changes nothing. */
  function AsWrittenTurn(count: int, s: PatternLoop): PatternLoop
    requires s.left != []
  {
    if s.stored <= count - 1 then PatternLoop(s.stored + 1, s.left[1..]) else s
  }

  /** The state after n turns, starting from no dash stored and all the
      values; a loop that has ended stays where it ended. */
  function AsWrittenAfter(count: int, vs: seq<string>, n: nat): PatternLoop
  {
    if n == 0 then PatternLoop(0, vs)
    else
      var s := AsWrittenAfter(count, vs, n - 1);
      if s.left == [] then s else AsWrittenTurn(count, s)
  }

  /** A record with more code-49 values than the dashes it declares keeps
      the loop going forever: after any number of turns the iterator still
      has a value, and from turn count on the state no longer changes. */
  lemma {:induction false} AsWrittenPatternNeverEnds(count: nat, vs: seq<string>, n: nat)
    requires 0 < count < |vs|
    ensures var m := if n < count then n else count;
            AsWrittenAfter(count, vs, n) == PatternLoop(m, vs[m..])
    ensures AsWrittenAfter(count, vs, n).left != []
  {
    if n > 0 {
      AsWrittenPatternNeverEnds(count, vs, n - 1);
      var m := if n - 1 < count then n - 1 else count;
      if n - 1 < count {
        assert vs[m..][1..] == vs[m + 1..];
      }
    }
  }

  /** A LAYER table record: the flags (code 70, "0" when absent) and the
      colour (code 62, required) must be integers, in that order, and the
      record needs a name (code 2) and a line type (code 6). The layer is
      filed under its upper-cased name; a negative colour switches it off. */
  function LayerOf(ps: seq<Pair>): (r: Outcome<Layer>)
    ensures r.Ok? <==> && StrictInteger(GetValueOr(ps, 70, Some("0"))).Ok?
                       && StrictInteger(GetValue(ps, 62)).Ok?
                       && GetValue(ps, 2).Some? && GetValue(ps, 6).Some?
    ensures r.Ok? ==> && r.value.name == Upper(GetValue(ps, 2).value)
                      && r.value.lineType == Upper(GetValue(ps, 6).value)
                      && (r.value.on <==> ParseInt(GetValue(ps, 62).value).value >= 0)
    ensures StrictInteger(GetValueOr(ps, 70, Some("0"))).Fail? ==> r.Fail? && r.failure.MalformedNumber?
  {
    var flags :- StrictInteger(GetValueOr(ps, 70, Some("0")));
    var color :- StrictInteger(GetValue(ps, 62));
    var name := GetValue(ps, 2);
    if name.None? then Fail(NullReference)
    else NewLayer(Upper(name.value), flags, color, GetValue(ps, 6))
  }

  /** The pattern argument of addLineType: no array unless the record
      declares at least one dash. */
  function PatternArgument(ns: NumberSyntax, ps: seq<Pair>, count: int): (r: Outcome<Option<seq<real>>>)
    ensures count <= 0 ==> r == Ok(None)
    ensures count > 0 && r.Ok? ==> r.value.Some? && |r.value.value| == count
  {
    if count <= 0 then Ok(None)
    else
      var pattern :- PatternOf(ns, ValuesOf(ps, 49), count);
      Ok(Some(pattern))
  }

  /** The numbers of an LTYPE table record in the order they are read:
      flags (70), complex flags (74) and the number of dashes (73) are
      integers defaulting to 0, the pattern length (40) a number defaulting
      to 0; the first that does not parse aborts the load. */
  function LineTypeNumbers(ns: NumberSyntax, ps: seq<Pair>): (r: Outcome<(int, int, int, real)>)
    ensures r.Ok? <==> && StrictInteger(GetValueOr(ps, 70, Some("0"))).Ok?
                       && StrictInteger(GetValueOr(ps, 74, Some("0"))).Ok?
                       && StrictInteger(GetValueOr(ps, 73, Some("0"))).Ok?
                       && ParseDouble(ns, GetValueOr(ps, 40, Some("0"))).Ok?
    ensures r.Ok? ==> Ok(r.value.2) == StrictInteger(GetValueOr(ps, 73, Some("0")))
  {
    var flags :- StrictInteger(GetValueOr(ps, 70, Some("0")));
    var complexFlags :- StrictInteger(GetValueOr(ps, 74, Some("0")));
    var count :- StrictInteger(GetValueOr(ps, 73, Some("0")));
    var patternLength :- ParseDouble(ns, GetValueOr(ps, 40, Some("0")));
    Ok((flags, complexFlags, count, patternLength))
  }

  /** An LTYPE table record: its numbers as LineTypeNumbers reads them,
      the description (3) defaulting to empty, and the record needs a name
      (code 2); it is filed under its upper-cased name. */
  function LineTypeOf(ns: NumberSyntax, ps: seq<Pair>): (r: Outcome<LineType>)
    ensures r.Ok? ==> && GetValue(ps, 2).Some? && r.value.name == Upper(GetValue(ps, 2).value)
                      && r.value.description == GetValueOr(ps, 3, Some("")).value
                      && Ok(r.value.itemCount) == StrictInteger(GetValueOr(ps, 73, Some("0")))
                      && (r.value.itemCount <= 0 <==> r.value.pattern.None?)
                      && (r.value.itemCount > 0 ==> |r.value.pattern.value| == r.value.itemCount)
    ensures GetValue(ps, 2).None? ==> r.Fail?
  {
    var (flags, complexFlags, count, patternLength) :- LineTypeNumbers(ns, ps);
    var description := GetValueOr(ps, 3, Some("")).value;
    var pattern :- PatternArgument(ns, ps, count);
    var name := GetValue(ps, 2);
    if name.None? then Fail(NullReference)
    else Ok(LineType(Upper(name.value), flags, complexFlags, description, count, pattern, patternLength))
  }

  /** With no more values than dashes the loop as written ends, having
      handed out every value. */
  lemma {:induction false} AsWrittenPatternEnds(count: nat, vs: seq<string>, n: nat)
    requires |vs| <= count
    ensures var m := if n < |vs| then n else |vs|;
            AsWrittenAfter(count, vs, n) == PatternLoop(m, vs[m..])
  {
    if n > 0 {
      AsWrittenPatternEnds(count, vs, n - 1);
      var m := if n - 1 < |vs| then n - 1 else |vs|;
      if n - 1 < |vs| {
        assert vs[m..][1..] == vs[m + 1..];
      }
    }
  }

  /** The layer and line-type tables of a document. */
  datatype Tables = Tables(layers: map<string, Layer>, lineTypes: map<string, LineType>)

  function TablesOf(d: Document): Tables
    reads d`layers, d`lineTypes
  {
    Tables(d.layers, d.lineTypes)
  }

  /** The tables after parseTable reads one record of the current table:
      a LAYER record files its layer, an LTYPE record its line type, and a
      record of any other table is passed over. */
  function RecordInto(ns: NumberSyntax, entry: Table, t: Tables, ps: seq<Pair>): Outcome<Tables>
  {
    match entry
    case LayerTable =>
      var layer :- LayerOf(ps);
      Ok(t.(layers := t.layers[layer.name := layer]))
    case LTypeTable =>
      var lineType :- LineTypeOf(ns, ps);
      Ok(t.(lineTypes := t.lineTypes[lineType.name := lineType]))
    case _ => Ok(t)
  }

  // ---------------------------------------------------------------------
  // The parser

  class DxfParser {
    const ns: NumberSyntax
    const trig: Trig
    const ignorePaperSpace: bool
    const logStatus: bool
    const doc: Document

    var entry: Table
    /** The block the last BLOCK structure created (_newBlock), if any. */
    var newBlock: Option<nat>
    var blockIsReading: bool

    /** The document is consistent, carries statistics exactly when they
        are logged, and the open block is one of its blocks. */
    predicate Valid()
      reads this, doc
    {
      && doc.Valid()
      && (doc.status != null) == logStatus
      && (newBlock.Some? ==> newBlock.value < |doc.blockStore|)
    }

    /** The filing this parser and its document hold. */
    function CurrentFiling(): (f: Filing)
      reads this, doc
      ensures Valid() ==> Fits(f)
    {
      Filing(doc.entities, doc.refEntities, doc.lastEntity, doc.blockStore, doc.pens, doc.blocks,
             newBlock, blockIsReading)
    }

    /** A parser with a new document, no table and no block started. */
    constructor (ns: NumberSyntax, trig: Trig, ignorePaperSpace: bool, logStatus: bool)
      ensures Valid() && fresh(doc) && (logStatus ==> fresh(doc.status))
      ensures this.ns == ns && this.trig == trig
      ensures this.ignorePaperSpace == ignorePaperSpace && this.logStatus == logStatus
      ensures entry == NoTable && newBlock.None? && !blockIsReading
      ensures doc.blockStore == [NewBlock(ModelBlock, 0.0, 0.0, 0), NewBlock(PaperBlock, 0.0, 0.0, 0)]
      ensures doc.entities == [] && doc.arrows.None? && doc.layers == map[] && doc.lineTypes == map[]
    {
      this.ns, this.trig := ns, trig;
      this.ignorePaperSpace, this.logStatus := ignorePaperSpace, logStatus;
      entry, newBlock, blockIsReading := NoTable, None, false;
      doc := new Document(logStatus);
    }

    /** markBlockCompleted. */
    method MarkBlockCompleted()
      requires Valid()
      modifies this`blockIsReading
      ensures Valid() && !blockIsReading
      ensures CurrentFiling() == old(CurrentFiling()).(blockIsReading := false)
    {
      blockIsReading := false;
    }

    /** markBlockStarted: a block is being read from now on. Unless it is
        the model-space or paper-space block (in any spelling), a new block
        is built from the structure and filed under its name; for those two
        the previously started block stays the open one. */
    method MarkBlockStarted(ps: seq<Pair>, name: string) returns (r: Outcome<()>)
      requires Valid()
      modifies this`blockIsReading, this`newBlock, doc`blockStore, doc`pens, doc`blocks
      ensures Valid() && blockIsReading
      ensures EqualsIgnoreCase(ModelBlock, name) || EqualsIgnoreCase(PaperBlock, name) ==>
                r.Ok? && newBlock == old(newBlock) && unchanged(doc)
      ensures !EqualsIgnoreCase(ModelBlock, name) && !EqualsIgnoreCase(PaperBlock, name) ==>
                match DecodeBlock(ns, ps, name)
                case Fail(f) => r == Fail(f) && newBlock == old(newBlock) && unchanged(doc)
                case Ok(b) =>
                  && r.Ok?
                  && newBlock == Some(|old(doc.blockStore)|)
                  && doc.blockStore == old(doc.blockStore) + [b]
                  && doc.pens == old(doc.pens) + [NewPen]
                  && doc.blocks == old(doc.blocks)[Upper(name) := |old(doc.blockStore)|]
      ensures var after := BlockStarted(ns, ps, name, old(CurrentFiling()));
              && (r.Fail? <==> after.Fail?)
              && (r.Fail? ==> r.failure == after.failure)
              && (r.Ok? ==> CurrentFiling() == after.value)
    {
      blockIsReading := true;
      if !EqualsIgnoreCase(ModelBlock, name) && !EqualsIgnoreCase(PaperBlock, name) {
        var decoded := DecodeBlock(ns, ps, name);
        if decoded.Fail? {
          return Fail(decoded.failure);
        }
        var slot := doc.CreateBlock(decoded.value);
        newBlock := Some(slot);
        doc.AddBlock(slot);
      }
      r := Ok(());
    }

    /** The markTable*Started methods: the table whose records follow. */
    method MarkTableStarted(t: Table)
      requires Valid()
      modifies this`entry
      ensures Valid() && entry == t
    {
      entry := t;
    }

    /** The statistics after counting a structure of type t in context c
        (none: nothing counted). */
    twostate predicate Counted(c: Option<Context>, t: EntityType)
      requires doc.status != null
      reads doc.status
    {
      && (forall x :: doc.status.Counter(x) == old(doc.status.Counter(x)) + (if c == Some(x) then 1 else 0))
      && (forall x :: doc.status.ByType(x) == if c == Some(x) then AddToEntitiesByType(Some(t), old(doc.status.ByType(x)))
                                              else old(doc.status.ByType(x)))
    }

    /** Counts one structure in a context when statistics are logged. */
    method CountIn(c: Option<Context>, t: EntityType)
      requires Valid()
      modifies doc.status
      ensures Valid()
      ensures logStatus ==> Counted(c, t)
    {
      if logStatus && c.Some? {
        doc.status.Count(c.value, Some(t));
      }
    }

    /** The document after a vertex or face record was built and handed to
        its owner. Like every entity, the record takes the next slot of the
        entity store and is registered under its handle as it is built,
        before its owner is looked up; nothing else changes when there is no
        owner; otherwise the owner must be a container (else the cast
        throws, as it does when the handle found is a vertex's, the record's
        own included) and its data becomes the data with the record added. */
    twostate predicate AttachedTo(child: Entity, new r: Outcome<()>)
      reads this, doc
    {
      var id := |old(doc.entities)|;
      var stored := old(doc.entities) + [child];
      var refs := old(doc.refEntities)[child.common.handle := id];
      && doc.refEntities == refs
      && unchanged(doc`blockStore, doc`lastEntity)
      && match OwnerOf(refs, old(doc.lastEntity), child)
         case None => r.Ok? && doc.entities == stored
         case Some(owner) =>
           && owner < |stored|
           && match Attach(stored[owner].kind, child.kind)
              case Fail(f) => r == Fail(f) && doc.entities == stored
              case Ok(k) => r.Ok? && doc.entities == stored[owner := stored[owner].(kind := k)]
    }

    method AttachToOwner(child: Entity) returns (r: Outcome<()>)
      requires Valid() && child.parent.None?
      modifies doc`entities, doc`refEntities
      ensures Valid() && AttachedTo(child, r)
    {
      var id := doc.CreateEntity(child);
      doc.AddEntityByRef(id);
      var owner := OwnerOf(doc.refEntities, doc.lastEntity, child);
      if owner.Some? {
        var attached := Attach(doc.entities[owner.value].kind, child.kind);
        if attached.Fail? {
          return Fail(attached.failure);
        }
        doc.SetKind(owner.value, attached.value);
      }
      r := Ok(());
    }

    /** The document after an entity was built: it takes the next slot of
        the entity store and is registered under its handle; filed in a
        block, it joins the end of the block's list, takes the block as
        its parent and becomes the last entity added. The open block of the
        BLOCKS section must exist, or the filing throws. */
    twostate predicate Registered(e: Entity, blockContext: bool, new r: Outcome<()>)
      reads this, doc
    {
      var id := |old(doc.entities)|;
      var target := TargetOf(e, blockContext, blockIsReading, ignorePaperSpace);
      var slot := TargetSlot(target, newBlock);
      && doc.refEntities == old(doc.refEntities)[e.common.handle := id]
      && (target == OpenBlock && newBlock.None? ==> r == Fail(NullReference))
      && (target != OpenBlock && slot.None? ==> r.Ok?)
      && (slot.None? ==> doc.entities == old(doc.entities) + [e] && unchanged(doc`blockStore, doc`lastEntity))
      && (slot.Some? ==>
            && r.Ok?
            && slot.value < |old(doc.blockStore)|
            && doc.entities == old(doc.entities) + [e.(parent := slot)]
            && doc.blockStore == old(doc.blockStore)[slot.value := old(doc.blockStore[slot.value])
                                                       .(entities := old(doc.blockStore[slot.value].entities) + [id])]
            && doc.lastEntity == Some(id))
    }

    method Register(e: Entity, blockContext: bool) returns (r: Outcome<()>)
      requires Valid() && e.parent.None?
      modifies doc`blockStore, doc`entities, doc`refEntities, doc`lastEntity
      ensures Valid() && Registered(e, blockContext, r)
    {
      var id := doc.CreateEntity(e);
      doc.AddEntityByRef(id);
      var target := TargetOf(e, blockContext, blockIsReading, ignorePaperSpace);
      if target == OpenBlock && newBlock.None? {
        return Fail(NullReference);
      }
      var slot := TargetSlot(target, newBlock);
      if slot.Some? {
        doc.AddEntityToBlock(slot.value, id);
      }
      r := Ok(());
    }

    /** The document and statistics after filing the outcome of the
        constructor switch: an exception aborts the load and changes
        nothing; an unsupported type or a structure that built nothing
        changes no entity or block; a vertex or face record goes to the
        entity that owns it; any other entity built is registered and
        filed. The structure is then counted, unless it threw. */
    twostate predicate Filed(decided: Outcome<Decision>, t: EntityType, blockContext: bool, new r: Outcome<()>)
      reads this, doc, doc.status
    {
      && (decided.Fail? ==> r == Fail(decided.failure) && unchanged(doc))
      && (decided.Ok? && (decided.value.Unsupported? || decided.value.Skipped?) ==> r.Ok? && unchanged(doc))
      && (decided.Ok? && decided.value.AttachVertex? ==> AttachedTo(decided.value.child, r))
      && (decided.Ok? && decided.value.Place? ==> Registered(decided.value.entity, blockContext, r))
      && (logStatus ==>
            && doc.status != null
            && Counted(if r.Fail? || decided.Fail? then None
                       else CountedAs(decided.value, blockContext, blockIsReading, ignorePaperSpace), t))
    }

    /** The filing half of parseEntity. */
    method File(decided: Outcome<Decision>, t: EntityType, blockContext: bool) returns (r: Outcome<()>)
      requires Valid()
      requires decided.Ok? && decided.value.Place? ==> decided.value.entity.parent.None?
      requires decided.Ok? && decided.value.AttachVertex? ==> decided.value.child.parent.None?
      modifies doc`blockStore, doc`entities, doc`refEntities, doc`lastEntity, doc.status
      ensures Valid() && Filed(decided, t, blockContext, r)
      ensures var after := FiledInto(decided, blockContext, ignorePaperSpace, old(CurrentFiling()));
              && (r.Fail? <==> after.Fail?)
              && (r.Fail? ==> r.failure == after.failure)
              && (r.Ok? ==> CurrentFiling() == after.value)
    {
      if decided.Fail? {
        return Fail(decided.failure);
      }
      match decided.value
      case AttachVertex(child) =>
        r := FileRecord(child, t, blockContext);
      case Place(e) =>
        r := FileEntity(e, t, blockContext);
      case _ =>
        CountIn(CountedAs(decided.value, blockContext, blockIsReading, ignorePaperSpace), t);
        r := Ok(());
    }

    method FileRecord(child: Entity, t: EntityType, blockContext: bool) returns (r: Outcome<()>)
      requires Valid() && child.parent.None?
      modifies doc`entities, doc`refEntities, doc.status
      ensures Valid() && Filed(Ok(AttachVertex(child)), t, blockContext, r)
      ensures var after := Attached(old(CurrentFiling()), child);
              && (r.Fail? <==> after.Fail?)
              && (r.Fail? ==> r.failure == after.failure)
              && (r.Ok? ==> CurrentFiling() == after.value)
    {
      var owner := OwnerOf(doc.refEntities[child.common.handle := |doc.entities|], doc.lastEntity, child);
      if owner.None? {
        r := FileOwnerless(child, t, blockContext);
      } else {
        r := FileOwned(child, t, blockContext);
      }
    }

    /** FileRecord for a record that finds no owner. */
    method FileOwnerless(child: Entity, t: EntityType, blockContext: bool) returns (r: Outcome<()>)
      requires Valid() && child.parent.None?
      requires OwnerOf(doc.refEntities[child.common.handle := |doc.entities|], doc.lastEntity, child).None?
      modifies doc`entities, doc`refEntities, doc.status
      ensures Valid() && Filed(Ok(AttachVertex(child)), t, blockContext, r)
      ensures r.Ok? && CurrentFiling() == old(CurrentFiling()).(entities := old(doc.entities) + [child],
                                                                   refEntities := old(doc.refEntities)[child.common.handle := |old(doc.entities)|])
    {
      r := AttachToOwner(child);
      CountIn(CountedAs(AttachVertex(child), blockContext, blockIsReading, ignorePaperSpace), t);
    }

    /** FileRecord for a record handed to an owner. */
    method FileOwned(child: Entity, t: EntityType, blockContext: bool) returns (r: Outcome<()>)
      requires Valid() && child.parent.None?
      requires OwnerOf(doc.refEntities[child.common.handle := |doc.entities|], doc.lastEntity, child).Some?
      modifies doc`entities, doc`refEntities, doc.status
      ensures Valid() && Filed(Ok(AttachVertex(child)), t, blockContext, r)
      ensures var after := Attached(old(CurrentFiling()), child);
              && (r.Fail? <==> after.Fail?)
              && (r.Fail? ==> r.failure == after.failure)
              && (r.Ok? ==> CurrentFiling() == after.value)
    {
      r := AttachToOwner(child);
      if r.Ok? {
        CountIn(CountedAs(AttachVertex(child), blockContext, blockIsReading, ignorePaperSpace), t);
      }
      assert AttachedTo(child, r);
    }

    method FileEntity(e: Entity, t: EntityType, blockContext: bool) returns (r: Outcome<()>)
      requires Valid() && e.parent.None?
      modifies doc`blockStore, doc`entities, doc`refEntities, doc`lastEntity, doc.status
      ensures Valid() && Filed(Ok(Place(e)), t, blockContext, r)
      ensures var after := Placed(old(CurrentFiling()), e, blockContext, ignorePaperSpace);
              && (r.Fail? <==> after.Fail?)
              && (r.Fail? ==> r.failure == after.failure)
              && (r.Ok? ==> CurrentFiling() == after.value)
    {
      var target := TargetOf(e, blockContext, blockIsReading, ignorePaperSpace);
      if target == OpenBlock && newBlock.None? {
        r := Register(e, blockContext);
      } else if TargetSlot(target, newBlock).None? {
        r := FileUnfiled(e, t, blockContext);
      } else {
        r := FileInBlock(e, t, blockContext);
      }
    }

    /** FileEntity for an entity that joins no block. */
    method FileUnfiled(e: Entity, t: EntityType, blockContext: bool) returns (r: Outcome<()>)
      requires Valid() && e.parent.None?
      requires TargetOf(e, blockContext, blockIsReading, ignorePaperSpace) != OpenBlock
      requires TargetSlot(TargetOf(e, blockContext, blockIsReading, ignorePaperSpace), newBlock).None?
      modifies doc`blockStore, doc`entities, doc`refEntities, doc`lastEntity, doc.status
      ensures Valid() && Filed(Ok(Place(e)), t, blockContext, r)
      ensures r.Ok? && CurrentFiling() == old(CurrentFiling()).(entities := old(doc.entities) + [e],
                                                                   refEntities := old(doc.refEntities)[e.common.handle := |old(doc.entities)|])
    {
      r := Register(e, blockContext);
      CountIn(CountedAs(Place(e), blockContext, blockIsReading, ignorePaperSpace), t);
    }

    /** FileEntity for an entity filed in a block. */
    method FileInBlock(e: Entity, t: EntityType, blockContext: bool) returns (r: Outcome<()>)
      requires Valid() && e.parent.None?
      requires TargetSlot(TargetOf(e, blockContext, blockIsReading, ignorePaperSpace), newBlock).Some?
      modifies doc`blockStore, doc`entities, doc`refEntities, doc`lastEntity, doc.status
      ensures Valid() && Filed(Ok(Place(e)), t, blockContext, r)
      ensures var after := Placed(old(CurrentFiling()), e, blockContext, ignorePaperSpace);
              r.Ok? && after.Ok? && CurrentFiling() == after.value
    {
      r := Register(e, blockContext);
      CountIn(CountedAs(Place(e), blockContext, blockIsReading, ignorePaperSpace), t);
    }

    /** parseEntity: the constructor switch, then the filing. */
    method ParseEntity(ps: seq<Pair>, t: EntityType, blockContext: bool) returns (r: Outcome<()>)
      requires Valid()
      modifies doc`blockStore, doc`entities, doc`refEntities, doc`lastEntity, doc.status
      ensures Valid() && Filed(Decide(ns, trig, ps, t, ignorePaperSpace), t, blockContext, r)
      ensures var after := FiledInto(Decide(ns, trig, ps, t, ignorePaperSpace), blockContext, ignorePaperSpace,
                                     old(CurrentFiling()));
              && (r.Fail? <==> after.Fail?)
              && (r.Fail? ==> r.failure == after.failure)
              && (r.Ok? ==> CurrentFiling() == after.value)
    {
      r := File(Decide(ns, trig, ps, t, ignorePaperSpace), t, blockContext);
    }
  
    /** One case of the switch on a header variable (code 9) of
        parseHeaderVariables: the position after the values it reads, the
        settings changed as the iteration step says, or its exception. */
    method SetHeaderVariable(ps: seq<Pair>, i: nat) returns (r: Outcome<nat>)
      requires Valid() && i < |ps| && ps[i].code == 9
      modifies doc`arrows, doc`distanceUnit, doc`lineTypeScale, doc`limitsMin, doc`limitsMax
      ensures Valid()
      ensures var step := HeaderStep(ns, ps, i, old(HeaderOf(doc)));
              && (r.Fail? <==> step.Fail?)
              && (r.Fail? ==> r.failure == step.failure)
              && (r.Ok? ==> r.value == step.value.0 && HeaderOf(doc) == step.value.1)
    {
      var variable := Upper(ps[i].value);
      if IsArrowVariable(variable) {
        r := SetArrow(ps, i);
      } else if variable == "$INSUNITS" || variable == "$LTSCALE" {
        r := SetUnitOrScale(ps, i);
      } else if variable == "$LIMMIN" || variable == "$LIMMAX" {
        r := SetLimit(ps, i);
      } else {
        r := Ok(i + 1);
      }
    }

    /** The arrow block cases: a value that is not blank names an arrow
        block. */
    method SetArrow(ps: seq<Pair>, i: nat) returns (r: Outcome<nat>)
      requires Valid() && i < |ps| && ps[i].code == 9 && IsArrowVariable(Upper(ps[i].value))
      modifies doc`arrows
      ensures Valid()
      ensures var step := HeaderStep(ns, ps, i, old(HeaderOf(doc)));
              && (r.Fail? <==> step.Fail?)
              && (r.Fail? ==> r.failure == step.failure)
              && (r.Ok? ==> r.value == step.value.0 && HeaderOf(doc) == step.value.1)
    {
      var v := NextValue(ps, i + 1);
      if v.Fail? {
        return Fail(v.failure);
      }
      if !IsBlank(v.value) {
        doc.AddArrowBlock(v.value);
      }
      r := Ok(i + 2);
    }

    /** The $INSUNITS case (a strict integer unit index) and the $LTSCALE
        case (a double). */
    method SetUnitOrScale(ps: seq<Pair>, i: nat) returns (r: Outcome<nat>)
      requires Valid() && i < |ps| && ps[i].code == 9
      requires Upper(ps[i].value) == "$INSUNITS" || Upper(ps[i].value) == "$LTSCALE"
      modifies doc`distanceUnit, doc`lineTypeScale
      ensures Valid()
      ensures var step := HeaderStep(ns, ps, i, old(HeaderOf(doc)));
              && (r.Fail? <==> step.Fail?)
              && (r.Fail? ==> r.failure == step.failure)
              && (r.Ok? ==> r.value == step.value.0 && HeaderOf(doc) == step.value.1)
    {
      var variable := Upper(ps[i].value);
      assert !IsArrowVariable(variable);
      var v := NextValue(ps, i + 1);
      if v.Fail? {
        return Fail(v.failure);
      }
      if variable == "$INSUNITS" {
        var index := StrictInteger(Some(v.value));
        if index.Fail? {
          return Fail(index.failure);
        }
        doc.SetDistanceUnit(IndexToDistanceUnit(index.value));
      } else {
        var scale := ParseDouble(ns, Some(v.value));
        if scale.Fail? {
          return Fail(scale.failure);
        }
        doc.SetGlobalLineTypeScale(scale.value);
      }
      r := Ok(i + 2);
    }

    /** The $LIMMIN and $LIMMAX cases: x and y from the next two values. */
    method SetLimit(ps: seq<Pair>, i: nat) returns (r: Outcome<nat>)
      requires Valid() && i < |ps| && ps[i].code == 9
      requires Upper(ps[i].value) == "$LIMMIN" || Upper(ps[i].value) == "$LIMMAX"
      modifies doc`limitsMin, doc`limitsMax
      ensures Valid()
      ensures var step := HeaderStep(ns, ps, i, old(HeaderOf(doc)));
              && (r.Fail? <==> step.Fail?)
              && (r.Fail? ==> r.failure == step.failure)
              && (r.Ok? ==> r.value == step.value.0 && HeaderOf(doc) == step.value.1)
    {
      var variable := Upper(ps[i].value);
      assert !IsArrowVariable(variable);
      var vx := NextValue(ps, i + 1);
      if vx.Fail? {
        return Fail(vx.failure);
      }
      var x := ParseDouble(ns, Some(vx.value));
      if x.Fail? {
        return Fail(x.failure);
      }
      var vy := NextValue(ps, i + 2);
      if vy.Fail? {
        return Fail(vy.failure);
      }
      var y := ParseDouble(ns, Some(vy.value));
      if y.Fail? {
        return Fail(y.failure);
      }
      if variable == "$LIMMIN" {
        doc.SetLimitsMin(x.value, y.value);
      } else {
        doc.SetLimitsMax(x.value, y.value);
      }
      r := Ok(i + 3);
    }

    /** parseHeaderVariables: the header settings become those the
        iteration over the pairs gives, or the load is aborted by the first
        exception. */
    method ParseHeaderVariables(ps: seq<Pair>) returns (r: Outcome<()>)
      requires Valid()
      modifies doc`arrows, doc`distanceUnit, doc`lineTypeScale, doc`limitsMin, doc`limitsMax
      ensures Valid()
      ensures var expected := ApplyHeader(ns, ps, old(HeaderOf(doc)));
              && (r.Fail? <==> expected.Fail?)
              && (r.Fail? ==> r.failure == expected.failure)
              && (r.Ok? ==> HeaderOf(doc) == expected.value)
    {
      var i := 0;
      while i < |ps|
        invariant i <= |ps| && Valid()
        invariant ApplyHeader(ns, ps, old(HeaderOf(doc))) == HeaderFrom(ns, ps, i, HeaderOf(doc))
        decreases |ps| - i
      {
        if ps[i].code != 9 {
          i := i + 1;
        } else {
          var next := SetHeaderVariable(ps, i);
          if next.Fail? {
            return Fail(next.failure);
          }
          i := next.value;
        }
      }
      r := Ok(());
    }

    /** The pattern of an LTYPE record: none unless the dash count is
        positive, and then read as ReadPattern reads it. */
    method ReadPatternArgument(ps: seq<Pair>, count: int) returns (r: Outcome<Option<seq<real>>>)
      ensures r == PatternArgument(ns, ps, count)
    {
      if count <= 0 {
        return Ok(None);
      }
      var read := ReadPattern(ps, count);
      if read.Fail? {
        return Fail(read.failure);
      }
      r := Ok(Some(read.value));
    }

    /** The pattern loop of an LTYPE record, as evidently intended: the
        array holds one entry per declared dash, filled from the code-49
        values in order until it is full or the values run out; the first
        value that does not parse aborts the load. */
    method ReadPattern(ps: seq<Pair>, count: nat) returns (r: Outcome<seq<real>>)
      ensures r == PatternOf(ns, ValuesOf(ps, 49), count)
    {
      var pattern := new real[count];
      forall j | 0 <= j < count {
        pattern[j] := 0.0;
      }
      var it := new ValueIterator(ps, 49);
      var filled := FillPattern(pattern, it);
      if filled.Fail? {
        return Fail(filled.failure);
      }
      PatternOfFilled(ns, ValuesOf(ps, 49), count, pattern[..], filled.value);
      r := Ok(pattern[..]);
    }

    /** The loop of ReadPattern: stores the parsed values the iterator
        hands out, from the start of the zeroed array, until the array is
        full or the values run out, and answers how many it stored. */
    method FillPattern(pattern: array<real>, it: ValueIterator) returns (r: Outcome<nat>)
      requires it.Valid() && forall j :: 0 <= j < pattern.Length ==> pattern[j] == 0.0
      modifies pattern, it
      ensures var vs := old(it.Remaining());
              && (r.Fail? ==> PatternOf(ns, vs, pattern.Length) == Fail(r.failure))
              && (r.Ok? ==> && r.value <= pattern.Length && r.value <= |vs|
                            && (r.value == pattern.Length || r.value == |vs|)
                            && (forall j :: 0 <= j < r.value ==> ParseDouble(ns, Some(vs[j])) == Ok(pattern[j]))
                            && forall j :: r.value <= j < pattern.Length ==> pattern[j] == 0.0)
    {
      ghost var vs := it.Remaining();
      var i := 0;
      while i < pattern.Length
        invariant i <= pattern.Length && i <= |vs| && it.Valid() && it.Remaining() == vs[i..]
        invariant forall j :: 0 <= j < i ==> ParseDouble(ns, Some(vs[j])) == Ok(pattern[j])
        invariant forall j :: i <= j < pattern.Length ==> pattern[j] == 0.0
        decreases pattern.Length - i
      {
        var more, x := NextDash(it, vs, i);
        if !more {
          break;
        }
        if x.Fail? {
          PatternPrefixFails(ns, vs, pattern.Length, i);
          return Fail(x.failure);
        }
        pattern[i] := x.value;
        i := i + 1;
      }
      r := Ok(i);
    }

    /** One turn of the pattern loop: hasNext, and when it holds, next
        parsed as a double. */
    method NextDash(it: ValueIterator, ghost vs: seq<string>, ghost i: nat) returns (more: bool, x: Outcome<real>)
      requires it.Valid() && i <= |vs| && it.Remaining() == vs[i..]
      modifies it
      ensures it.Valid()
      ensures more <==> i < |vs|
      ensures more ==> x == ParseDouble(ns, Some(vs[i])) && it.Remaining() == vs[i + 1..]
    {
      more := it.HasNext();
      x := Fail(NoSuchElement);
      if more {
        var v := it.Next();
        assert vs[i..][0] == vs[i] && vs[i..][1..] == vs[i + 1..];
        x := ParseDouble(ns, Some(v.value));
      }
    }

    /** parseTable for the LAYER table: the layer of the record is filed
        under its name, or the load is aborted and no layer changes. */
    method ParseLayer(ps: seq<Pair>) returns (r: Outcome<()>)
      requires Valid()
      modifies doc`layers
      ensures Valid()
      ensures var after := RecordInto(ns, LayerTable, old(TablesOf(doc)), ps);
              && (r.Fail? <==> after.Fail?)
              && (r.Fail? ==> r.failure == after.failure && TablesOf(doc) == old(TablesOf(doc)))
              && (r.Ok? ==> TablesOf(doc) == after.value)
    {
      var flags := StrictInteger(GetValueOr(ps, 70, Some("0")));
      if flags.Fail? {
        return Fail(flags.failure);
      }
      var name := GetValue(ps, 2);
      var lineType := GetValue(ps, 6);
      var color := StrictInteger(GetValue(ps, 62));
      if color.Fail? {
        return Fail(color.failure);
      }
      var layer := doc.AddLayer(name, flags.value, color.value, lineType);
      if layer.Fail? {
        return Fail(layer.failure);
      }
      r := Ok(());
    }

    /** parseTable for the LTYPE table: the line type of the record is
        filed under its name, or the load is aborted and no line type
        changes. */
    method ParseLineType(ps: seq<Pair>) returns (r: Outcome<()>)
      requires Valid()
      modifies doc`lineTypes
      ensures Valid()
      ensures var after := RecordInto(ns, LTypeTable, old(TablesOf(doc)), ps);
              && (r.Fail? <==> after.Fail?)
              && (r.Fail? ==> r.failure == after.failure && TablesOf(doc) == old(TablesOf(doc)))
              && (r.Ok? ==> TablesOf(doc) == after.value)
    {
      var numbers := LineTypeNumbers(ns, ps);
      if numbers.Fail? {
        return Fail(numbers.failure);
      }
      r := FileLineType(ps, numbers.value);
    }

    /** The rest of parseTable for the LTYPE table once the record's
        numbers are read: the pattern, then the line type itself. */
    method FileLineType(ps: seq<Pair>, numbers: (int, int, int, real)) returns (r: Outcome<()>)
      requires Valid() && LineTypeNumbers(ns, ps) == Ok(numbers)
      modifies doc`lineTypes
      ensures Valid()
      ensures var after := RecordInto(ns, LTypeTable, old(TablesOf(doc)), ps);
              && (r.Fail? <==> after.Fail?)
              && (r.Fail? ==> r.failure == after.failure && TablesOf(doc) == old(TablesOf(doc)))
              && (r.Ok? ==> TablesOf(doc) == after.value)
    {
      var (flags, complexFlags, count, patternLength) := numbers;
      var name := GetValue(ps, 2);
      var description := GetValueOr(ps, 3, Some("")).value;
      var pattern := ReadPatternArgument(ps, count);
      if pattern.Fail? {
        return Fail(pattern.failure);
      }
      var lineType := doc.AddLineType(name, flags, complexFlags, description, count, pattern.value, patternLength);
      if lineType.Fail? {
        return Fail(lineType.failure);
      }
      r := Ok(());
    }

    /** parseTable: a record of the LAYER or LTYPE table is added to the
        document; records of every other table are passed over. */
    method ParseTable(ps: seq<Pair>, name: string) returns (r: Outcome<()>)
      requires Valid()
      modifies doc`layers, doc`lineTypes
      ensures Valid()
      ensures var after := RecordInto(ns, entry, old(TablesOf(doc)), ps);
              && (r.Fail? <==> after.Fail?)
              && (r.Fail? ==> r.failure == after.failure && TablesOf(doc) == old(TablesOf(doc)))
              && (r.Ok? ==> TablesOf(doc) == after.value)
    {
      match entry
      case LayerTable =>
        r := ParseLayer(ps);
      case LTypeTable =>
        r := ParseLineType(ps);
      case _ =>
        r := Ok(());
    }

    /** read: the arrow blocks named in the header take the arrow
        overrides once the whole file is read. */
    method Read()
      requires Valid()
      modifies doc`blockStore
      ensures Valid()
      ensures doc.blockStore == OverrideArrows(old(doc.blockStore), doc.blocks, PE.Listed(doc.arrows))
    {
      doc.Initialize();
    }
  }
}
