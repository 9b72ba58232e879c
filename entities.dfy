// The properties every drawing entity shares, read from its pair list when
// it is constructed; the number readers the entity decoders use; and the
// rules that resolve an entity's colour and line type when it is drawn.
module Entities {
  import opened Results
  import opened Text
  import opened Numerics
  import opened Pairs
  import opened Geometry
  import opened EntityTypes

  /** Colour index 0 defers to the block being drawn, 256 to the layer. */
  const ColorByBlock: int := 0
  const ColorByLayer: int := 256

  /** Which parser reads the numbers of an entity: the library's lenient
      NumberUtilities parsers or the platform's Double.parseDouble and
      Integer.parseInt. */
  datatype Parsing = Lenient | Strict

  /** Integer.parseInt on a value that may be null: null and malformed
      text both throw. */
  function StrictInteger(v: Option<string>): (r: Outcome<int>)
    ensures r.Ok? <==> v.Some? && ParseInt(v.value).Some?
    ensures r.Ok? ==> r.value == ParseInt(v.value).value && IsInt32(r.value)
  {
    if v.None? then Fail(MalformedNumber(None))
    else match ParseInt(v.value)
      case None => Fail(MalformedNumber(v))
      case Some(n) => Ok(n)
  }

  function ReadReal(ns: NumberSyntax, p: Parsing, v: Option<string>): Outcome<real>
  {
    if p == Lenient then LenientDouble(ns, v) else ParseDouble(ns, v)
  }

  function ReadInteger(ns: NumberSyntax, p: Parsing, v: Option<string>): Outcome<int>
  {
    if p == Lenient then LenientInteger(ns, v) else StrictInteger(v)
  }

  /** getValue(k) read as a number (no default: an absent code hands null
      to the parser). */
  function RealAt(ns: NumberSyntax, p: Parsing, ps: seq<Pair>, code: int): Outcome<real>
  {
    ReadReal(ns, p, GetValue(ps, code))
  }

  /** getValue(k, default) read as a number. */
  function RealOr(ns: NumberSyntax, p: Parsing, ps: seq<Pair>, code: int, default: string): Outcome<real>
  {
    ReadReal(ns, p, GetValueOr(ps, code, Some(default)))
  }

  function IntegerAt(ns: NumberSyntax, p: Parsing, ps: seq<Pair>, code: int): Outcome<int>
  {
    ReadInteger(ns, p, GetValue(ps, code))
  }

  function IntegerOr(ns: NumberSyntax, p: Parsing, ps: seq<Pair>, code: int, default: string): Outcome<int>
  {
    ReadInteger(ns, p, GetValueOr(ps, code, Some(default)))
  }

  /** A point from three codes with no default. */
  function PointAt(ns: NumberSyntax, p: Parsing, ps: seq<Pair>, cx: int, cy: int, cz: int): Outcome<Point>
  {
    var x :- RealAt(ns, p, ps, cx);
    var y :- RealAt(ns, p, ps, cy);
    var z :- RealAt(ns, p, ps, cz);
    Ok(Point(x, y, z))
  }

  /** A point from three codes, each "0" when absent. */
  function PointOr0(ns: NumberSyntax, p: Parsing, ps: seq<Pair>, cx: int, cy: int, cz: int): Outcome<Point>
  {
    var x :- RealOr(ns, p, ps, cx, "0");
    var y :- RealOr(ns, p, ps, cy, "0");
    var z :- RealOr(ns, p, ps, cz, "0");
    Ok(Point(x, y, z))
  }

  /** The parsers read the default literals the decoders supply as the
      numbers they denote. */
  predicate ReadsDefaults(ns: NumberSyntax)
  {
    && ns.lenientInteger(Some("0")) == Some(0)
    && ns.lenientInteger(Some("-1")) == Some(-1)
    && ns.lenientInteger(Some("256")) == Some(256)
    && ns.lenientDouble(Some("0")) == Some(0.0)
    && ns.lenientDouble(Some("1")) == Some(1.0)
    && ns.parseDouble("0") == Some(0.0)
  }

  /** A default literal is read as its number by either parser. */
  lemma {:induction false} ReadDefaults(ns: NumberSyntax, p: Parsing)
    requires ReadsDefaults(ns)
    ensures ReadReal(ns, p, Some("0")) == Ok(0.0)
    ensures ReadInteger(ns, p, Some("0")) == Ok(0)
    ensures ReadInteger(ns, p, Some("-1")) == Ok(-1)
  {
    assert ParseInt("0") == Some(0) by { assert "0"[0] == '0'; }
    assert ParseInt("-1") == Some(-1) by { assert "-1"[1..] == "1"; }
  }

  /** The shared properties of an entity: its type, the handle (code 5) and
      owner (code 330) it is registered under, whether it lies in paper
      space (code 67), its layer name (code 8, possibly missing), colour
      index (code 62), line-type name (code 6), line-type scale (code 48)
      and visibility (code 60). */
  datatype Common = Common(
    entityType: EntityType,
    handle: Option<string>,
    ownerId: Option<string>,
    inPaperSpace: bool,
    layer: Option<string>,
    colorIndex: int,
    lineType: string,
    lineTypeScale: real,
    visible: bool)

  /** The pairs the shared properties are read from: the AcDbEntity
      sub-range when there is one, the whole list otherwise. */
  function EntityPairs(ps: seq<Pair>): seq<Pair>
  {
    match SubclassPairs(ps, "AcDbEntity")
    case None => ps
    case Some(sub) => sub
  }

  /** Whether the entity is flagged as lying in paper space (code 67, "0"
      when absent, read as an integer that is non-zero). */
  function InPaperSpace(ns: NumberSyntax, ps: seq<Pair>): Outcome<bool>
  {
    var flag :- LenientInteger(ns, GetValueOr(EntityPairs(ps), 67, Some("0")));
    Ok(flag != 0)
  }

  /** parseCommonProperties. None is the rejection the constructor turns
      into a reader exception: the entity lies in paper space and paper
      space is ignored. Handle and owner come from the whole list, the other
      properties from the AcDbEntity range; a number that does not parse
      aborts the load. */
  function DecodeCommon(ns: NumberSyntax, ps: seq<Pair>, t: EntityType, ignorePaperSpace: bool)
    : (r: Outcome<Option<Common>>)
    ensures InPaperSpace(ns, ps).Fail? ==> r.Fail?
    ensures r.Ok? ==> InPaperSpace(ns, ps).Ok?
    ensures r.Ok? ==> (r.value.None? <==> InPaperSpace(ns, ps).value && ignorePaperSpace)
    ensures r.Ok? && r.value.Some? ==>
              var c := r.value.value;
              && c.entityType == t
              && c.handle == GetValue(ps, 5)
              && c.ownerId == GetValue(ps, 330)
              && c.inPaperSpace == InPaperSpace(ns, ps).value
              && c.layer == GetValue(EntityPairs(ps), 8)
              && Some(c.lineType) == GetValueOr(EntityPairs(ps), 6, Some("BYLAYER"))
  {
    var pce := EntityPairs(ps);
    var inPaperSpace :- InPaperSpace(ns, ps);
    if inPaperSpace && ignorePaperSpace then Ok(None)
    else
      var color :- LenientInteger(ns, GetValueOr(pce, 62, Some("256")));
      var lineTypeScale :- LenientDouble(ns, GetValueOr(pce, 48, Some("1")));
      var visible :- LenientInteger(ns, GetValueOr(pce, 60, Some("0")));
      Ok(Some(Common(t, GetValue(ps, 5), GetValue(ps, 330), inPaperSpace, GetValue(pce, 8),
                     color, GetValueOr(pce, 6, Some("BYLAYER")).value, lineTypeScale, visible != 0)))
  }

  /** An entity that states none of its shared properties lies in model
      space with no layer name, takes its colour and line type from the
      layer, has line-type scale 1 and is flagged invisible. */
  lemma DecodeCommonDefaults(ns: NumberSyntax, ps: seq<Pair>, t: EntityType, ignorePaperSpace: bool)
    requires ReadsDefaults(ns)
    requires forall j :: 0 <= j < |ps| ==> ps[j].code !in {5, 6, 8, 48, 60, 62, 67, 100, 330}
    ensures DecodeCommon(ns, ps, t, ignorePaperSpace)
            == Ok(Some(Common(t, None, None, false, None, ColorByLayer, "BYLAYER", 1.0, false)))
  {
    assert SubclassPairs(ps, "AcDbEntity").None? by {
      assert forall j :: 0 <= j < |ps| ==> ps[j] != Pair(SubclassMarker, "AcDbEntity");
    }
  }

  /** Paper-space entities are rejected exactly when paper space is
      ignored; everything else is kept with its paper-space flag. */
  lemma DecodeCommonPaperSpace(ns: NumberSyntax, ps: seq<Pair>, t: EntityType)
    requires InPaperSpace(ns, ps) == Ok(true)
    ensures DecodeCommon(ns, ps, t, true) == Ok(None)
    ensures DecodeCommon(ns, ps, t, false).Ok? ==> DecodeCommon(ns, ps, t, false).value.value.inPaperSpace
  {
  }

  /** Inside an AcDbEntity range only that range counts: a layer written
      before the marker is not the entity's layer. */
  lemma DecodeCommonUsesSubclassRange(ns: NumberSyntax)
    requires ReadsDefaults(ns)
    ensures var ps := [Pair(8, "OUTSIDE"), Pair(100, "AcDbEntity"), Pair(8, "INSIDE"), Pair(100, "AcDbLine")];
            var r := DecodeCommon(ns, ps, LINE, false);
            r.Ok? && r.value.Some? && r.value.value.layer == Some("INSIDE")
  {
    var ps := [Pair(8, "OUTSIDE"), Pair(100, "AcDbEntity"), Pair(8, "INSIDE"), Pair(100, "AcDbLine")];
    assert MarkerIndex(ps, "AcDbEntity") == Some(1);
    assert UpToMarker(ps[2..]) == [Pair(8, "INSIDE")];
    assert EntityPairs(ps) == [Pair(8, "INSIDE")];
  }

  /** getRealColorIndex, which is also the index getColor turns into a
      colour: the block override's colour when one is set, the entity's
      own otherwise; ByBlock then takes the current colour of the
      containing block (none is a null dereference) and ByLayer the layer's
      colour. */
  function RealColorIndex(overriding: Option<int>, colorIndex: int, blockColor: Option<int>, layerColor: int)
    : (r: Outcome<int>)
    ensures r.Fail? ==> r.failure == NullReference
  {
    var c := if overriding.Some? then overriding.value else colorIndex;
    if c == ColorByBlock then
      if blockColor.None? then Fail(NullReference) else Ok(blockColor.value)
    else if c == ColorByLayer then Ok(layerColor)
    else Ok(c)
  }

  /** An explicit colour is used as it is, ByBlock and ByLayer are
      replaced, and an override wins over the entity's own colour. */
  lemma RealColorIndexCases(overriding: Option<int>, colorIndex: int, blockColor: Option<int>, layerColor: int)
    ensures var c := if overriding.Some? then overriding.value else colorIndex;
            var r := RealColorIndex(overriding, colorIndex, blockColor, layerColor);
            && (c != ColorByBlock && c != ColorByLayer ==> r == Ok(c))
            && (c == ColorByLayer ==> r == Ok(layerColor))
            && (c == ColorByBlock ==> (r.Ok? <==> blockColor.Some?) && (r.Ok? ==> r.value == blockColor.value))
  {
  }

  /** Once the block and layer colours are explicit, the resolved colour is
      explicit too and resolving it again changes nothing. */
  lemma RealColorIndexIdempotent(overriding: Option<int>, colorIndex: int, blockColor: int, layerColor: int,
                                 blockColor': Option<int>, layerColor': int)
    requires blockColor !in {ColorByBlock, ColorByLayer} && layerColor !in {ColorByBlock, ColorByLayer}
    ensures var r := RealColorIndex(overriding, colorIndex, Some(blockColor), layerColor);
            r.Ok? && r.value !in {ColorByBlock, ColorByLayer}
            && RealColorIndex(None, r.value, blockColor', layerColor') == r
  {
  }

  /** Where getLineType looks the entity's line type up. */
  datatype LineTypeSource = FromLayer | FromBlock | Named(name: string)

  /** getLineType: "BYLAYER" (any case) names the layer's line type,
      "BYBLOCK" (any case) the containing block's current one, anything
      else is looked up by its own name. */
  function LineTypeSourceOf(lineType: string): (r: LineTypeSource)
    ensures r.Named? ==> r.name == lineType
  {
    if EqualsIgnoreCase(lineType, "BYLAYER") then FromLayer
    else if EqualsIgnoreCase(lineType, "BYBLOCK") then FromBlock
    else Named(lineType)
  }

  /** The keywords are recognised in any case and are the only names that
      are not looked up as themselves. */
  lemma LineTypeSourceKeywords(lineType: string)
    ensures LineTypeSourceOf(lineType) == FromLayer <==> Upper(lineType) == "BYLAYER"
    ensures LineTypeSourceOf(lineType) == FromBlock <==> Upper(lineType) == "BYBLOCK"
    ensures LineTypeSourceOf(lineType) == Named(lineType)
            <==> Upper(lineType) != "BYLAYER" && Upper(lineType) != "BYBLOCK"
  {
    assert Upper("BYLAYER") == "BYLAYER";
    assert Upper("BYBLOCK") == "BYBLOCK";
  }
}
