// LWPOLYLINE: the lightweight polyline that carries its vertices in its own
// pair list, read by a scanner that starts a vertex at each code 10.
module LwPolylines {
  import opened Results
  import opened Numerics
  import opened Pairs
  import opened Geometry
  import opened Shapes
  import opened Entities
  import opened Polylines
  import PE = PolylineEntities

  /** The state of the vertex scan: the vertices read so far, the last one
      being the vertex that codes 20 to 42 update, and the width flag. */
  datatype Scan = Scan(vertices: seq<PolyVertex>, hasWidth: bool)

  /** The vertex codes 20 to 42 update: the last one started, or the
      placeholder the scan starts with, which is never stored. */
  function Current(st: Scan): PolyVertex
  {
    if st.vertices == [] then PolyVertex(0.0, 0.0, 0.0, 0.0, 0.0, 0.0) else st.vertices[|st.vertices| - 1]
  }

  /** The scan with its current vertex replaced. */
  function WithCurrent(st: Scan, pv: PolyVertex): Scan
  {
    if st.vertices == [] then st else st.(vertices := st.vertices[..|st.vertices| - 1] + [pv])
  }

  /** One pair of the scan, with constant width cw: code 10 starts a vertex
      at that x with both widths cw; 20 and 30 set its y and z; 40 and 41
      set its widths, and may set the width flag, only when cw is not above
      0; 42 sets its bulge; every other code is skipped. */
  function ScanStep(ns: NumberSyntax, cw: real, st: Scan, p: Pair): Outcome<Scan>
  {
    if p.code == 10 then
      var x :- LenientDouble(ns, Some(p.value));
      Ok(st.(vertices := st.vertices + [PolyVertex(x, 0.0, 0.0, cw, cw, 0.0)]))
    else if p.code == 20 then
      var y :- LenientDouble(ns, Some(p.value));
      Ok(WithCurrent(st, Current(st).(y := y)))
    else if p.code == 30 then
      var z :- LenientDouble(ns, Some(p.value));
      Ok(WithCurrent(st, Current(st).(z := z)))
    else if p.code == 40 && cw <= 0.0 then
      var w :- LenientDouble(ns, Some(p.value));
      Ok(WithCurrent(st, Current(st).(startWidth := w)).(hasWidth := st.hasWidth || w > 0.0))
    else if p.code == 41 && cw <= 0.0 then
      var w :- LenientDouble(ns, Some(p.value));
      Ok(WithCurrent(st, Current(st).(endWidth := w)).(hasWidth := st.hasWidth || w > 0.0))
    else if p.code == 42 then
      var b :- LenientDouble(ns, Some(p.value));
      Ok(WithCurrent(st, Current(st).(bulge := b)))
    else Ok(st)
  }

  /** The scan over a list of pairs, in order, stopping at the first value
      that does not parse. */
  function ScanAll(ns: NumberSyntax, cw: real, st: Scan, ps: seq<Pair>): Outcome<Scan>
    decreases |ps|
  {
    if ps == [] then Ok(st)
    else
      var next :- ScanStep(ns, cw, st, ps[0]);
      ScanAll(ns, cw, next, ps[1..])
  }

  /** Whether the scan reads the value of a pair, and so whether that value
      must parse. */
  predicate Reads(cw: real, p: Pair)
  {
    p.code in {10, 20, 30, 42} || (p.code in {40, 41} && cw <= 0.0)
  }

  /** Whether a pair gives the current vertex a width above 0. */
  predicate GivesWidth(ns: NumberSyntax, cw: real, p: Pair)
  {
    cw <= 0.0 && p.code in {40, 41} && ns.lenientDouble(Some(p.value)).Some?
    && ns.lenientDouble(Some(p.value)).value > 0.0
  }

  /** The scan succeeds exactly when every value it reads parses. */
  lemma {:induction false} ScanAllSucceeds(ns: NumberSyntax, cw: real, st: Scan, ps: seq<Pair>)
    ensures ScanAll(ns, cw, st, ps).Ok?
            <==> forall j :: 0 <= j < |ps| && Reads(cw, ps[j]) ==> ns.lenientDouble(Some(ps[j].value)).Some?
    decreases |ps|
  {
    if ps != [] {
      var step := ScanStep(ns, cw, st, ps[0]);
      if step.Ok? {
        ScanAllSucceeds(ns, cw, step.value, ps[1..]);
      }
      assert forall j :: 1 <= j < |ps| ==> ps[1..][j - 1] == ps[j];
    }
  }

  /** Each code 10 adds exactly one vertex and no other code adds one. */
  lemma {:induction false} ScanAllCount(ns: NumberSyntax, cw: real, st: Scan, ps: seq<Pair>)
    requires ScanAll(ns, cw, st, ps).Ok?
    ensures |ScanAll(ns, cw, st, ps).value.vertices| == |st.vertices| + |ValuesOf(ps, 10)|
    decreases |ps|
  {
    if ps != [] {
      ScanAllCount(ns, cw, ScanStep(ns, cw, st, ps[0]).value, ps[1..]);
    }
  }

  /** The x of each vertex, in order. */
  function Xs(vs: seq<PolyVertex>): (r: seq<Option<real>>)
    ensures |r| == |vs|
  {
    seq(|vs|, i requires 0 <= i < |vs| => Some(vs[i].x))
  }

  /** Each value read as a number, in order. */
  function Parsed(ns: NumberSyntax, values: seq<string>): (r: seq<Option<real>>)
    ensures |r| == |values|
  {
    if values == [] then [] else [ns.lenientDouble(Some(values[0]))] + Parsed(ns, values[1..])
  }

  /** One step keeps the x of every vertex read, and code 10 adds one
      vertex at the x its value gives. */
  lemma ScanStepXs(ns: NumberSyntax, cw: real, st: Scan, p: Pair)
    requires ScanStep(ns, cw, st, p).Ok?
    ensures Xs(ScanStep(ns, cw, st, p).value.vertices)
            == Xs(st.vertices) + (if p.code == 10 then [ns.lenientDouble(Some(p.value))] else [])
  {
    var next := ScanStep(ns, cw, st, p).value;
    if p.code != 10 && st.vertices != [] {
      assert |next.vertices| == |st.vertices|;
      assert forall i :: 0 <= i < |st.vertices| ==> next.vertices[i].x == st.vertices[i].x;
    }
  }

  /** The vertices already read keep their x, and the vertices the scan
      starts take their x, in order, from the code-10 values. */
  lemma {:induction false} ScanAllXs(ns: NumberSyntax, cw: real, st: Scan, ps: seq<Pair>)
    requires ScanAll(ns, cw, st, ps).Ok?
    ensures Xs(ScanAll(ns, cw, st, ps).value.vertices) == Xs(st.vertices) + Parsed(ns, ValuesOf(ps, 10))
    decreases |ps|
  {
    if ps != [] {
      var next := ScanStep(ns, cw, st, ps[0]).value;
      ScanStepXs(ns, cw, st, ps[0]);
      ScanAllXs(ns, cw, next, ps[1..]);
      if ps[0].code == 10 {
        var vs := [ps[0].value] + ValuesOf(ps[1..], 10);
        assert ValuesOf(ps, 10) == vs;
        assert vs[1..] == ValuesOf(ps[1..], 10);
      } else {
        assert ValuesOf(ps, 10) == ValuesOf(ps[1..], 10);
      }
    }
  }

  /** Every vertex has a start and end width. */
  predicate WidthsAre(vs: seq<PolyVertex>, w: real)
  {
    forall i :: 0 <= i < |vs| ==> vs[i].startWidth == w && vs[i].endWidth == w
  }

  /** With a constant width above 0 every vertex has that width at both
      ends: the per-vertex codes 40 and 41 are skipped. */
  lemma {:induction false} ScanAllConstantWidth(ns: NumberSyntax, cw: real, st: Scan, ps: seq<Pair>)
    requires cw > 0.0 && WidthsAre(st.vertices, cw)
    requires ScanAll(ns, cw, st, ps).Ok?
    ensures WidthsAre(ScanAll(ns, cw, st, ps).value.vertices, cw)
    decreases |ps|
  {
    if ps != [] {
      var next := ScanStep(ns, cw, st, ps[0]).value;
      assert WidthsAre(next.vertices, cw) by {
        if st.vertices != [] && ps[0].code != 10 {
          assert Current(st).startWidth == cw && Current(st).endWidth == cw;
        }
      }
      ScanAllConstantWidth(ns, cw, next, ps[1..]);
    }
  }

  /** The width flag ends up true exactly when it was true already or some
      code 40 or 41 read gives a width above 0. */
  lemma {:induction false} ScanAllHasWidth(ns: NumberSyntax, cw: real, st: Scan, ps: seq<Pair>)
    requires ScanAll(ns, cw, st, ps).Ok?
    ensures ScanAll(ns, cw, st, ps).value.hasWidth
            <==> st.hasWidth || exists j :: 0 <= j < |ps| && GivesWidth(ns, cw, ps[j])
    decreases |ps|
  {
    if ps != [] {
      var next := ScanStep(ns, cw, st, ps[0]).value;
      ScanAllHasWidth(ns, cw, next, ps[1..]);
      assert next.hasWidth <==> st.hasWidth || GivesWidth(ns, cw, ps[0]);
      assert forall j :: 1 <= j < |ps| ==> ps[1..][j - 1] == ps[j];
      if exists j :: 0 <= j < |ps| && GivesWidth(ns, cw, ps[j]) {
        var j :| 0 <= j < |ps| && GivesWidth(ns, cw, ps[j]);
        if j > 0 {
          assert GivesWidth(ns, cw, ps[1..][j - 1]);
        }
      }
    }
  }

  /** parsePolylineVertices as a value: the declared vertex count n is
      only the capacity of the list, which must not be negative; the scan
      starts at the first code 10, and a list without one leaves the
      iterator null. */
  function PolylineVerticesOf(ns: NumberSyntax, n: int, cw: real, ps: seq<Pair>): (r: Outcome<Scan>)
    ensures n < 0 ==> r == Fail(IllegalCapacity(n))
    ensures n >= 0 && (forall j :: 0 <= j < |ps| ==> ps[j].code != 10) ==> r == Fail(NullReference)
  {
    if n < 0 then Fail(IllegalCapacity(n))
    else match PairsFrom(ps, 10)
      case None => Fail(NullReference)
      case Some(rest) => ScanAll(ns, cw, Scan([], cw > 0.0), rest)
  }

  /** parsePolylineVertices: the iterator from the first code 10 walked to
      the end of the list, each pair dispatched on its code. */
  method ParsePolylineVertices(ns: NumberSyntax, n: int, cw: real, ps: seq<Pair>) returns (r: Outcome<Scan>)
    ensures r == PolylineVerticesOf(ns, n, cw, ps)
  {
    if n < 0 {
      return Fail(IllegalCapacity(n));
    }
    var it := PairsFrom(ps, 10);
    if it.None? {
      return Fail(NullReference);
    }
    var rest := it.value;
    var vertices: seq<PolyVertex> := [];
    var hasWidth := cw > 0.0;
    var i := 0;
    while i < |rest|
      invariant 0 <= i <= |rest|
      invariant ScanAll(ns, cw, Scan(vertices, hasWidth), rest[i..]) == ScanAll(ns, cw, Scan([], cw > 0.0), rest)
    {
      var pair := rest[i];
      assert rest[i..][1..] == rest[i + 1..];
      ghost var st := Scan(vertices, hasWidth);
      var value := ns.lenientDouble(Some(pair.value));
      if pair.code == 10 {
        if value.None? {
          return Fail(MalformedNumber(Some(pair.value)));
        }
        vertices := vertices + [PolyVertex(value.value, 0.0, 0.0, cw, cw, 0.0)];
      } else if pair.code == 20 || pair.code == 30 || pair.code == 42 || (pair.code in {40, 41} && cw <= 0.0) {
        if value.None? {
          return Fail(MalformedNumber(Some(pair.value)));
        }
        var x := value.value;
        if vertices != [] {
          var current := vertices[|vertices| - 1];
          var updated := if pair.code == 20 then current.(y := x)
                         else if pair.code == 30 then current.(z := x)
                         else if pair.code == 40 then current.(startWidth := x)
                         else if pair.code == 41 then current.(endWidth := x)
                         else current.(bulge := x);
          vertices := vertices[..|vertices| - 1] + [updated];
        }
        if pair.code in {40, 41} {
          hasWidth := hasWidth || x > 0.0;
        }
      }
      assert ScanStep(ns, cw, st, pair) == Ok(Scan(vertices, hasWidth));
      i := i + 1;
    }
    return Ok(Scan(vertices, hasWidth));
  }

  /** DxfLwPolyline: the declared vertex count (code 90), flags (70),
      constant width (43), elevation (38), thickness (39), the vertices,
      the extrusion (210/220/230) and the width flag. */
  datatype LwPolylineData = LwPolylineData(
    numberOfVertices: int,
    flags: int,
    constantWidth: real,
    elevation: real,
    thickness: real,
    polyVertices: seq<PolyVertex>,
    extrusion: Point,
    hasWidth: bool)

  /** The LWPOLYLINE decoder: the declared count has no default, the other
      properties default to "0"; the width flag starts as "constant width
      above 0" and the vertex scan may set it. */
  function DecodeLwPolyline(ns: NumberSyntax, ps: seq<Pair>): (r: Outcome<LwPolylineData>)
    ensures r.Ok? ==> Ok(r.value.numberOfVertices) == LenientInteger(ns, GetValue(ps, 90))
                      && Ok(r.value.constantWidth) == RealOr(ns, Lenient, ps, 43, "0")
                      && Ok(r.value.flags) == IntegerOr(ns, Lenient, ps, 70, "0")
    ensures r.Ok? ==> PolylineVerticesOf(ns, r.value.numberOfVertices, r.value.constantWidth, ps)
                      == Ok(Scan(r.value.polyVertices, r.value.hasWidth))
  {
    var n :- LenientInteger(ns, GetValue(ps, 90));
    var flags :- IntegerOr(ns, Lenient, ps, 70, "0");
    var cw :- RealOr(ns, Lenient, ps, 43, "0");
    var elevation :- RealOr(ns, Lenient, ps, 38, "0");
    var thickness :- RealOr(ns, Lenient, ps, 39, "0");
    var scan :- PolylineVerticesOf(ns, n, cw, ps);
    var extrusion :- PointOr0(ns, Lenient, ps, 210, 220, 230);
    Ok(LwPolylineData(n, flags, cw, elevation, thickness, scan.vertices, extrusion, scan.hasWidth))
  }

  /** One vertex per code-10 pair, whatever code 90 declares, each at the
      x of its code-10 value, in order. */
  lemma DecodedXs(ns: NumberSyntax, ps: seq<Pair>)
    requires DecodeLwPolyline(ns, ps).Ok?
    ensures Xs(DecodeLwPolyline(ns, ps).value.polyVertices) == Parsed(ns, ValuesOf(ps, 10))
  {
    var d := DecodeLwPolyline(ns, ps).value;
    ScanAllXs(ns, d.constantWidth, Scan([], d.constantWidth > 0.0), PairsFrom(ps, 10).value);
    PairsFromKeepsValues(ps, 10);
  }

  /** With a constant width above 0 every vertex has it at both ends. */
  lemma DecodedConstantWidth(ns: NumberSyntax, ps: seq<Pair>)
    requires DecodeLwPolyline(ns, ps).Ok? && DecodeLwPolyline(ns, ps).value.constantWidth > 0.0
    ensures var d := DecodeLwPolyline(ns, ps).value;
            WidthsAre(d.polyVertices, d.constantWidth)
  {
    var d := DecodeLwPolyline(ns, ps).value;
    ScanAllConstantWidth(ns, d.constantWidth, Scan([], true), PairsFrom(ps, 10).value);
  }

  /** The width flag says whether the constant width is above 0 or a code
      40 or 41 among the pairs the iterator visits, from the first code 10
      on, gives a width above 0. */
  lemma DecodedHasWidth(ns: NumberSyntax, ps: seq<Pair>)
    requires DecodeLwPolyline(ns, ps).Ok?
    ensures var d := DecodeLwPolyline(ns, ps).value;
            var visited := PairsFrom(ps, 10).value;
            d.hasWidth <==> d.constantWidth > 0.0
                            || exists j :: 0 <= j < |visited| && GivesWidth(ns, d.constantWidth, visited[j])
  {
    var d := DecodeLwPolyline(ns, ps).value;
    ScanAllHasWidth(ns, d.constantWidth, Scan([], d.constantWidth > 0.0), PairsFrom(ps, 10).value);
  }

  /** isClosed: flag bit 1. */
  predicate IsClosed(d: LwPolylineData)
  {
    HasBit(d.flags, PE.BitClosed)
  }

  /** isDegenerate: fewer than two vertices. */
  predicate IsDegenerate(d: LwPolylineData)
  {
    |d.polyVertices| < 2
  }

  /** needClose: a closed polyline whose first and last vertices differ in
      x or y; an empty list throws on its first element. */
  function NeedClose(d: LwPolylineData): (r: Outcome<bool>)
    ensures r.Fail? <==> IsClosed(d) && d.polyVertices == []
    ensures r.Ok? ==> (r.value <==> IsClosed(d) && d.polyVertices != []
                                    && (d.polyVertices[0].x != PE.Last(d.polyVertices).x
                                        || d.polyVertices[0].y != PE.Last(d.polyVertices).y))
  {
    if !IsClosed(d) then Ok(false)
    else if d.polyVertices == [] then Fail(IndexOutOfBounds(0))
    else Ok(CompareVertex2D(d.polyVertices[0], PE.Last(d.polyVertices)) != 0)
  }

  /** What convertToFxShapes does once the layer is known to be on: a
      degenerate polyline is not drawn; any other is drawn as a 2D polyline
      with its own width flag. */
  function LwPolylineDrawing(trig: Trig, d: LwPolylineData, st: Style): (r: Outcome<Drawing>)
    ensures IsDegenerate(d) ==> r == Ok(Drawing(false, []))
    ensures r.Ok? && r.value.drawn ==> !IsDegenerate(d) && |r.value.added| <= 1
  {
    if IsDegenerate(d) then Ok(Drawing(false, []))
    else
      var close := NeedClose(d).value;
      var vertices :- PolylineVertices(trig, true, Some(d.polyVertices), None, close, d.hasWidth);
      Ok(Drawing(true, PolyShapes(st.transform, st.strokeScale, st.color, st.lineType, st.lineTypeScale,
                                  vertices, close)))
  }

  /** An open polyline of at least two vertices and no bulge is drawn as
      one Polyline through its vertices in order. */
  lemma LwPolylineDrawsOpen(trig: Trig, d: LwPolylineData, st: Style)
    requires !IsClosed(d) && |d.polyVertices| >= 2 && AllStraight(d.polyVertices)
    ensures LwPolylineDrawing(trig, d, st)
            == Ok(Drawing(true, PolyShapes(st.transform, st.strokeScale, st.color, st.lineType, st.lineTypeScale,
                                           PE.Flats(d.polyVertices), false)))
  {
    var vs := d.polyVertices;
    VertexListStraight(trig, NumberOfGrads, vs, false, d.hasWidth);
    assert seq(|vs|, i requires 0 <= i < |vs| => Flat(vs[i])) == PE.Flats(vs);
    PE.FilledSomes(PE.Flats(vs));
  }

  /** A closed polyline of straight vertices whose ends differ is drawn as
      one Polygon through its vertices and back to the first. */
  lemma LwPolylineDrawsClosed(trig: Trig, d: LwPolylineData, st: Style)
    requires IsClosed(d) && |d.polyVertices| >= 2 && AllStraight(d.polyVertices)
    requires d.polyVertices[0].x != PE.Last(d.polyVertices).x || d.polyVertices[0].y != PE.Last(d.polyVertices).y
    ensures LwPolylineDrawing(trig, d, st)
            == Ok(Drawing(true, PolyShapes(st.transform, st.strokeScale, st.color, st.lineType, st.lineTypeScale,
                                           PE.Flats(d.polyVertices) + [Flat(d.polyVertices[0])], true)))
  {
    var vs := d.polyVertices;
    VertexListStraight(trig, NumberOfGrads, vs, true, d.hasWidth);
    var flats := PE.Flats(vs) + [Flat(vs[0])];
    var l := VertexList(trig, NumberOfGrads, vs, true, d.hasWidth).value;
    assert l == Somes(flats);
    PE.FilledSomes(flats);
  }

  /** convertToFxShapes once the layer is known to be on. */
  method ConvertLwPolyline(trig: Trig, container: ShapeContainer, d: LwPolylineData, st: Style)
    returns (r: Outcome<bool>)
    modifies container
    ensures var dr := LwPolylineDrawing(trig, d, st);
            && (r.Ok? <==> dr.Ok?)
            && (r.Fail? ==> r.failure == dr.failure && container.shapes == old(container.shapes))
            && (r.Ok? ==> r.value == dr.value.drawn && container.shapes == old(container.shapes) + dr.value.added)
  {
    if IsDegenerate(d) {
      return Ok(false);
    }
    var close := NeedClose(d).value;
    r := ConvertPolyline(trig, container, st.transform, st.strokeScale, st.color, st.lineType, st.lineTypeScale,
                         true, Some(d.polyVertices), None, close, d.hasWidth);
  }
}
