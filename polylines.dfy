// Polyline assembly: the vertex list of a 2D polyline with its bulges
// expanded into sampled arcs, the width interpolation along one sampled
// arc, and the emission of the result as a Polyline or a Polygon.
module Polylines {
  import opened Results
  import opened Numerics
  import opened Geometry
  import opened LineTypes
  import opened Shapes

  /** NUMBER_OF_GRADS: the sampling step, in degrees, for bulged segments. */
  const NumberOfGrads: real := 5.0

  /** compareVertex2D: 0 when both x and y are exactly equal (no
      tolerance and no z), 1 otherwise. */
  function CompareVertex2D(pv1: PolyVertex, pv2: PolyVertex): (r: int)
    ensures r == 0 || r == 1
    ensures r == 0 <==> pv1.x == pv2.x && pv1.y == pv2.y
  {
    if pv1.x == pv2.x && pv1.y == pv2.y then 0 else 1
  }

  /** The exact comparison is stricter than Point.equals: vertices it calls
      equal are equal within the tolerance whenever their z agree, while
      two vertices a hundred-thousandth apart are equal to Point.equals but
      differ here. */
  lemma CompareVertex2DStricterThanEquals(pv1: PolyVertex, pv2: PolyVertex)
    requires pv1.z == pv2.z
    ensures CompareVertex2D(pv1, pv2) == 0 ==> PointEquals(PolyVertexObj(pv1), PolyVertexObj(pv2))
    ensures var a, b := PolyVertex(0.0, 0.0, 0.0, 0.0, 0.0, 0.0), PolyVertex(0.00001, 0.0, 0.0, 0.0, 0.0, 0.0);
            PointEquals(PolyVertexObj(a), PolyVertexObj(b)) && CompareVertex2D(a, b) == 1
  {
  }

  // ---------------------------------------------------------------------
  // process: widths along one sampled arc

  /** The width step of process: the first vertex's width change spread
      over the n points. */
  function WidthStep(start1: real, end1: real, n: nat): real
  {
    if n == 0 then 0.0 else (end1 - start1) / n as real
  }

  /** The width at step k from start1. */
  function WidthAt(start1: real, inc: real, k: nat): real
  {
    start1 + k as real * inc
  }

  lemma WidthAtNext(start1: real, inc: real, k: nat)
    ensures WidthAt(start1, inc, k + 1) == WidthAt(start1, inc, k) + inc
  {
  }

  /** n steps of WidthStep lead from start1 to end1. */
  lemma WidthAtEnd(start1: real, end1: real, n: nat)
    requires n > 0
    ensures WidthAt(start1, WidthStep(start1, end1, n), n) == end1
  {
    var inc := (end1 - start1) / n as real;
    assert n as real * inc == end1 - start1;
  }

  /** Output point k of process. */
  function ProcessedPoint(coords: seq<Vertex>, start1: real, inc: real, reverse: bool, hasWidth: bool, k: nat): Vertex
    requires k < |coords|
  {
    var p := coords[if reverse then |coords| - 1 - k else k];
    if hasWidth then Vertex4(p.x, p.y, WidthAt(start1, inc, k), WidthAt(start1, inc, k + 1))
    else Vertex4(p.x, p.y, 0.0, 0.0)
  }

  /** The vertices process returns: the points in the given order or
      reversed, with z = 0 and either zero widths or widths stepping from
      start1 by WidthStep per point. */
  function Processed(coords: seq<Vertex>, start1: real, end1: real, reverse: bool, hasWidth: bool): (r: seq<Vertex>)
    ensures |r| == |coords|
  {
    var inc := WidthStep(start1, end1, |coords|);
    seq(|coords|, k requires 0 <= k < |coords| => ProcessedPoint(coords, start1, inc, reverse, hasWidth, k))
  }

  function Reversed(s: seq<Vertex>): (r: seq<Vertex>)
    ensures |r| == |s|
    ensures forall i :: 0 <= i < |s| ==> r[i] == s[|s| - 1 - i]
  {
    seq(|s|, i requires 0 <= i < |s| => s[|s| - 1 - i])
  }

  /** Processing in reverse is processing the reversed points forwards:
      the widths still run from the first output point on. */
  lemma ProcessedReverse(coords: seq<Vertex>, start1: real, end1: real, hasWidth: bool)
    ensures Processed(coords, start1, end1, true, hasWidth)
            == Processed(Reversed(coords), start1, end1, false, hasWidth)
  {
  }

  /** Every output point keeps the x and y of its source point, the first
      source point for the first output unless reversed. */
  lemma ProcessedPoints(coords: seq<Vertex>, start1: real, end1: real, reverse: bool, hasWidth: bool, k: nat)
    requires k < |coords|
    ensures var r := Processed(coords, start1, end1, reverse, hasWidth);
            var src := coords[if reverse then |coords| - 1 - k else k];
            r[k].x == src.x && r[k].y == src.y && r[k].z == 0.0
  {
  }

  /** Without width every point has zero widths. With width the widths
      run from start1 at the first point to end1 at the last, each point
      starting where the previous one ended. */
  lemma ProcessedWidths(coords: seq<Vertex>, start1: real, end1: real, reverse: bool, hasWidth: bool)
    ensures var r := Processed(coords, start1, end1, reverse, hasWidth);
            !hasWidth ==> forall k :: 0 <= k < |r| ==> r[k].startWidth == 0.0 && r[k].endWidth == 0.0
    ensures var r := Processed(coords, start1, end1, reverse, hasWidth);
            hasWidth && |r| > 0 ==> r[0].startWidth == start1 && r[|r| - 1].endWidth == end1
    ensures var r := Processed(coords, start1, end1, reverse, hasWidth);
            hasWidth ==> forall k :: 0 <= k < |r| - 1 ==> r[k].endWidth == r[k + 1].startWidth
  {
    var n := |coords|;
    if hasWidth && n > 0 {
      WidthAtEnd(start1, end1, n);
    }
  }

  /** process: fills a new array walking the points forwards or backwards;
      with width, each point's end width is the next one's start width.
      The second vertex's widths are not used. */
  method Process(coords: array<Vertex>, start1: real, end1: real, start2: real, end2: real,
                 reverse: bool, hasWidth: bool) returns (values: array<Vertex>)
    ensures fresh(values)
    ensures values[..] == Processed(coords[..], start1, end1, reverse, hasWidth)
  {
    var numberOfCoordinates := coords.Length;
    var incr := if reverse then -1 else 1;
    var init := if reverse then numberOfCoordinates - 1 else 0;
    var fin := if reverse then -1 else numberOfCoordinates;
    values := new Vertex[numberOfCoordinates];
    ghost var spec := Processed(coords[..], start1, end1, reverse, hasWidth);
    var n := 0;
    var i := init;
    if hasWidth {
      var widthIncrease := WidthStep(start1, end1, numberOfCoordinates);
      var tempstart := start1;
      var tempend := start1 + widthIncrease;
      while i != fin
        invariant 0 <= n <= numberOfCoordinates
        invariant i == (if reverse then numberOfCoordinates - 1 - n else n)
        invariant tempstart == WidthAt(start1, widthIncrease, n)
        invariant tempend == WidthAt(start1, widthIncrease, n + 1)
        invariant forall k :: 0 <= k < n ==> values[k] == spec[k]
        decreases numberOfCoordinates - n
      {
        var point := coords[i];
        values[n] := Vertex4(point.x, point.y, tempstart, tempend);
        tempstart := tempend;
        tempend := tempstart + widthIncrease;
        WidthAtNext(start1, widthIncrease, n + 1);
        i, n := i + incr, n + 1;
      }
    } else {
      while i != fin
        invariant 0 <= n <= numberOfCoordinates
        invariant i == (if reverse then numberOfCoordinates - 1 - n else n)
        invariant forall k :: 0 <= k < n ==> values[k] == spec[k]
        decreases numberOfCoordinates - n
      {
        var point := coords[i];
        values[n] := Vertex4(point.x, point.y, 0.0, 0.0);
        i, n := i + incr, n + 1;
      }
    }
    assert values[..] == spec;
  }

  // ---------------------------------------------------------------------
  // makeVertexList: segments joined into one strip

  /** A poly-vertex as a straight-segment end: its point and widths. */
  function Flat(pv: PolyVertex): Vertex
  {
    Vertex4(pv.x, pv.y, pv.startWidth, pv.endWidth)
  }

  /** The number of segments makeVertexList draws from len vertices: one
      per vertex when closed or when there is a single vertex (which is
      joined to itself), otherwise one fewer. */
  function SegmentCount(len: nat, closed: bool): (s: nat)
    ensures s <= len
    ensures len > 0 ==> s >= 1
    ensures !closed && len >= 2 ==> s == len - 1
    ensures closed || len <= 1 ==> s == len
  {
    if len == 0 then 0 else if closed || len == 1 then len else len - 1
  }

  /** The vertex after vertex k, wrapping round to the first after the
      last: the (vi + 1) % len of makeVertexList. */
  function NextIndex(k: nat, len: nat): (r: nat)
    requires k < len
    ensures r < len
  {
    if k + 1 < len then k + 1 else 0
  }

  lemma NextIndexIsRemainder(k: nat, len: nat, vix: int)
    requires k < len && vix == (k + 1) % len
    ensures vix == NextIndex(k, len)
  {
  }

  /** The points of segment k, from vertex k to the next one: both ends
      when the bulge is exactly 0, otherwise the sampled arc of the bulge,
      reversed for a negative bulge, with the widths process gives it. The
      arc is null when the bulge is not 0 but rounds to 0 as a float, and
      using it throws. */
  function Segment(trig: Trig, grads: real, vs: seq<PolyVertex>, k: nat, hasWidth: bool): (r: Outcome<seq<Vertex>>)
    requires k < |vs|
    ensures r.Fail? <==> vs[k].bulge != 0.0 && FloatIsZero(vs[k].bulge)
    ensures r.Fail? ==> r == Fail(NullReference)
    ensures r.Ok? ==> |r.value| >= 2
    ensures vs[k].bulge == 0.0 ==> r == Ok([Flat(vs[k]), Flat(vs[NextIndex(k, |vs|)])])
  {
    var v1, v2 := vs[k], vs[NextIndex(k, |vs|)];
    if v1.bulge == 0.0 then Ok([Flat(v1), Flat(v2)]) else BulgedSegment(trig, grads, v1, v2, hasWidth)
  }

  /** The points of a bulged segment: the arc of v1's bulge towards v2,
      sampled every grads degrees and processed with v1's widths; null
      (a throw) when the bulge rounds to 0 as a float. */
  function BulgedSegment(trig: Trig, grads: real, v1: PolyVertex, v2: PolyVertex, hasWidth: bool): (r: Outcome<seq<Vertex>>)
    ensures r.Fail? <==> FloatIsZero(v1.bulge)
    ensures r.Fail? ==> r == Fail(NullReference)
    ensures r.Ok? ==> |r.value| >= 2
  {
    match GetArc(trig, v1.bulge, v1.x, v1.y, v2.x, v2.y)
    case None => Fail(NullReference)
    case Some(arc) =>
      Ok(Processed(SampledArc(trig, arc, grads), v1.startWidth, v1.endWidth, v1.bulge < 0.0, hasWidth))
  }

  /** The bulged branch of makeVertexList's loop body: getArc, then
      normalizeGradients and process; a null arc throws. */
  method BulgedStrip(trig: Trig, grads: real, vert1: PolyVertex, vert2: PolyVertex, hasWidth: bool)
    returns (r: Outcome<array<Vertex>>)
    ensures r.Fail? ==> BulgedSegment(trig, grads, vert1, vert2, hasWidth) == Fail(NullReference)
    ensures r.Ok? ==> BulgedSegment(trig, grads, vert1, vert2, hasWidth) == Ok(r.value[..])
  {
    var arc := GetArc(trig, vert1.bulge, vert1.x, vert1.y, vert2.x, vert2.y);
    if arc.None? {
      return Fail(NullReference);
    }
    var vectaux := NormalizeGradients(trig, arc.value, grads);
    var reverse := vert1.bulge < 0.0;
    var vect := Process(vectaux, vert1.startWidth, vert1.endWidth, vert2.startWidth, vert2.endWidth,
                        reverse, hasWidth);
    return Ok(vect);
  }

  function Somes(vs: seq<Vertex>): (r: seq<Option<Vertex>>)
    ensures |r| == |vs|
    ensures forall i :: 0 <= i < |vs| ==> r[i] == Some(vs[i])
  {
    seq(|vs|, i requires 0 <= i < |vs| => Some(vs[i]))
  }

  /** The outcomes of the first n segments, segment k starting at vertex
      k. */
  function Segments(trig: Trig, grads: real, vs: seq<PolyVertex>, hasWidth: bool, n: nat): (r: seq<Outcome<seq<Vertex>>>)
    requires n <= |vs|
    ensures |r| == n
    ensures NonEmptyPoints(r)
  {
    if n == 0 then [] else Segments(trig, grads, vs, hasWidth, n - 1) + [Segment(trig, grads, vs, n - 1, hasWidth)]
  }

  lemma {:induction false} SegmentsAt(trig: Trig, grads: real, vs: seq<PolyVertex>, hasWidth: bool, n: nat, k: nat)
    requires k < n <= |vs|
    ensures Segments(trig, grads, vs, hasWidth, n)[k] == Segment(trig, grads, vs, k, hasWidth)
  {
    if k < n - 1 {
      SegmentsAt(trig, grads, vs, hasWidth, n - 1, k);
    }
  }

  /** segs holds the outcome of every segment of vs. The quantifier is
      triggered by a Segment term only, so a proof about the list as a
      whole does not unfold the arc arithmetic of every segment. */
  ghost predicate SegmentTable(trig: Trig, grads: real, vs: seq<PolyVertex>, hasWidth: bool, segs: seq<Outcome<seq<Vertex>>>)
  {
    && |segs| == |vs|
    && NonEmptyPoints(segs)
    && forall k {:trigger Segment(trig, grads, vs, k, hasWidth)} ::
         0 <= k < |vs| ==> segs[k] == Segment(trig, grads, vs, k, hasWidth)
  }

  /** The segment list is such a table. */
  lemma SegmentsTable(trig: Trig, grads: real, vs: seq<PolyVertex>, hasWidth: bool)
    ensures SegmentTable(trig, grads, vs, hasWidth, Segments(trig, grads, vs, hasWidth, |vs|))
  {
    forall k | 0 <= k < |vs|
      ensures Segments(trig, grads, vs, hasWidth, |vs|)[k] == Segment(trig, grads, vs, k, hasWidth)
    {
      SegmentsAt(trig, grads, vs, hasWidth, |vs|, k);
    }
  }

  /** Every segment that does not fail has at least one point. */
  predicate NonEmptyPoints(segs: seq<Outcome<seq<Vertex>>>)
  {
    forall k :: 0 <= k < |segs| && segs[k].Ok? ==> |segs[k].value| >= 1
  }

  /** The list after the first count segments. It starts as one null slot;
      each segment overwrites the last slot with its first point and
      appends the rest, so consecutive segments share their junction. The
      first failing segment's exception is the result. */
  function Joined(segs: seq<Outcome<seq<Vertex>>>, count: nat): (r: Outcome<seq<Option<Vertex>>>)
    requires count <= |segs| && NonEmptyPoints(segs)
    ensures r.Ok? ==> |r.value| >= 1
    ensures r.Fail? ==> exists k :: 0 <= k < count && segs[k] == Fail(r.failure)
    decreases count
  {
    if count == 0 then Ok([None])
    else match Joined(segs, count - 1)
      case Fail(f) => Fail(f)
      case Ok(prev) =>
        match segs[count - 1]
        case Fail(f) => Fail(f)
        case Ok(seg) => Ok(prev[..|prev| - 1] + Somes(seg))
  }

  /** One more segment that does not fail: the earlier list with its last
      slot replaced by the segment's points. */
  lemma JoinedNext(segs: seq<Outcome<seq<Vertex>>>, c: nat, prev: seq<Option<Vertex>>, seg: seq<Vertex>)
    requires c < |segs| && NonEmptyPoints(segs) && Joined(segs, c) == Ok(prev) && segs[c] == Ok(seg)
    ensures Joined(segs, c + 1) == Ok(prev[..|prev| - 1] + Somes(seg))
  {
  }

  /** The list makeVertexList returns, or the exception it throws. */
  function VertexList(trig: Trig, grads: real, vs: seq<PolyVertex>, closed: bool, hasWidth: bool): Outcome<seq<Option<Vertex>>>
  {
    Joined(Segments(trig, grads, vs, hasWidth, |vs|), SegmentCount(|vs|, closed))
  }

  /** Once a segment fails, the list stays failed with its exception. */
  lemma {:induction false} JoinedFailureSticks(segs: seq<Outcome<seq<Vertex>>>, c: nat, d: nat)
    requires c <= d <= |segs| && NonEmptyPoints(segs)
    requires Joined(segs, c).Fail?
    ensures Joined(segs, d) == Joined(segs, c)
    decreases d - c
  {
    if c < d {
      JoinedFailureSticks(segs, c + 1, d);
    }
  }

  /** Drawing more segments never changes the points already final: all
      but the last slot of an earlier list are a prefix of a later one. */
  lemma {:induction false} JoinedKeepsPrefix(segs: seq<Outcome<seq<Vertex>>>, c: nat, d: nat)
    requires c <= d <= |segs|
    requires NonEmptyPoints(segs)
    requires Joined(segs, d).Ok?
    ensures Joined(segs, c).Ok?
    ensures Kept(Joined(segs, c).value, Joined(segs, d).value)
    decreases d - c
  {
    if c < d {
      JoinedKeepsPrefix(segs, c + 1, d);
      var early := Joined(segs, c).value;
      var next := Joined(segs, c + 1).value;
      assert next == early[..|early| - 1] + Somes(segs[c].value);
      KeptTransitive(early, next, Joined(segs, d).value);
    }
  }

  /** All but the last slot of a are a prefix of b. */
  predicate Kept<T(==)>(a: seq<T>, b: seq<T>)
  {
    0 < |a| <= |b| && a[..|a| - 1] == b[..|a| - 1]
  }

  lemma KeptTransitive<T>(a: seq<T>, b: seq<T>, c: seq<T>)
    requires 0 < |a| <= |b| && b[..|a| - 1] == a[..|a| - 1]
    requires Kept(b, c)
    ensures Kept(a, c)
  {
    var m := |a| - 1;
    assert b[..m] == b[..|b| - 1][..m];
    assert c[..m] == c[..|b| - 1][..m];
  }

  predicate AllStraight(vs: seq<PolyVertex>)
  {
    forall i :: 0 <= i < |vs| ==> vs[i].bulge == 0.0
  }

  /** With no bulges, count segments give the count + 1 vertices from the
      first, wrapping round to vertex 0 after the last. */
  lemma {:induction false} JoinedStraight(trig: Trig, grads: real, vs: seq<PolyVertex>, hasWidth: bool, count: nat)
    requires 0 < |vs| && count <= |vs| && AllStraight(vs)
    ensures Joined(Segments(trig, grads, vs, hasWidth, |vs|), count).Ok?
    ensures var l := Joined(Segments(trig, grads, vs, hasWidth, |vs|), count).value;
            count > 0 ==> |l| == count + 1
                          && forall i :: 0 <= i <= count ==> l[i] == Some(Flat(vs[if i < |vs| then i else 0]))
    decreases count
  {
    if count > 0 {
      var segs := Segments(trig, grads, vs, hasWidth, |vs|);
      JoinedStraight(trig, grads, vs, hasWidth, count - 1);
      SegmentsAt(trig, grads, vs, hasWidth, |vs|, count - 1);
      var prev := Joined(segs, count - 1).value;
      var seg := segs[count - 1].value;
      assert seg == [Flat(vs[count - 1]), Flat(vs[NextIndex(count - 1, |vs|)])];
      var l := Joined(segs, count).value;
      assert l == prev[..|prev| - 1] + Somes(seg);
      assert |prev| == count;
      forall i | 0 <= i <= count
        ensures l[i] == Some(Flat(vs[if i < |vs| then i else 0]))
      {
        if i < count - 1 {
          assert l[i] == prev[i];
        }
      }
    }
  }

  /** makeVertexList with all bulges 0: an open polyline of len >= 2
      vertices gives exactly its len points in order; a closed one gives
      len + 1 points, the last repeating the first; an empty one gives a
      single null slot. */
  lemma VertexListStraight(trig: Trig, grads: real, vs: seq<PolyVertex>, closed: bool, hasWidth: bool)
    requires AllStraight(vs)
    ensures vs == [] ==> VertexList(trig, grads, vs, closed, hasWidth) == Ok([None])
    ensures !closed && |vs| >= 2 ==>
              VertexList(trig, grads, vs, closed, hasWidth) == Ok(Somes(seq(|vs|, i requires 0 <= i < |vs| => Flat(vs[i]))))
    ensures closed && |vs| >= 1 ==>
              var l := VertexList(trig, grads, vs, closed, hasWidth);
              l.Ok? && |l.value| == |vs| + 1 && l.value[|vs|] == l.value[0] == Some(Flat(vs[0]))
              && forall i :: 0 <= i < |vs| ==> l.value[i] == Some(Flat(vs[i]))
  {
    if |vs| > 0 {
      JoinedStraight(trig, grads, vs, hasWidth, SegmentCount(|vs|, closed));
    }
    if !closed && |vs| >= 2 {
      var l := VertexList(trig, grads, vs, closed, hasWidth).value;
      var flats := seq(|vs|, i requires 0 <= i < |vs| => Flat(vs[i]));
      assert l == Somes(flats);
    }
  }

  /** A single bulged segment is replaced by the sampled arc of its bulge,
      reversed when the bulge is negative: at least two points. */
  lemma VertexListOneArc(trig: Trig, grads: real, v1: PolyVertex, v2: PolyVertex, hasWidth: bool)
    requires !FloatIsZero(v1.bulge)
    ensures var arc := GetArc(trig, v1.bulge, v1.x, v1.y, v2.x, v2.y).value;
            var points := Processed(SampledArc(trig, arc, grads), v1.startWidth, v1.endWidth, v1.bulge < 0.0, hasWidth);
            VertexList(trig, grads, [v1, v2], false, hasWidth) == Ok(Somes(points)) && |points| >= 2
  {
    var vs := [v1, v2];
    assert v1.bulge != 0.0;
    assert SegmentCount(2, false) == 1 && NextIndex(0, 2) == 1;
    var arc := GetArc(trig, v1.bulge, v1.x, v1.y, v2.x, v2.y).value;
    var points := Processed(SampledArc(trig, arc, grads), v1.startWidth, v1.endWidth, v1.bulge < 0.0, hasWidth);
    var segs := Segments(trig, grads, vs, hasWidth, 2);
    SegmentsAt(trig, grads, vs, hasWidth, 2, 0);
    assert segs[0] == Ok(points);
    assert Joined(segs, 1) == Ok([None][..0] + Somes(points));
    assert [None][..0] + Somes(points) == Somes(points);
  }

  /** A bulge that is not 0 but rounds to 0 as a float has no arc, and
      makeVertexList throws. */
  lemma VertexListTinyBulgeThrows(trig: Trig)
    ensures var tiny := 1.0 / FloatUnderflow;
            var vs := [PolyVertex(0.0, 0.0, 0.0, 0.0, 0.0, tiny), PolyVertex(1.0, 0.0, 0.0, 0.0, 0.0, 0.0)];
            VertexList(trig, NumberOfGrads, vs, false, false) == Fail(NullReference)
  {
    var tiny := 1.0 / FloatUnderflow;
    var vs := [PolyVertex(0.0, 0.0, 0.0, 0.0, 0.0, tiny), PolyVertex(1.0, 0.0, 0.0, 0.0, 0.0, 0.0)];
    assert tiny * FloatUnderflow == 1.0;
    assert tiny != 0.0 && FloatIsZero(tiny);
    var segs := Segments(trig, NumberOfGrads, vs, false, 2);
    SegmentsAt(trig, NumberOfGrads, vs, false, 2, 0);
    assert segs[0] == Fail(NullReference);
    assert SegmentCount(2, false) == 1;
  }

  /** The list update for a bulged segment: the slot at iStrip (the last
      one) is overwritten with the first sample and the others are added
      after it. */
  method Splice(vlist: seq<Option<Vertex>>, iStrip: nat, vect: array<Vertex>) returns (r: seq<Option<Vertex>>)
    requires iStrip == |vlist| - 1 && vect.Length >= 1
    ensures r == vlist[..iStrip] + Somes(vect[..])
    ensures |r| == iStrip + vect.Length
  {
    r := vlist[iStrip := Some(vect[0])];
    for n := 1 to vect.Length
      invariant r == vlist[..iStrip] + Somes(vect[..n])
    {
      r := r + [Some(vect[n])];
    }
    assert vect[..vect.Length] == vect[..];
  }

  /** One pass of makeVertexList's loop body, for the segment from vertex
      vi to the next: a straight segment sets the last slot (iStrip) to its
      first end and adds its second; a bulged one sets it to the first
      sample and adds the rest. A null arc throws. */
  method StripSegment(trig: Trig, grads: real, vertexList: seq<PolyVertex>, vi: nat, hasWidth: bool,
                      vlist: seq<Option<Vertex>>, iStrip: nat, ghost segs: seq<Outcome<seq<Vertex>>>)
    returns (r: Outcome<seq<Option<Vertex>>>, nextStrip: nat)
    requires vi < |vertexList| && SegmentTable(trig, grads, vertexList, hasWidth, segs)
    requires Joined(segs, vi) == Ok(vlist) && iStrip == |vlist| - 1
    ensures r == Joined(segs, vi + 1)
    ensures r.Ok? ==> nextStrip == |r.value| - 1
  {
    assert segs[vi] == Segment(trig, grads, vertexList, vi, hasWidth);
    var len := |vertexList|;
    var vert1 := vertexList[vi];
    var vix := (vi + 1) % len;
    NextIndexIsRemainder(vi, len, vix);
    var vert2 := vertexList[vix];
    if vert1.bulge == 0.0 {
      var v1 := Vertex4(vert1.x, vert1.y, vert1.startWidth, vert1.endWidth);
      var v2 := Vertex4(vert2.x, vert2.y, vert2.startWidth, vert2.endWidth);
      var l := vlist[iStrip := Some(v1)];
      nextStrip := iStrip + 1;
      l := l + [Some(v2)];
      assert l == vlist[..iStrip] + Somes([v1, v2]);
      JoinedNext(segs, vi, vlist, [v1, v2]);
      return Ok(l), nextStrip;
    }
    var strip := BulgedStrip(trig, grads, vert1, vert2, hasWidth);
    if strip.Fail? {
      return Fail(NullReference), iStrip;
    }
    var vect := strip.value;
    var vectlen := vect.Length;
    var l := Splice(vlist, iStrip, vect);
    JoinedNext(segs, vi, vlist, vect[..]);
    return Ok(l), iStrip + vectlen - 1;
  }

  /** makeVertexList: walks the vertices with vi, keeping iStrip at the
      last slot of the list, and stops after the segment ending at the last
      vertex unless the polyline is closed. A null arc throws. The ghost
      table names the outcome of each segment for the proof. */
  method MakeVertexList(trig: Trig, grads: real, vertexList: seq<PolyVertex>, closed: bool, hasWidth: bool,
                        ghost segs: seq<Outcome<seq<Vertex>>>) returns (r: Outcome<seq<Option<Vertex>>>)
    requires SegmentTable(trig, grads, vertexList, hasWidth, segs)
    ensures r == Joined(segs, SegmentCount(|vertexList|, closed))
  {
    var vlist: seq<Option<Vertex>> := [None];
    var iStrip := 0;
    var vi := 0;
    var len := |vertexList|;
    while vi < len
      invariant 0 <= vi <= SegmentCount(len, closed)
      invariant !closed && len >= 2 ==> vi < len - 1
      invariant Joined(segs, vi) == Ok(vlist)
      invariant iStrip == |vlist| - 1
      decreases len - vi
    {
      var next;
      next, iStrip := StripSegment(trig, grads, vertexList, vi, hasWidth, vlist, iStrip, segs);
      if next.Fail? {
        JoinedFailureSticks(segs, vi + 1, SegmentCount(len, closed));
        return next;
      }
      vlist := next.value;
      vi := vi + 1;
      if vi == len - 1 && !closed {
        break;
      }
    }
    assert vi == SegmentCount(len, closed);
    return Ok(vlist);
  }

  // ---------------------------------------------------------------------
  // Emission

  /** What the vertex-array overload of convertToFxShapes adds: nothing
      when the stroke is solid and there is no vertex; otherwise one
      Polygon (closed) or Polyline (open) through the vertices, with the
      given transform, colour and dash array. */
  function PolyShapes(transform: Affine, strokeScale: real, color: int, lineType: Option<LineType>,
                      lineTypeScale: real, vertices: seq<Vertex>, closed: bool): (r: seq<Emitted>)
    ensures |r| <= 1
    ensures r == [] <==> (lineType.None? || IsContinuous(lineType.value)) && vertices == []
  {
    if (lineType.None? || IsContinuous(lineType.value)) && |vertices| < 1 then []
    else
      var points := Coordinates(vertices);
      var figure := if closed then Polygon(points) else Polyline(points);
      [Emitted(strokeScale, Shape(figure, [transform], color, StrokeDashes(lineType, lineTypeScale)))]
  }

  /** convertToFxShapes (vertex array): flattens the vertices into a
      coordinate list and adds one shape. */
  method ConvertVertices(container: ShapeContainer, transform: Affine, strokeScale: real, color: int,
                         lineType: Option<LineType>, lineTypeScale: real, vertices: seq<Vertex>, closed: bool)
    modifies container
    ensures container.shapes
            == old(container.shapes) + PolyShapes(transform, strokeScale, color, lineType, lineTypeScale, vertices, closed)
  {
    if lineType.None? || IsContinuous(lineType.value) {
      if |vertices| < 1 {
        return;
      }
    }
    var coordinates: seq<real> := [];
    var i := 0;
    while i < |vertices|
      invariant 0 <= i <= |vertices|
      invariant coordinates == Coordinates(vertices[..i])
    {
      assert vertices[..i + 1][..i] == vertices[..i];
      coordinates := coordinates + [vertices[i].x, vertices[i].y];
      i := i + 1;
    }
    assert vertices[..i] == vertices;
    var dashes: seq<real> := [];
    if lineType.Some? && !IsContinuous(lineType.value) {
      dashes := MakeDashArray(lineType.value, lineTypeScale);
    }
    if closed {
      container.AddShape(strokeScale, Shape(Polygon(coordinates), [transform], color, dashes));
    } else {
      container.AddShape(strokeScale, Shape(Polyline(coordinates), [transform], color, dashes));
    }
  }

  /** All slots filled, or None when one is still null. */
  function Filled(l: seq<Option<Vertex>>): (r: Option<seq<Vertex>>)
    ensures r.Some? <==> forall i :: 0 <= i < |l| ==> l[i].Some?
    ensures r.Some? ==> |r.value| == |l| && forall i :: 0 <= i < |l| ==> l[i] == Some(r.value[i])
  {
    if l == [] then Some([])
    else match Filled(l[..|l| - 1])
      case None => None
      case Some(init) => if l[|l| - 1].None? then None else Some(init + [l[|l| - 1].value])
  }

  /** The vertices the polyline overload draws: for a 2D polyline the
      assembled strip with 5-degree arcs (a null list or a leftover null
      slot throws when dereferenced); for a 3D one the x and y of each
      vertex (a null list throws). */
  function PolylineVertices(trig: Trig, isVertex2D: bool, polyVertices: Option<seq<PolyVertex>>,
                            dxfVertices: Option<seq<Point>>, closed: bool, hasWidth: bool): (r: Outcome<seq<Vertex>>)
    ensures !isVertex2D ==> (r.Ok? <==> dxfVertices.Some?)
    ensures !isVertex2D && r.Ok? ==> |r.value| == |dxfVertices.value|
    ensures isVertex2D && polyVertices.Some? && polyVertices.value == [] ==> r == Fail(NullReference)
  {
    if isVertex2D then
      if polyVertices.None? then Fail(NullReference)
      else match VertexList(trig, NumberOfGrads, polyVertices.value, closed, hasWidth)
        case Fail(f) => Fail(f)
        case Ok(l) => if Filled(l).None? then Fail(NullReference) else Ok(Filled(l).value)
    else if dxfVertices.None? then Fail(NullReference)
    else Ok(seq(|dxfVertices.value|, i requires 0 <= i < |dxfVertices.value| =>
                  Vertex2(dxfVertices.value[i].x, dxfVertices.value[i].y)))
  }

  /** convertToFxShapes (polyline entity): the colour, line type and
      line-type scale (global × entity) are resolved by the caller. The
      vertices are assembled and drawn, and the result is true; an
      exception leaves the container unchanged. */
  method ConvertPolyline(trig: Trig, container: ShapeContainer, transform: Affine, strokeScale: real,
                         color: int, lineType: Option<LineType>, lineTypeScale: real, isVertex2D: bool,
                         polyVertices: Option<seq<PolyVertex>>, dxfVertices: Option<seq<Point>>,
                         closed: bool, hasWidth: bool) returns (r: Outcome<bool>)
    modifies container
    ensures var vertices := PolylineVertices(trig, isVertex2D, polyVertices, dxfVertices, closed, hasWidth);
            (r.Fail? <==> vertices.Fail?)
            && (r.Fail? ==> r.failure == vertices.failure && container.shapes == old(container.shapes))
            && (r.Ok? ==>
                  r.value && container.shapes == old(container.shapes)
                     + PolyShapes(transform, strokeScale, color, lineType, lineTypeScale, vertices.value, closed))
  {
    if isVertex2D {
      if polyVertices.None? {
        return Fail(NullReference);
      }
      SegmentsTable(trig, NumberOfGrads, polyVertices.value, hasWidth);
      var vlist :- MakeVertexList(trig, NumberOfGrads, polyVertices.value, closed, hasWidth,
                                  Segments(trig, NumberOfGrads, polyVertices.value, hasWidth, |polyVertices.value|));
      // The list always holds at least the initial slot, so the
      // vlist.isEmpty() check of convertToFxShapes never fires.
      var vertices := Filled(vlist);
      if vertices.None? {
        return Fail(NullReference);
      }
      ConvertVertices(container, transform, strokeScale, color, lineType, lineTypeScale, vertices.value, closed);
      return Ok(true);
    }
    if dxfVertices.None? {
      return Fail(NullReference);
    }
    var vertarray: seq<Vertex> := [];
    for i := 0 to |dxfVertices.value|
      invariant vertarray == seq(i, j requires 0 <= j < i => Vertex2(dxfVertices.value[j].x, dxfVertices.value[j].y))
    {
      vertarray := vertarray + [Vertex2(dxfVertices.value[i].x, dxfVertices.value[i].y)];
    }
    ConvertVertices(container, transform, strokeScale, color, lineType, lineTypeScale, vertarray, closed);
    return Ok(true);
  }
}
