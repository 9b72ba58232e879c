// INSERT and DIMENSION, the two entities that draw a block, and VIEWPORT,
// whose view transform is computed but which the parser never builds.
module Inserts {
  import opened Results
  import opened Numerics
  import opened Pairs
  import opened Geometry
  import opened Shapes
  import opened Entities

  // ---------------------------------------------------------------------
  // INSERT

  /** DxfInsert: the block name (code 2, possibly missing), the transform
      that places the block, and the factor applied to stroke widths inside
      it (none when Java's division gives a non-finite value). */
  datatype InsertData = InsertData(blockName: Option<string>, blockTransform: Affine, strokeScale: Option<real>)

  /** The block transform: the rotation (taken modulo 360 with Java's
      remainder) followed by the scaling, with the translation entries then
      overwritten by the insertion point. */
  function InsertTransform(trig: Trig, rotation: real, x: real, y: real, scaleX: real, scaleY: real): Affine
  {
    Append(Rotation(trig, Rem360(rotation)), Scaling(scaleX, scaleY)).(tx := x, ty := y)
  }

  /** Overwriting the translation entries is the same as translating after
      the rotation and scaling: the block's points are scaled, then rotated,
      then moved to the insertion point. */
  lemma InsertTransformComposes(trig: Trig, rotation: real, x: real, y: real, scaleX: real, scaleY: real)
    ensures InsertTransform(trig, rotation, x, y, scaleX, scaleY)
            == Append(Translation(x, y), Append(Rotation(trig, Rem360(rotation)), Scaling(scaleX, scaleY)))
  {
  }

  lemma InsertTransformApplies(trig: Trig, rotation: real, x: real, y: real, scaleX: real, scaleY: real, p: Point2D)
    ensures Apply(InsertTransform(trig, rotation, x, y, scaleX, scaleY), p)
            == Apply(Translation(x, y), Apply(Rotation(trig, Rem360(rotation)), Apply(Scaling(scaleX, scaleY), p)))
  {
    InsertTransformComposes(trig, rotation, x, y, scaleX, scaleY);
    AppendApplies(Translation(x, y), Append(Rotation(trig, Rem360(rotation)), Scaling(scaleX, scaleY)), p);
    AppendApplies(Rotation(trig, Rem360(rotation)), Scaling(scaleX, scaleY), p);
  }

  /** The stroke factor: the inverse of the mean of the two scales. */
  function InsertStrokeScale(scaleX: real, scaleY: real): (r: Option<real>)
    ensures r.Some? <==> scaleX + scaleY != 0.0
    ensures r.Some? ==> r.value * (0.5 * (scaleX + scaleY)) == 1.0
  {
    var averageScaleFactor := 0.5 * (scaleX + scaleY);
    if averageScaleFactor == 0.0 then None else Some(1.0 / averageScaleFactor)
  }

  /** Under a uniform scale s a stroke is thinned by exactly 1/s, so its
      drawn width does not change. */
  lemma InsertStrokeScaleUniform(s: real)
    requires s != 0.0
    ensures InsertStrokeScale(s, s) == Some(1.0 / s)
  {
  }

  /** The INSERT decoder: block name from code 2, rotation from code 50
      ("0"), insertion point from codes 10/20 (required) and scales from
      codes 41/42 ("1"). */
  function DecodeInsert(ns: NumberSyntax, trig: Trig, ps: seq<Pair>): (r: Outcome<InsertData>)
    ensures r.Ok? <==> RealOr(ns, Lenient, ps, 50, "0").Ok? && RealAt(ns, Lenient, ps, 10).Ok?
                       && RealAt(ns, Lenient, ps, 20).Ok? && RealOr(ns, Lenient, ps, 41, "1").Ok?
                       && RealOr(ns, Lenient, ps, 42, "1").Ok?
    ensures r.Ok? ==>
              var sx, sy := RealOr(ns, Lenient, ps, 41, "1").value, RealOr(ns, Lenient, ps, 42, "1").value;
              r.value.blockName == GetValue(ps, 2)
              && r.value.blockTransform
                 == InsertTransform(trig, RealOr(ns, Lenient, ps, 50, "0").value, RealAt(ns, Lenient, ps, 10).value,
                                    RealAt(ns, Lenient, ps, 20).value, sx, sy)
              && r.value.strokeScale == InsertStrokeScale(sx, sy)
  {
    var blockName := GetValue(ps, 2);
    var rotation :- RealOr(ns, Lenient, ps, 50, "0");
    var x :- RealAt(ns, Lenient, ps, 10);
    var y :- RealAt(ns, Lenient, ps, 20);
    var scaleX :- RealOr(ns, Lenient, ps, 41, "1");
    var scaleY :- RealOr(ns, Lenient, ps, 42, "1");
    Ok(InsertData(blockName, InsertTransform(trig, rotation, x, y, scaleX, scaleY), InsertStrokeScale(scaleX, scaleY)))
  }

  /** An INSERT with no rotation and no scales places the block unrotated
      and unscaled at the insertion point, strokes unchanged. */
  lemma DecodeInsertDefaults(ns: NumberSyntax, trig: Trig, ps: seq<Pair>)
    requires ReadsDefaults(ns)
    requires forall j :: 0 <= j < |ps| ==> ps[j].code !in {41, 42, 50}
    requires RealAt(ns, Lenient, ps, 10).Ok? && RealAt(ns, Lenient, ps, 20).Ok?
    ensures DecodeInsert(ns, trig, ps).Ok?
    ensures DecodeInsert(ns, trig, ps).value.strokeScale == Some(1.0)
    ensures DecodeInsert(ns, trig, ps).value.blockTransform
            == Rotation(trig, 0.0).(tx := RealAt(ns, Lenient, ps, 10).value, ty := RealAt(ns, Lenient, ps, 20).value)
  {
    assert Rem360(0.0) == 0.0 by { Rem360Range(0.0); }
    AppendIdentity(Rotation(trig, 0.0));
    assert Scaling(1.0, 1.0) == Identity;
  }

  /** Whether an INSERT draws anything once its layer is on: the name must
      be present and not blank, and name a block of the document. */
  predicate NamesBlock(blockName: Option<string>)
  {
    blockName.Some? && !Text.IsBlank(blockName.value)
  }

  // ---------------------------------------------------------------------
  // DIMENSION

  /** DxfDimension: the definition and text points, the text, the name of
      the block holding the drawn dimension, the style, the measurement and
      two angles. */
  datatype DimensionData = DimensionData(defPoint: Point2D, textPoint: Point2D, text: Option<string>,
                                         block: Option<string>, dimStyle: Option<string>,
                                         actualMeasurement: real, textRotation: real, horizontalDirection: real)

  /** The DIMENSION decoder reads only the "AcDbDimension" range, with
      Double.parseDouble; a missing range is dereferenced and throws. */
  function DecodeDimension(ns: NumberSyntax, ps: seq<Pair>): (r: Outcome<DimensionData>)
    ensures SubclassPairs(ps, "AcDbDimension").None? ==> r == Fail(MissingSubclass("AcDbDimension"))
    ensures r.Ok? ==> var range := SubclassPairs(ps, "AcDbDimension").value;
                      r.value.block == GetValue(range, 2) && r.value.text == GetValue(range, 1)
                      && r.value.dimStyle == GetValue(range, 3)
                      && Ok(r.value.defPoint.x) == RealAt(ns, Strict, range, 10)
                      && Ok(r.value.textPoint.x) == RealAt(ns, Strict, range, 11)
  {
    match SubclassPairs(ps, "AcDbDimension")
    case None => Fail(MissingSubclass("AcDbDimension"))
    case Some(range) => DecodeDimensionRange(ns, range)
  }

  /** The fields of a dimension, from the pairs of its range. */
  function DecodeDimensionRange(ns: NumberSyntax, range: seq<Pair>): (r: Outcome<DimensionData>)
    ensures r.Ok? ==> r.value.block == GetValue(range, 2) && r.value.text == GetValue(range, 1)
                      && r.value.dimStyle == GetValue(range, 3)
                      && Ok(r.value.defPoint.x) == RealAt(ns, Strict, range, 10)
                      && Ok(r.value.textPoint.x) == RealAt(ns, Strict, range, 11)
  {
    var defX :- RealAt(ns, Strict, range, 10);
    var defY :- RealAt(ns, Strict, range, 20);
    var textX :- RealAt(ns, Strict, range, 11);
    var textY :- RealAt(ns, Strict, range, 21);
    var measurement :- RealOr(ns, Strict, range, 42, "0");
    var textRotation :- RealOr(ns, Strict, range, 53, "0");
    var horizontal :- RealOr(ns, Strict, range, 51, "0");
    Ok(DimensionData(Point2D(defX, defY), Point2D(textX, textY), GetValue(range, 1), GetValue(range, 2),
                     GetValue(range, 3), measurement, textRotation, horizontal))
  }

  /** Pairs outside the "AcDbDimension" range never reach the decoder: a
      block name given before the marker, or anything after the next marker,
      is not seen. */
  lemma DecodeDimensionReadsOnlyItsRange(ns: NumberSyntax, before: seq<Pair>, range: seq<Pair>, after: seq<Pair>)
    requires forall j :: 0 <= j < |before| ==> before[j] != Pair(SubclassMarker, "AcDbDimension")
    requires forall j :: 0 <= j < |range| ==> range[j].code != SubclassMarker
    requires after == [] || after[0].code == SubclassMarker
    ensures DecodeDimension(ns, before + [Pair(SubclassMarker, "AcDbDimension")] + range + after)
            == DecodeDimension(ns, [Pair(SubclassMarker, "AcDbDimension")] + range)
  {
    SubclassPairsOfRange(before, "AcDbDimension", range, after);
    SubclassPairsOfRange([], "AcDbDimension", range, []);
    assert [] + [Pair(SubclassMarker, "AcDbDimension")] + range + [] == [Pair(SubclassMarker, "AcDbDimension")] + range;
  }

  // ---------------------------------------------------------------------
  // VIEWPORT

  /** DxfViewport: the viewport's centre and size on paper, the centre and
      height of the model view it shows, the view width, its id, the
      transform from model to paper and the bounding box. Quotients whose
      divisor is 0 are non-finite in Java and absent here. */
  datatype ViewportData = ViewportData(center: Point2D, width: real, height: real, viewCenter: Point2D,
                                       viewHeight: real, viewWidth: Option<real>, id: int,
                                       blockTransform: Option<Affine>, boundsMin: Point2D, boundsMax: Point2D)

  /** calcBoundingBox: the box of the given size centred on the centre. */
  function BoundsMin(center: Point2D, width: real, height: real): Point2D
  {
    Point2D(center.x - width / 2.0, center.y - height / 2.0)
  }

  function BoundsMax(center: Point2D, width: real, height: real): Point2D
  {
    Point2D(center.x + width / 2.0, center.y + height / 2.0)
  }

  /** The box is centred on the viewport's centre and spans its width and
      height. */
  lemma BoundsCentred(center: Point2D, width: real, height: real)
    ensures var lo, hi := BoundsMin(center, width, height), BoundsMax(center, width, height);
            (lo.x + hi.x) / 2.0 == center.x && (lo.y + hi.y) / 2.0 == center.y
            && hi.x - lo.x == width && hi.y - lo.y == height
  {
  }

  /** The view width keeps the viewport's aspect ratio. */
  function ViewWidth(width: real, height: real, viewHeight: real): (r: Option<real>)
    ensures r.Some? <==> height != 0.0
    ensures r.Some? ==> r.value * height == width * viewHeight
  {
    if height == 0.0 then None else Some(width * viewHeight / height)
  }

  /** The transform as the code composes it: the scaling by
      height / viewHeight, with the translation centre − viewCentre·factor
      appended, so applied before the scaling. */
  function ViewTransformAsWritten(center: Point2D, height: real, viewCenter: Point2D, viewHeight: real): Option<Affine>
  {
    if viewHeight == 0.0 then None
    else
      var scaleFactor := height / viewHeight;
      Some(Append(Scaling(scaleFactor, scaleFactor),
                  Translation(center.x - viewCenter.x * scaleFactor, center.y - viewCenter.y * scaleFactor)))
  }

  /** The transform the translation was computed for: scale first, then
      move, so the view centre lands on the viewport centre. */
  function ViewTransform(center: Point2D, height: real, viewCenter: Point2D, viewHeight: real): Option<Affine>
  {
    if viewHeight == 0.0 then None
    else
      var scaleFactor := height / viewHeight;
      Some(Append(Translation(center.x - viewCenter.x * scaleFactor, center.y - viewCenter.y * scaleFactor),
                  Scaling(scaleFactor, scaleFactor)))
  }

  /** As written, the view centre lands on the viewport centre only when
      the factor is 1 or the viewport centre is the view centre scaled by the
      factor: a view of height 1 centred at (1, 0) shown in a viewport of
      height 2 centred at the origin misses it. */
  lemma ViewTransformAsWrittenMissesCentre(center: Point2D, height: real, viewCenter: Point2D, viewHeight: real)
    requires viewHeight != 0.0
    ensures var t := ViewTransformAsWritten(center, height, viewCenter, viewHeight).value;
            var k := height / viewHeight;
            Apply(t, viewCenter) == center <==> k == 1.0 || center == Point2D(k * viewCenter.x, k * viewCenter.y)
  {
    var k := height / viewHeight;
    ViewTransformAsWrittenApplies(center, height, viewCenter, viewHeight, viewCenter);
    LandsOnCentre(k, center.x, viewCenter.x);
    LandsOnCentre(k, center.y, viewCenter.y);
  }

  /** One coordinate of the as-written image of the view centre, factored:
      k·v + k·(c − v·k) − c = (k − 1)·(c − k·v). */
  lemma LandsOnCentre(k: real, c: real, v: real)
    ensures k * v + k * (c - v * k) == c <==> k == 1.0 || c == k * v
  {
    assert k * v + k * (c - v * k) - c == (k - 1.0) * (c - k * v);
    if (k - 1.0) * (c - k * v) == 0.0 {
      ZeroProduct(k - 1.0, c - k * v);
    }
  }

  lemma ZeroProduct(a: real, b: real)
    requires a * b == 0.0
    ensures a == 0.0 || b == 0.0
  {
    if a != 0.0 {
      assert b == (a * b) / a;
    }
  }

  /** As written, a point p lands on k·p + k·(centre − viewCentre·k), with
      k = height / viewHeight. */
  lemma ViewTransformAsWrittenApplies(center: Point2D, height: real, viewCenter: Point2D, viewHeight: real,
                                      p: Point2D)
    requires viewHeight != 0.0
    ensures var t := ViewTransformAsWritten(center, height, viewCenter, viewHeight).value;
            var k := height / viewHeight;
            Apply(t, p) == Point2D(k * p.x + k * (center.x - viewCenter.x * k), k * p.y + k * (center.y - viewCenter.y * k))
  {
    var k := height / viewHeight;
    MoveThenScale(k, center.x - viewCenter.x * k, center.y - viewCenter.y * k, p);
  }

  /** The intended transform sends the view centre to the viewport centre
      and scales every distance by height / viewHeight. */
  lemma ViewTransformMapsViewCentre(center: Point2D, height: real, viewCenter: Point2D, viewHeight: real,
                                    p: Point2D, q: Point2D)
    requires viewHeight != 0.0
    ensures var t := ViewTransform(center, height, viewCenter, viewHeight).value;
            var k := height / viewHeight;
            Apply(t, viewCenter) == center
            && Apply(t, p).x - Apply(t, q).x == k * (p.x - q.x)
            && Apply(t, p).y - Apply(t, q).y == k * (p.y - q.y)
  {
    var k := height / viewHeight;
    var a, b := center.x - viewCenter.x * k, center.y - viewCenter.y * k;
    ScaleThenMove(k, a, b, viewCenter);
    ScaleThenMove(k, a, b, p);
    ScaleThenMove(k, a, b, q);
    Difference(k, p.x, q.x, a);
    Difference(k, p.y, q.y, b);
  }

  lemma MoveThenScale(k: real, a: real, b: real, p: Point2D)
    ensures Apply(Append(Scaling(k, k), Translation(a, b)), p) == Point2D(k * p.x + k * a, k * p.y + k * b)
  {
    var t := Append(Scaling(k, k), Translation(a, b));
    assert t == Affine(k, 0.0, k * a, 0.0, k, k * b);
    UniformApply(k, k * a, k * b, p);
  }

  lemma ScaleThenMove(k: real, a: real, b: real, p: Point2D)
    ensures Apply(Append(Translation(a, b), Scaling(k, k)), p) == Point2D(k * p.x + a, k * p.y + b)
  {
    var t := Append(Translation(a, b), Scaling(k, k));
    assert t == Affine(k, 0.0, a, 0.0, k, b);
    UniformApply(k, a, b, p);
  }

  /** A uniform scaling by k followed by a move by (a, b), applied. */
  lemma UniformApply(k: real, a: real, b: real, p: Point2D)
    ensures Apply(Affine(k, 0.0, a, 0.0, k, b), p) == Point2D(k * p.x + a, k * p.y + b)
  {
    var r := Apply(Affine(k, 0.0, a, 0.0, k, b), p);
    assert r.x == k * p.x + 0.0 * p.y + a;
    assert r.y == 0.0 * p.x + k * p.y + b;
    ZeroTimes(p.x);
    ZeroTimes(p.y);
  }

  lemma ZeroTimes(u: real)
    ensures 0.0 * u == 0.0
  {
  }

  lemma Difference(k: real, u: real, v: real, a: real)
    ensures (k * u + a) - (k * v + a) == k * (u - v)
  {
  }

  /** The VIEWPORT decoder: centre (codes 10/20), size (40/41), view centre
      (12/22) and view height (45), all required, and the id (code 69). */
  function DecodeViewport(ns: NumberSyntax, ps: seq<Pair>): (r: Outcome<ViewportData>)
    ensures r.Ok? ==> r.value.blockTransform == ViewTransform(r.value.center, r.value.height, r.value.viewCenter,
                                                              r.value.viewHeight)
    ensures r.Ok? ==> r.value.boundsMin == BoundsMin(r.value.center, r.value.width, r.value.height)
                      && r.value.boundsMax == BoundsMax(r.value.center, r.value.width, r.value.height)
    ensures r.Ok? ==> Ok(r.value.height) == RealAt(ns, Lenient, ps, 41)
                      && Ok(r.value.viewHeight) == RealAt(ns, Lenient, ps, 45)
  {
    var cx :- RealAt(ns, Lenient, ps, 10);
    var cy :- RealAt(ns, Lenient, ps, 20);
    var width :- RealAt(ns, Lenient, ps, 40);
    var height :- RealAt(ns, Lenient, ps, 41);
    var vcx :- RealAt(ns, Lenient, ps, 12);
    var vcy :- RealAt(ns, Lenient, ps, 22);
    var viewHeight :- RealAt(ns, Lenient, ps, 45);
    var id :- IntegerAt(ns, Lenient, ps, 69);
    var center := Point2D(cx, cy);
    var viewCenter := Point2D(vcx, vcy);
    Ok(ViewportData(center, width, height, viewCenter, viewHeight, ViewWidth(width, height, viewHeight), id,
                    ViewTransform(center, height, viewCenter, viewHeight),
                    BoundsMin(center, width, height), BoundsMax(center, width, height)))
  }
}
