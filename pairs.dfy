// The ordered list of (group code, value) pairs that makes up one DXF
// structure, the searches the decoders run over it, and the lazy iterator
// over the values of one group code.
module Pairs {
  import opened Results
  import opened Text

  /** One group-code line and the value line after it. */
  datatype Pair = Pair(code: int, value: string)

  /** The group code that opens a subclass range ("AcDbEntity", ...). */
  const SubclassMarker: int := 100

  /** Position of the first pair with the given code. */
  function FirstIndex(ps: seq<Pair>, code: int): (r: Option<nat>)
    ensures r.Some? ==> r.value < |ps| && ps[r.value].code == code
    ensures r.Some? ==> forall j :: 0 <= j < r.value ==> ps[j].code != code
    ensures r.None? <==> forall j :: 0 <= j < |ps| ==> ps[j].code != code
  {
    if ps == [] then None
    else if ps[0].code == code then Some(0)
    else match FirstIndex(ps[1..], code)
      case None => None
      case Some(i) => Some(i + 1)
  }

  /** The search behind getValue(k, default): the value of the first pair
      with code k, or the default when there is none. */
  function GetValueOr(ps: seq<Pair>, code: int, default: Option<string>): (r: Option<string>)
    ensures (exists j :: 0 <= j < |ps| && ps[j].code == code) ==>
              var i := FirstIndex(ps, code).value; r == Some(ps[i].value)
    ensures (forall j :: 0 <= j < |ps| ==> ps[j].code != code) ==> r == default
    ensures default.Some? ==> r.Some?
  {
    match FirstIndex(ps, code)
    case None => default
    case Some(i) => Some(ps[i].value)
  }

  /** getValue(k): null (None) when no pair has code k. */
  function GetValue(ps: seq<Pair>, code: int): (r: Option<string>)
    ensures r.Some? <==> exists j :: 0 <= j < |ps| && ps[j].code == code
  {
    GetValueOr(ps, code, None)
  }

  /** The values of the pairs with the given code, in list order. */
  function ValuesOf(ps: seq<Pair>, code: int): seq<string>
  {
    if ps == [] then []
    else (if ps[0].code == code then [ps[0].value] else []) + ValuesOf(ps[1..], code)
  }

  lemma {:induction false} ValuesOfAppend(a: seq<Pair>, b: seq<Pair>, code: int)
    ensures ValuesOf(a + b, code) == ValuesOf(a, code) + ValuesOf(b, code)
  {
    if a == [] {
      assert a + b == b;
    } else {
      assert (a + b)[1..] == a[1..] + b;
      ValuesOfAppend(a[1..], b, code);
    }
  }

  /** The value list is empty exactly when the code is absent, and it starts
      with the value getValue finds. */
  lemma {:induction false} ValuesOfHead(ps: seq<Pair>, code: int)
    ensures ValuesOf(ps, code) == [] <==> GetValue(ps, code).None?
    ensures ValuesOf(ps, code) != [] ==> ValuesOf(ps, code)[0] == GetValue(ps, code).value
  {
    if ps != [] && ps[0].code != code {
      ValuesOfHead(ps[1..], code);
      assert forall j :: 1 <= j < |ps| ==> ps[j] == ps[1..][j - 1];
      assert GetValue(ps, code) == GetValue(ps[1..], code);
    }
  }

  /** iterator(k): the pairs the iterator still has to visit, from the
      first pair with code k to the end of the list; None for the null
      iterator handed back when no pair has code k. */
  function PairsFrom(ps: seq<Pair>, code: int): (r: Option<seq<Pair>>)
    ensures r.None? <==> forall j :: 0 <= j < |ps| ==> ps[j].code != code
    ensures r.Some? ==> 0 < |r.value| <= |ps| && r.value == ps[|ps| - |r.value|..] && r.value[0].code == code
    ensures r.Some? ==> forall j :: 0 <= j < |ps| - |r.value| ==> ps[j].code != code
  {
    match FirstIndex(ps, code)
    case None => None
    case Some(i) => Some(ps[i..])
  }

  /** A list without code k has no value for it. */
  lemma {:induction false} ValuesOfAbsent(ps: seq<Pair>, code: int)
    requires forall j :: 0 <= j < |ps| ==> ps[j].code != code
    ensures ValuesOf(ps, code) == []
  {
    if ps != [] {
      ValuesOfAbsent(ps[1..], code);
    }
  }

  /** Starting the iterator at the first pair with code k skips none of
      the values of code k. */
  lemma PairsFromKeepsValues(ps: seq<Pair>, code: int)
    requires PairsFrom(ps, code).Some?
    ensures ValuesOf(PairsFrom(ps, code).value, code) == ValuesOf(ps, code)
  {
    var rest := PairsFrom(ps, code).value;
    var skipped := ps[..|ps| - |rest|];
    assert ps == skipped + rest;
    ValuesOfAbsent(skipped, code);
    ValuesOfAppend(skipped, rest, code);
  }

  /** Position of the first pair (100, name) whose value equals name exactly
      (String.compareTo == 0). */
  function MarkerIndex(ps: seq<Pair>, name: string): (r: Option<nat>)
    ensures r.Some? ==> r.value < |ps| && ps[r.value] == Pair(SubclassMarker, name)
    ensures r.Some? ==> forall j :: 0 <= j < r.value ==> ps[j] != Pair(SubclassMarker, name)
    ensures r.None? <==> forall j :: 0 <= j < |ps| ==> ps[j] != Pair(SubclassMarker, name)
  {
    if ps == [] then None
    else if ps[0] == Pair(SubclassMarker, name) then Some(0)
    else match MarkerIndex(ps[1..], name)
      case None => None
      case Some(i) => Some(i + 1)
  }

  /** Position of the first subclass marker whose value equals name when
      case is ignored. */
  function MarkerIndexIgnoreCase(ps: seq<Pair>, name: string): (r: Option<nat>)
    ensures r.Some? ==> r.value < |ps| && ps[r.value].code == SubclassMarker
                        && EqualsIgnoreCase(name, ps[r.value].value)
    ensures r.Some? ==> forall j :: 0 <= j < r.value ==>
                          !(ps[j].code == SubclassMarker && EqualsIgnoreCase(name, ps[j].value))
    ensures r.None? <==> forall j :: 0 <= j < |ps| ==>
                          !(ps[j].code == SubclassMarker && EqualsIgnoreCase(name, ps[j].value))
  {
    if ps == [] then None
    else if ps[0].code == SubclassMarker && EqualsIgnoreCase(name, ps[0].value) then Some(0)
    else match MarkerIndexIgnoreCase(ps[1..], name)
      case None => None
      case Some(i) => Some(i + 1)
  }

  /** The pairs before the first subclass marker (all of them when there
      is none). */
  function UpToMarker(ps: seq<Pair>): (r: seq<Pair>)
    ensures |r| <= |ps| && r == ps[..|r|]
    ensures forall j :: 0 <= j < |r| ==> r[j].code != SubclassMarker
    ensures |r| == |ps| || ps[|r|].code == SubclassMarker
  {
    if ps == [] || ps[0].code == SubclassMarker then [] else [ps[0]] + UpToMarker(ps[1..])
  }

  /** getSubclassPairs: the pairs after the first exact (100, name) marker,
      up to but not including the next subclass marker; None (null) when the
      marker is absent. */
  function SubclassPairs(ps: seq<Pair>, name: string): (r: Option<seq<Pair>>)
    ensures r.None? <==> MarkerIndex(ps, name).None?
    ensures r.None? <==> forall j :: 0 <= j < |ps| ==> ps[j] != Pair(SubclassMarker, name)
    ensures r.Some? ==>
      var i := MarkerIndex(ps, name).value;
      i + 1 + |r.value| <= |ps| && r.value == ps[i + 1..i + 1 + |r.value|]
      && (forall j :: 0 <= j < |r.value| ==> r.value[j].code != SubclassMarker)
      && (i + 1 + |r.value| == |ps| || ps[i + 1 + |r.value|].code == SubclassMarker)
  {
    match MarkerIndex(ps, name)
    case None => None
    case Some(i) =>
      var range := UpToMarker(ps[i + 1..]);
      assert range == ps[i + 1..][..|range|] == ps[i + 1..i + 1 + |range|];
      Some(range)
  }

  /** getSubclassValue: the first value with the given code after the first
      marker that matches name ignoring case, searching to the end of the
      list (not only the marker's own range); None when the marker or the
      code is missing. */
  function SubclassValue(ps: seq<Pair>, code: int, name: string): (r: Option<string>)
    ensures MarkerIndexIgnoreCase(ps, name).None? ==> r.None?
    ensures MarkerIndexIgnoreCase(ps, name).Some? ==>
      r == GetValue(ps[MarkerIndexIgnoreCase(ps, name).value + 1..], code)
  {
    match MarkerIndexIgnoreCase(ps, name)
    case None => None
    case Some(i) => GetValue(ps[i + 1..], code)
  }

  /** The range of a marker is found wherever the marker stands: whatever
      comes before the first matching marker, the pairs after it up to the
      next marker are the range. */
  lemma SubclassPairsOfRange(before: seq<Pair>, name: string, range: seq<Pair>, after: seq<Pair>)
    requires forall j :: 0 <= j < |before| ==> before[j] != Pair(SubclassMarker, name)
    requires forall j :: 0 <= j < |range| ==> range[j].code != SubclassMarker
    requires after == [] || after[0].code == SubclassMarker
    ensures SubclassPairs(before + [Pair(SubclassMarker, name)] + range + after, name) == Some(range)
  {
    var ps := before + [Pair(SubclassMarker, name)] + range + after;
    MarkerIndexAfter(before, name, [Pair(SubclassMarker, name)] + range + after);
    assert ps == before + ([Pair(SubclassMarker, name)] + range + after);
    assert ps[|before| + 1..] == range + after;
    UpToMarkerOfRange(range, after);
  }

  lemma {:induction false} MarkerIndexAfter(before: seq<Pair>, name: string, rest: seq<Pair>)
    requires forall j :: 0 <= j < |before| ==> before[j] != Pair(SubclassMarker, name)
    requires rest != [] && rest[0] == Pair(SubclassMarker, name)
    ensures MarkerIndex(before + rest, name) == Some(|before|)
  {
    if before != [] {
      assert (before + rest)[1..] == before[1..] + rest;
      MarkerIndexAfter(before[1..], name, rest);
    }
  }

  lemma {:induction false} UpToMarkerOfRange(range: seq<Pair>, after: seq<Pair>)
    requires forall j :: 0 <= j < |range| ==> range[j].code != SubclassMarker
    requires after == [] || after[0].code == SubclassMarker
    ensures UpToMarker(range + after) == range
  {
    if range != [] {
      assert (range + after)[1..] == range[1..] + after;
      UpToMarkerOfRange(range[1..], after);
    }
  }

  /** The two subclass searches disagree: the range stops at the next
      marker and matches the name exactly ... */
  lemma SubclassPairsStopAtMarker()
    ensures var ps := [Pair(100, "AcDbEntity"), Pair(100, "AcDbLine"), Pair(8, "WALLS")];
            SubclassPairs(ps, "AcDbEntity") == Some([])
            && SubclassPairs(ps, "ACDBENTITY").None?
  {
    var ps := [Pair(100, "AcDbEntity"), Pair(100, "AcDbLine"), Pair(8, "WALLS")];
    assert MarkerIndex(ps, "AcDbEntity") == Some(0);
    assert FirstIndex(ps[1..], SubclassMarker) == Some(0);
    assert ps[0] != Pair(SubclassMarker, "ACDBENTITY");
    assert ps[1] != Pair(SubclassMarker, "ACDBENTITY");
  }

  /** ... while the single-value search ignores case and runs past later
      markers. */
  lemma SubclassValueCrossesMarkers()
    ensures var ps := [Pair(100, "AcDbEntity"), Pair(100, "AcDbLine"), Pair(8, "WALLS")];
            SubclassValue(ps, 8, "AcDbEntity") == Some("WALLS")
            && SubclassValue(ps, 8, "ACDBENTITY") == Some("WALLS")
  {
    var ps := [Pair(100, "AcDbEntity"), Pair(100, "AcDbLine"), Pair(8, "WALLS")];
    assert Upper("ACDBENTITY") == Upper("AcDbEntity");
    assert MarkerIndexIgnoreCase(ps, "ACDBENTITY") == Some(0);
    assert MarkerIndexIgnoreCase(ps, "AcDbEntity") == Some(0);
    assert ps[1..][1..] == [Pair(8, "WALLS")];
  }

  /** The pair list of one structure. */
  class PairContainer {
    var pairs: seq<Pair>

    constructor ()
      ensures pairs == []
    {
      pairs := [];
    }

    /** add: exactly one pair at the end, the others unchanged. */
    method Add(code: int, value: string)
      modifies this
      ensures pairs == old(pairs) + [Pair(code, value)]
    {
      pairs := pairs + [Pair(code, value)];
    }

    method Clear()
      modifies this
      ensures pairs == []
    {
      pairs := [];
    }
  }

  /** The iterator iteratorForValue(k) returns: it walks the pair list and
      caches the value of the next pair with code k until next() hands it
      out. The list it walks is not changed while it is in use. */
  class ValueIterator {
    const source: seq<Pair>
    const key: int
    var cursor: nat
    var cached: Option<string>

    ghost predicate Valid()
      reads this
    {
      cursor <= |source|
    }

    /** The values next() will still produce, in order. */
    function Remaining(): seq<string>
      reads this
      requires Valid()
    {
      (if cached.Some? then [cached.value] else []) + ValuesOf(source[cursor..], key)
    }

    constructor (ps: seq<Pair>, k: int)
      ensures Valid() && source == ps && key == k
      ensures Remaining() == ValuesOf(ps, k)
    {
      source, key := ps, k;
      cursor, cached := 0, None;
      assert ps[0..] == ps;
    }

    /** hasNext: scans ahead to the next pair with the key and caches its
        value; what remains to be produced does not change, so calling it
        twice answers the same. */
    method HasNext() returns (b: bool)
      requires Valid()
      modifies this
      ensures Valid() && Remaining() == old(Remaining())
      ensures b <==> Remaining() != []
      ensures b ==> cached.Some?
    {
      if cached.Some? {
        return true;
      }
      while cursor < |source|
        invariant Valid() && cached.None?
        invariant ValuesOf(source[cursor..], key) == old(Remaining())
        decreases |source| - cursor
      {
        var p := source[cursor];
        assert source[cursor..][1..] == source[cursor + 1..];
        cursor := cursor + 1;
        if p.code == key {
          cached := Some(p.value);
          return true;
        }
      }
      return false;
    }

    /** next: the next value, or NoSuchElementException when none is left. */
    method Next() returns (r: Outcome<string>)
      requires Valid()
      modifies this
      ensures Valid()
      ensures old(Remaining()) == [] ==> r == Fail(NoSuchElement) && Remaining() == []
      ensures old(Remaining()) != [] ==>
                r == Ok(old(Remaining())[0]) && Remaining() == old(Remaining())[1..]
    {
      if cached.None? {
        var more := HasNext();
        if !more {
          return Fail(NoSuchElement);
        }
      }
      r := Ok(cached.value);
      cached := None;
    }
  }
}
