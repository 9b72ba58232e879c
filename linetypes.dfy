// A line type of the LTYPE table and the dash array drawn from its
// description.
module LineTypes {
  import opened Results
  import opened Text

  /** DxfLineType: every field is stored as given. The pattern is absent
      (null) when the table declares no items. */
  datatype LineType = LineType(
    name: string,
    flags: int,
    complexFlags: int,
    description: string,
    itemCount: int,
    pattern: Option<seq<real>>,
    patternLength: real)

  /** A line type without pattern items draws solid lines. */
  predicate IsContinuous(lt: LineType)
  {
    lt.itemCount == 0
  }

  /** The line type returned for a name the table does not hold. */
  const DefaultLineType: LineType := LineType("CONTINUOUS", 0, 0, "Solid line", 0, None, 0.0)

  lemma DefaultLineTypeIsContinuous()
    ensures IsContinuous(DefaultLineType) && DefaultLineType.pattern.None?
  {
  }

  /** The (on, off) lengths of one description character, before scaling:
      a space is all gap, an underscore all dash, a dot and a hyphen short
      and long dashes, anything else a medium dash. */
  function OnLength(c: char): real
  {
    if c == ' ' then 0.0 else if c == '.' then 1.0 else if c == '-' then 5.0
    else if c == '_' then 10.0 else 3.0
  }

  function OffLength(c: char): real
  {
    if c == ' ' then 10.0 else if c == '.' then 3.0 else if c == '-' then 3.0
    else if c == '_' then 0.0 else 3.0
  }

  /** A pattern length multiplied by the line-type scale. */
  function Scaled(length: real, scale: real): real
  {
    length * scale
  }

  /** The trimmed description, padded with one space to an even length. */
  function PaddedDescription(desc: string): (p: string)
    ensures |p| % 2 == 0
    ensures p == Trim(desc) || p == Trim(desc) + " "
    ensures p == [] <==> Trim(desc) == []
  {
    var t := Trim(desc);
    if |t| % 2 == 1 then t + " " else t
  }

  /** One (on, off) pair per character of p, scaled, in character order. */
  function Dashes(p: string, scale: real): seq<real>
  {
    if p == [] then []
    else
      var c := p[|p| - 1];
      Dashes(p[..|p| - 1], scale) + [Scaled(OnLength(c), scale), Scaled(OffLength(c), scale)]
  }

  lemma DashesSnoc(p: string, c: char, scale: real)
    ensures Dashes(p + [c], scale) == Dashes(p, scale) + [Scaled(OnLength(c), scale), Scaled(OffLength(c), scale)]
  {
    assert (p + [c])[..|p|] == p;
  }

  /** The dash array of a description: what makeDashArray returns. */
  function DashArray(desc: string, scale: real): seq<real>
  {
    Dashes(PaddedDescription(desc), scale)
  }

  /** The dash array alternates on and off lengths, two per padded
      character, in description order. */
  lemma {:induction false} DashesShape(p: string, scale: real)
    ensures |Dashes(p, scale)| == 2 * |p|
    ensures forall i :: 0 <= i < |p| ==>
              Dashes(p, scale)[2 * i] == Scaled(OnLength(p[i]), scale)
              && Dashes(p, scale)[2 * i + 1] == Scaled(OffLength(p[i]), scale)
  {
    if p != [] {
      var init := p[..|p| - 1];
      DashesShape(init, scale);
      assert forall i :: 0 <= i < |init| ==> p[i] == init[i];
    }
  }

  /** A description that trims to nothing draws no dashes; any other one
      draws at least one pair per character. */
  lemma DashArrayOfBlank(desc: string, scale: real)
    ensures DashArray(desc, scale) == [] <==> IsBlank(desc)
    ensures |DashArray(desc, scale)| >= 2 * |Trim(desc)|
  {
    var p := PaddedDescription(desc);
    DashesShape(p, scale);
    assert |p| >= |Trim(desc)|;
    assert DashArray(desc, scale) == [] <==> p == [];
  }

  /** A dot pattern: one short dash and a gap, scaled. */
  lemma DashArrayExample()
    ensures DashArray(" . ", 2.0) == [2.0, 6.0, 0.0, 20.0]
  {
    assert " . "[1..] == ". ";
    assert TrimStart(" . ") == TrimStart(". ") == ". ";
    assert ". "[..1] == ".";
    assert TrimEnd(". ") == TrimEnd(".") == ".";
    assert PaddedDescription(" . ") == ". ";
    assert ". "[..1] == ".";
    assert "."[..0] == "";
  }

  /** makeDashArray: walks the padded description and appends the scaled
      on and off lengths of each character. */
  method MakeDashArray(lt: LineType, lineTypeScale: real) returns (dashes: seq<real>)
    ensures dashes == DashArray(lt.description, lineTypeScale)
  {
    var pattern := PaddedDescription(lt.description);
    var numberOfDashes := |pattern| - |pattern| % 2;
    dashes := [];
    var i := 0;
    while i < numberOfDashes
      invariant numberOfDashes == |pattern| && 0 <= i <= numberOfDashes
      invariant dashes == Dashes(pattern[..i], lineTypeScale)
    {
      var c := pattern[i];
      assert pattern[..i + 1] == pattern[..i] + [c];
      DashesSnoc(pattern[..i], c, lineTypeScale);
      dashes := dashes + [Scaled(OnLength(c), lineTypeScale), Scaled(OffLength(c), lineTypeScale)];
      i := i + 1;
    }
    assert pattern[..i] == pattern;
  }
}
