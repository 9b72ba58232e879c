// The DXF reader: group-code/value pairs read two lines at a time, the
// structures they form (a code-0 name followed by the pairs up to the next
// code 0), and the sections of the file, each handed to the parser.

module Reader {
  import opened Results
  import opened Text
  import opened Numerics
  import opened Pairs
  import opened EntityTypes
  import opened Documents
  import opened Parser
  import PE = PolylineEntities

  /** Where the reader stands: the index of the next line, the line
      counter (_line, 1 before the first line is read) and the pair pushed
      back by the last structure, if any. */
  datatype Cursor = Cursor(pos: nat, line: int, cached: Option<Pair>)

  const Start := Cursor(0, 1, None)

  /** A line as readPair uses it: trimmed (String.trim), and, when it is a
      code line, that text parsed by Integer.parseInt. */
  datatype Line = Line(code: Option<int>, text: string)

  function LineOf(s: string): (r: Line)
  {
    Line(ParseInt(Trim(s)), Trim(s))
  }

  /** The lines of the input buffer, each as readPair sees it. */
  function Lex(raw: seq<string>): seq<Line>
  {
    seq(|raw|, i requires 0 <= i < |raw| => LineOf(raw[i]))
  }

  /** What is left to read: two units per line, one for a pushed-back
      pair. Every read lowers it. */
  function Measure(lines: seq<Line>, c: Cursor): nat
  {
    2 * (if c.pos <= |lines| then |lines| - c.pos else 0) + (if c.cached.Some? then 1 else 0)
  }

  /** readPair: the pushed-back pair if there is one; otherwise a trimmed
      code line that must be a 32-bit integer (the error names the line
      counter after the code line) and the trimmed value line after it.
      Running out of lines makes readPair return null, on which every
      caller throws. */
  function NextPair(lines: seq<Line>, c: Cursor): (r: Outcome<(Pair, Cursor)>)
    ensures r.Ok? ==> Measure(lines, r.value.1) < Measure(lines, c) && r.value.1.cached.None?
  {
    if c.cached.Some? then Ok((c.cached.value, c.(cached := None)))
    else if c.pos >= |lines| then Fail(UnexpectedEndOfInput)
    else match lines[c.pos].code
      case None => Fail(CodeNotInteger(c.line + 1))
      case Some(code) =>
        if c.pos + 1 >= |lines| then Fail(UnexpectedEndOfInput)
        else Ok((Pair(code, lines[c.pos + 1].text), Cursor(c.pos + 2, c.line + 2, None)))
  }

  /** The lines a pair list is written as: the code in decimal, then the
      value. */
  function Encode(ps: seq<Pair>): (r: seq<string>)
    ensures |r| == 2 * |ps|
  {
    if ps == [] then [] else [IntToString(ps[0].code), ps[0].value] + Encode(ps[1..])
  }

  /** Pair k is written at lines 2k (its code) and 2k + 1 (its value). */
  lemma {:induction false} EncodeAt(ps: seq<Pair>, k: nat)
    requires k < |ps|
    ensures Encode(ps)[2 * k] == IntToString(ps[k].code) && Encode(ps)[2 * k + 1] == ps[k].value
  {
    if k > 0 {
      EncodeAt(ps[1..], k - 1);
    }
  }

  /** A value the reader can hand back unchanged: trimming leaves it as it
      is. */
  predicate IsWritable(p: Pair)
  {
    IsInt32(p.code) && Trim(p.value) == p.value
  }

  /** Decimal digits and a minus sign are not trimmed away. */
  lemma TrimIntToString(n: int)
    ensures Trim(IntToString(n)) == IntToString(n)
  {
    var s := IntToString(n);
    assert s != [] && !IsSpace(s[0]) && !IsSpace(s[|s| - 1]);
  }

  /** A code line holding the pair's code followed by a line holding its
      value is read as that pair. */
  lemma ReadPairOfLexed(lines: seq<Line>, c: Cursor, p: Pair)
    requires c.cached.None? && c.pos + 1 < |lines|
    requires lines[c.pos].code == Some(p.code) && lines[c.pos + 1].text == p.value
    ensures var r := NextPair(lines, c);
            r.Ok? && r.value.0 == p && r.value.1 == Cursor(c.pos + 2, c.line + 2, None)
  {
  }

  /** Reading a written pair gives the pair back and moves past its two
      lines. */
  lemma ReadPairOfEncoded(ps: seq<Pair>, k: nat, line: int)
    requires k < |ps| && IsWritable(ps[k])
    ensures var r := NextPair(Lex(Encode(ps)), Cursor(2 * k, line, None));
            r.Ok? && r.value.0 == ps[k] && r.value.1 == Cursor(2 * k + 2, line + 2, None)
  {
    EncodeAt(ps, k);
    LexOfWritten(Encode(ps), 2 * k, ps[k]);
    ReadPairOfLexed(Lex(Encode(ps)), Cursor(2 * k, line, None), ps[k]);
  }

  /** The two lines a writable pair is written as lex back to its code and
      its value. */
  lemma LexOfWritten(raw: seq<string>, i: nat, p: Pair)
    requires i + 1 < |raw| && IsWritable(p)
    requires raw[i] == IntToString(p.code) && raw[i + 1] == p.value
    ensures |Lex(raw)| == |raw| && Lex(raw)[i].code == Some(p.code) && Lex(raw)[i + 1].text == p.value
  {
    WrittenLines(p);
  }

  /** A written code line parses back to the code and a written value
      line trims back to the value. */
  lemma WrittenLines(p: Pair)
    requires IsWritable(p)
    ensures LineOf(IntToString(p.code)).code == Some(p.code) && LineOf(p.value).text == p.value
  {
    TrimIntToString(p.code);
    ParseIntOfIntToString(p.code);
  }

  /** pushPair: a pushed-back pair is the next one read, and reading it
      leaves the reader where it was before the push. */
  lemma ReadPairOfPushed(lines: seq<Line>, c: Cursor, p: Pair)
    requires c.cached.None?
    ensures NextPair(lines, c.(cached := Some(p))) == Ok((p, c))
  {
  }

  /** A fresh read either fails or takes exactly the next two lines and
      adds 2 to the line counter; a code line that is not an integer fails
      naming the counter after that line, and running out of lines fails
      as the end of input. */
  lemma ReadPairCases(lines: seq<Line>, c: Cursor)
    requires c.cached.None?
    ensures var r := NextPair(lines, c);
            && (r.Ok? ==> c.pos + 1 < |lines| && r.value.1 == Cursor(c.pos + 2, c.line + 2, None)
                          && Some(r.value.0.code) == lines[c.pos].code && r.value.0.value == lines[c.pos + 1].text)
            && (c.pos < |lines| && lines[c.pos].code.None? ==> r == Fail(CodeNotInteger(c.line + 1)))
            && (c.pos >= |lines| || (lines[c.pos].code.Some? && c.pos + 1 == |lines|) ==> r == Fail(UnexpectedEndOfInput))
  {
  }

  /** A code line is an integer exactly when its trimmed text parses as
      one, and the value read is the trimmed line. */
  lemma LineOfTrims(s: string)
    ensures LineOf(s).text == Trim(s) && (LineOf(s).code.Some? <==> ParseInt(Trim(s)).Some?)
    ensures LineOf(s).code.Some? ==> IsInt32(LineOf(s).code.value)
  {
  }

  /** The state of parseStructure: whether every pair so far had code 0,
      the name so far, whether control strings are being skipped, and the
      pairs in the container. */
  datatype Scan = Scan(isFirst: bool, name: string, ignoreOn: bool, pairs: seq<Pair>)

  /** Pairs that all have a positive code. */
  predicate AllPositive(ps: seq<Pair>)
  {
    forall i :: 0 <= i < |ps| ==> ps[i].code > 0
  }

  /** A scan that has read nothing but unnamed code-0 pairs yet. */
  predicate Unstarted(s: Scan)
  {
    s.isFirst && s.name == ""
  }

  /** The loop of parseStructure from a given state: pairs with a negative
      code, and every pair while control strings are skipped, are dropped;
      positive codes go into the container; the first code-0 pair with a
      non-empty value, read before any other code, names the structure;
      any later code-0 pair is pushed back and ends it. The result is the
      name, the container's pairs and where the reader stands. */
  function StructureFrom(lines: seq<Line>, c: Cursor, ignoreControl: bool, s: Scan)
    : (r: Outcome<(string, seq<Pair>, Cursor)>)
    ensures r.Ok? ==> Measure(lines, r.value.2) + (if Unstarted(s) then 1 else 0) <= Measure(lines, c)
    ensures r.Ok? ==> r.value.2.cached.Some? && r.value.2.cached.value.code == 0
    decreases Measure(lines, c)
  {
    var (p, next) :- NextPair(lines, c);
    var isFirst := s.isFirst && p.code == 0;
    var ignoreOn := if p.code == 102 && ignoreControl then !s.ignoreOn else s.ignoreOn;
    if p.code < 0 || ignoreOn then
      StructureFrom(lines, next, ignoreControl, Scan(isFirst, s.name, ignoreOn, s.pairs))
    else if p.code > 0 then
      StructureFrom(lines, next, ignoreControl, Scan(isFirst, s.name, ignoreOn, s.pairs + [p]))
    else if s.name == "" && isFirst then
      StructureFrom(lines, next, ignoreControl, Scan(isFirst, p.value, ignoreOn, s.pairs))
    else
      Ok((s.name, s.pairs, next.(cached := Some(p))))
  }

  /** parseStructure with the container holding the given pairs. */
  function Structure(lines: seq<Line>, c: Cursor, ignoreControl: bool, pairs: seq<Pair>)
    : (r: Outcome<(string, seq<Pair>, Cursor)>)
    ensures r.Ok? ==> Measure(lines, r.value.2) < Measure(lines, c)
  {
    StructureFrom(lines, c, ignoreControl, Scan(true, "", false, pairs))
  }

  /** A container that extends xs + [p] by positive codes extends xs by
      positive codes when p's code is positive. */
  lemma PositiveExtension(all: seq<Pair>, xs: seq<Pair>, p: Pair)
    requires |xs| + 1 <= |all| && all[..|xs| + 1] == xs + [p] && AllPositive(all[|xs| + 1..]) && p.code > 0
    ensures all[..|xs|] == xs && AllPositive(all[|xs|..])
  {
    assert all[..|xs|] == all[..|xs| + 1][..|xs|];
    assert all[|xs|] == all[..|xs| + 1][|xs|];
    assert forall i :: |xs| < i < |all| ==> all[i] == all[|xs| + 1..][i - |xs| - 1];
  }

  /** The container only grows, and only by pairs with a positive code:
      negative codes, control strings and code-0 pairs never reach it. */
  lemma {:induction false} StructureKeepsPositive(lines: seq<Line>, c: Cursor, ignoreControl: bool, s: Scan)
    ensures var r := StructureFrom(lines, c, ignoreControl, s);
            r.Ok? ==> |s.pairs| <= |r.value.1| && r.value.1[..|s.pairs|] == s.pairs
                      && AllPositive(r.value.1[|s.pairs|..])
    decreases Measure(lines, c)
  {
    var read := NextPair(lines, c);
    if read.Ok? {
      var (p, next) := read.value;
      var isFirst := s.isFirst && p.code == 0;
      var ignoreOn := if p.code == 102 && ignoreControl then !s.ignoreOn else s.ignoreOn;
      if p.code < 0 || ignoreOn {
        StructureKeepsPositive(lines, next, ignoreControl, Scan(isFirst, s.name, ignoreOn, s.pairs));
      } else if p.code > 0 {
        var s' := Scan(isFirst, s.name, ignoreOn, s.pairs + [p]);
        StructureKeepsPositive(lines, next, ignoreControl, s');
        var r := StructureFrom(lines, next, ignoreControl, s');
        if r.Ok? {
          PositiveExtension(r.value.1, s.pairs, p);
        }
      } else if s.name == "" && isFirst {
        StructureKeepsPositive(lines, next, ignoreControl, Scan(isFirst, p.value, ignoreOn, s.pairs));
      }
    }
  }

  /** The pairs with a positive code, in order. */
  function Positives(ps: seq<Pair>): seq<Pair>
  {
    if ps == [] then [] else (if ps[0].code > 0 then [ps[0]] else []) + Positives(ps[1..])
  }

  /** Reading at pair index i of the lines gives ps[i] and moves past its
      two lines. */
  predicate ReadsPairAt(lines: seq<Line>, ps: seq<Pair>, i: nat, line: int)
  {
    var r := NextPair(lines, Cursor(2 * i, line, None));
    i < |ps| && r.Ok? && r.value.0 == ps[i] && r.value.1 == Cursor(2 * i + 2, line + 2, None)
  }

  /** One turn of parseStructure on a pair read from the lines, with
      control strings not skipped. */
  lemma StructureStep(lines: seq<Line>, c: Cursor, s: Scan, p: Pair, next: Cursor)
    requires !s.ignoreOn
    requires var r := NextPair(lines, c); r.Ok? && r.value.0 == p && r.value.1 == next
    ensures p.code != 0 ==>
              StructureFrom(lines, c, false, s)
              == StructureFrom(lines, next, false, Scan(false, s.name, false, s.pairs + (if p.code > 0 then [p] else [])))
    ensures p.code == 0 && Unstarted(s) ==>
              StructureFrom(lines, c, false, s) == StructureFrom(lines, next, false, Scan(true, p.value, false, s.pairs))
    ensures p.code == 0 && !Unstarted(s) ==>
              StructureFrom(lines, c, false, s) == Ok((s.name, s.pairs, next.(cached := Some(p))))
  {
    if p.code < 0 {
      assert s.pairs + [] == s.pairs;
    }
  }

  /** The positive-code pairs of a non-empty slice: its first pair if
      positive, then those of the rest. */
  lemma PositivesSlice(ps: seq<Pair>, k: nat, j: nat)
    requires k < j <= |ps|
    ensures Positives(ps[k..j]) == (if ps[k].code > 0 then [ps[k]] else []) + Positives(ps[k + 1..j])
  {
    assert ps[k..j][1..] == ps[k + 1..j];
  }

  /** The body of a structure, up to the code-0 pair that ends it, goes
      into the container without its negative codes, and the code-0 pair
      is pushed back. */
  lemma {:induction false} BodyOfLines(lines: seq<Line>, ps: seq<Pair>, k: nat, j: nat, line: int, s: Scan)
    requires k <= j < |ps| && forall i, l :: k <= i <= j ==> ReadsPairAt(lines, ps, i, l)
    requires (forall i :: k <= i < j ==> ps[i].code != 0) && ps[j].code == 0
    requires !s.ignoreOn && !Unstarted(s)
    ensures var r := StructureFrom(lines, Cursor(2 * k, line, None), false, s);
            && r.Ok? && r.value.0 == s.name && r.value.1 == s.pairs + Positives(ps[k..j])
            && r.value.2 == Cursor(2 * j + 2, line + 2 * (j - k) + 2, Some(ps[j]))
    decreases j - k
  {
    assert ReadsPairAt(lines, ps, k, line);
    var p := ps[k];
    var next := Cursor(2 * (k + 1), line + 2, None);
    StructureStep(lines, Cursor(2 * k, line, None), s, p, next);
    if k == j {
      assert ps[k..j] == [];
    } else {
      assert p.code != 0;
      var added := if p.code > 0 then [p] else [];
      BodyOfLines(lines, ps, k + 1, j, line + 2, Scan(false, s.name, false, s.pairs + added));
      PositivesSlice(ps, k, j);
      AppendAssoc(s.pairs, added, Positives(ps[k + 1..j]));
    }
  }

  /** A named code-0 pair followed by pairs with non-zero codes up to the
      next code 0 is read as a structure of that name holding the
      positive-code pairs; the reader stops on the next code-0 pair,
      pushed back. */
  lemma StructureOfLines(lines: seq<Line>, ps: seq<Pair>, k: nat, j: nat, line: int, acc: seq<Pair>)
    requires k < j < |ps| && forall i, l :: k <= i <= j ==> ReadsPairAt(lines, ps, i, l)
    requires ps[k].code == 0 && ps[k].value != ""
    requires (forall i :: k < i < j ==> ps[i].code != 0) && ps[j].code == 0
    ensures var r := Structure(lines, Cursor(2 * k, line, None), false, acc);
            && r.Ok? && r.value.0 == ps[k].value && r.value.1 == acc + Positives(ps[k + 1..j])
            && r.value.2 == Cursor(2 * j + 2, line + 2 * (j - k) + 2, Some(ps[j]))
  {
    assert ReadsPairAt(lines, ps, k, line);
    BodyOfLines(lines, ps, k + 1, j, line + 2, Scan(true, ps[k].value, false, acc));
  }

  /** Round trip of parseStructure: a structure written as lines is read
      back as its name and its positive-code pairs. */
  lemma StructureOfEncoded(ps: seq<Pair>, k: nat, j: nat, line: int, acc: seq<Pair>)
    requires k < j < |ps| && forall i :: k <= i <= j ==> IsWritable(ps[i])
    requires ps[k].code == 0 && ps[k].value != ""
    requires (forall i :: k < i < j ==> ps[i].code != 0) && ps[j].code == 0
    ensures var r := Structure(Lex(Encode(ps)), Cursor(2 * k, line, None), false, acc);
            && r.Ok? && r.value.0 == ps[k].value && r.value.1 == acc + Positives(ps[k + 1..j])
            && r.value.2 == Cursor(2 * j + 2, line + 2 * (j - k) + 2, Some(ps[j]))
  {
    forall i, l | k <= i <= j
      ensures ReadsPairAt(Lex(Encode(ps)), ps, i, l)
    {
      ReadPairOfEncoded(ps, i, l);
    }
    StructureOfLines(Lex(Encode(ps)), ps, k, j, line, acc);
  }

  // ---------------------------------------------------------------------
  // Sections

  /** eatUntil: pairs are read until one has the code and, ignoring case,
      the value; the reader is left after that pair. */
  function SkipUntil(lines: seq<Line>, c: Cursor, code: int, value: string): (r: Outcome<Cursor>)
    ensures r.Ok? ==> Measure(lines, r.value) < Measure(lines, c)
    decreases Measure(lines, c)
  {
    var (p, next) :- NextPair(lines, c);
    if p.code == code && EqualsIgnoreCase(p.value, value) then Ok(next)
    else SkipUntil(lines, next, code, value)
  }

  /** eatUntil stops right after the first pair at or after k with the
      code and, ignoring case, the value. */
  lemma {:induction false} SkipUntilOfLines(lines: seq<Line>, ps: seq<Pair>, k: nat, j: nat, line: int, code: int,
                                            value: string)
    requires k <= j < |ps| && forall i, l :: k <= i <= j ==> ReadsPairAt(lines, ps, i, l)
    requires ps[j].code == code && EqualsIgnoreCase(ps[j].value, value)
    requires forall i :: k <= i < j ==> !(ps[i].code == code && EqualsIgnoreCase(ps[i].value, value))
    ensures SkipUntil(lines, Cursor(2 * k, line, None), code, value) == Ok(Cursor(2 * j + 2, line + 2 * (j - k) + 2, None))
    decreases j - k
  {
    assert ReadsPairAt(lines, ps, k, line);
    if k < j {
      SkipUntilOfLines(lines, ps, k + 1, j, line + 2, code, value);
    }
  }

  /** eatUntil on written pairs: the same, on the lines they are written
      as. */
  lemma SkipUntilOfEncoded(ps: seq<Pair>, k: nat, j: nat, line: int, code: int, value: string)
    requires k <= j < |ps| && forall i :: k <= i <= j ==> IsWritable(ps[i])
    requires ps[j].code == code && EqualsIgnoreCase(ps[j].value, value)
    requires forall i :: k <= i < j ==> !(ps[i].code == code && EqualsIgnoreCase(ps[i].value, value))
    ensures SkipUntil(Lex(Encode(ps)), Cursor(2 * k, line, None), code, value)
            == Ok(Cursor(2 * j + 2, line + 2 * (j - k) + 2, None))
  {
    forall i, l | k <= i <= j
      ensures ReadsPairAt(Lex(Encode(ps)), ps, i, l)
    {
      ReadPairOfEncoded(ps, i, l);
    }
    SkipUntilOfLines(Lex(Encode(ps)), ps, k, j, line, code, value);
  }

  /** Where a section ends: structures are read until one is named ENDSEC
      (as written in the HEADER section, upper-cased in the others), and
      the reader stands after it. */
  function SectionEnd(lines: seq<Line>, c: Cursor, ignoreControl: bool, upper: bool): (r: Outcome<Cursor>)
    ensures r.Ok? ==> Measure(lines, r.value) < Measure(lines, c)
    decreases Measure(lines, c)
  {
    var (name, _, next) :- Structure(lines, c, ignoreControl, []);
    if (if upper then Upper(name) else name) == "ENDSEC" then Ok(next)
    else SectionEnd(lines, next, ignoreControl, upper)
  }

  /** parseHeaderSection: the container is never cleared, so every
      structure before ENDSEC hands the header variables all pairs read so
      far in the section. The result is the header settings and where the
      reader stands after ENDSEC. */
  function HeaderSection(ns: NumberSyntax, lines: seq<Line>, c: Cursor, ignoreControl: bool, acc: seq<Pair>, h: Header)
    : (r: Outcome<(Header, Cursor)>)
    ensures r.Ok? ==> Measure(lines, r.value.1) < Measure(lines, c)
    decreases Measure(lines, c)
  {
    var (name, pairs, next) :- Structure(lines, c, ignoreControl, acc);
    if name == "ENDSEC" then Ok((h, next))
    else
      var h' :- ApplyHeader(ns, pairs, h);
      HeaderSection(ns, lines, next, ignoreControl, pairs, h')
  }

  /** The name parseStructure returns, where it leaves the reader and
      whether it fails do not depend on what the container held before. */
  lemma {:induction false} StructureFromAnyPairs(lines: seq<Line>, c: Cursor, ignoreControl: bool, s: Scan,
                                                 other: seq<Pair>)
    ensures var r := StructureFrom(lines, c, ignoreControl, s);
            var r' := StructureFrom(lines, c, ignoreControl, s.(pairs := other));
            && (r.Ok? <==> r'.Ok?)
            && (r.Ok? ==> r'.value.0 == r.value.0 && r'.value.2 == r.value.2)
            && (r.Fail? ==> r'.failure == r.failure)
    decreases Measure(lines, c)
  {
    var read := NextPair(lines, c);
    if read.Ok? {
      var (p, next) := read.value;
      var isFirst := s.isFirst && p.code == 0;
      var ignoreOn := if p.code == 102 && ignoreControl then !s.ignoreOn else s.ignoreOn;
      if p.code < 0 || ignoreOn {
        StructureFromAnyPairs(lines, next, ignoreControl, Scan(isFirst, s.name, ignoreOn, s.pairs), other);
      } else if p.code > 0 {
        StructureFromAnyPairs(lines, next, ignoreControl, Scan(isFirst, s.name, ignoreOn, s.pairs + [p]), other + [p]);
      } else if s.name == "" && isFirst {
        StructureFromAnyPairs(lines, next, ignoreControl, Scan(isFirst, p.value, ignoreOn, s.pairs), other);
      }
    }
  }

  /** The header section ends where any section ending at the first
      ENDSEC name (as written) ends. */
  lemma {:induction false} HeaderSectionEnd(ns: NumberSyntax, lines: seq<Line>, c: Cursor, ignoreControl: bool,
                                            acc: seq<Pair>, h: Header)
    ensures var r := HeaderSection(ns, lines, c, ignoreControl, acc, h);
            r.Ok? ==> SectionEnd(lines, c, ignoreControl, false) == Ok(r.value.1)
    decreases Measure(lines, c)
  {
    StructureFromAnyPairs(lines, c, ignoreControl, Scan(true, "", false, acc), []);
    var st := Structure(lines, c, ignoreControl, acc);
    if st.Ok? && st.value.0 != "ENDSEC" {
      var h' := ApplyHeader(ns, st.value.1, h);
      if h'.Ok? {
        HeaderSectionEnd(ns, lines, st.value.2, ignoreControl, st.value.1, h'.value);
      }
    }
  }

  /** The markTable*Started switch on the upper-cased table type. */
  function TableNamed(kind: string): (t: Table)
  {
    match kind
    case "APPID" => AppIdTable
    case "BLOCK_RECORD" => BlockRecordTable
    case "DIMSTYLE" => DimStyleTable
    case "LAYER" => LayerTable
    case "STYLE" => StyleTable
    case "LTYPE" => LTypeTable
    case "UCS" => UcsTable
    case "VIEW" => ViewTable
    case "VPORT" => VPortTable
    case _ => UnknownTable
  }

  /** The parser state the TABLES section changes: the table being read
      and the layer and line-type tables. */
  datatype TablesState = TablesState(entry: Table, tables: Tables)

  /** parseTablesSection: TABLE starts the table its upper-cased code-2
      value names (no code 2 throws), ENDTAB changes nothing, and any other
      structure is a record of the current table. */
  function TablesSection(ns: NumberSyntax, lines: seq<Line>, c: Cursor, ignoreControl: bool, st: TablesState)
    : (r: Outcome<(TablesState, Cursor)>)
    ensures r.Ok? ==> Measure(lines, r.value.1) < Measure(lines, c)
    decreases Measure(lines, c)
  {
    var (name, pairs, next) :- Structure(lines, c, ignoreControl, []);
    var upper := Upper(name);
    if upper == "ENDSEC" then Ok((st, next))
    else if upper == "TABLE" then
      match GetValue(pairs, 2)
      case None => Fail(NullReference)
      case Some(kind) => TablesSection(ns, lines, next, ignoreControl, st.(entry := TableNamed(Upper(kind))))
    else if upper == "ENDTAB" then TablesSection(ns, lines, next, ignoreControl, st)
    else
      var t :- RecordInto(ns, st.entry, st.tables, pairs);
      TablesSection(ns, lines, next, ignoreControl, st.(tables := t))
  }

  /** One structure of the BLOCKS section other than ENDSEC, by its
      upper-cased name: BLOCK starts the block its upper-cased code-2 value
      names (no code 2 throws), ENDBLK completes it, and any other
      structure goes to parseEntity in block context, with its name as the
      entity type. */
  function BlocksStep(ns: NumberSyntax, trig: Trig, ignorePaperSpace: bool, ps: seq<Pair>, upper: string, f: Filing)
    : (r: Outcome<Filing>)
    requires Fits(f)
    ensures r.Ok? ==> Fits(r.value)
  {
    if upper == "BLOCK" then
      match GetValue(ps, 2)
      case None => Fail(NullReference)
      case Some(blockName) => BlockStarted(ns, ps, Upper(blockName), f)
    else if upper == "ENDBLK" then Ok(f.(blockIsReading := false))
    else FiledInto(Decide(ns, trig, ps, CanonicalValueOf(upper), ignorePaperSpace), true, ignorePaperSpace, f)
  }

  /** parseBlocksSection: every structure up to the one named ENDSEC (in
      any case) is a step of the BLOCKS section. */
  function BlocksSection(ns: NumberSyntax, trig: Trig, ignorePaperSpace: bool, lines: seq<Line>, c: Cursor,
                         ignoreControl: bool, f: Filing): (r: Outcome<(Filing, Cursor)>)
    requires Fits(f)
    ensures r.Ok? ==> Fits(r.value.0) && Measure(lines, r.value.1) < Measure(lines, c)
    decreases Measure(lines, c)
  {
    var (name, pairs, next) :- Structure(lines, c, ignoreControl, []);
    var upper := Upper(name);
    if upper == "ENDSEC" then Ok((f, next))
    else
      var stepped :- BlocksStep(ns, trig, ignorePaperSpace, pairs, upper, f);
      BlocksSection(ns, trig, ignorePaperSpace, lines, next, ignoreControl, stepped)
  }

  /** parseEntitiesSection: every structure before ENDSEC goes to
      parseEntity outside block context. */
  function EntitiesSection(ns: NumberSyntax, trig: Trig, ignorePaperSpace: bool, lines: seq<Line>, c: Cursor,
                           ignoreControl: bool, f: Filing): (r: Outcome<(Filing, Cursor)>)
    requires Fits(f)
    ensures r.Ok? ==> Fits(r.value.0) && Measure(lines, r.value.1) < Measure(lines, c)
    decreases Measure(lines, c)
  {
    var (name, pairs, next) :- Structure(lines, c, ignoreControl, []);
    var upper := Upper(name);
    if upper == "ENDSEC" then Ok((f, next))
    else
      var filed :- FiledInto(Decide(ns, trig, pairs, CanonicalValueOf(upper), ignorePaperSpace), false,
                             ignorePaperSpace, f);
      EntitiesSection(ns, trig, ignorePaperSpace, lines, next, ignoreControl, filed)
  }

  /** Everything a run of the reader changes in the parser and its
      document, statistics aside. */
  datatype Loaded = Loaded(header: Header, tables: TablesState, filing: Filing)

  /** The settings a reader run works with: the parser's number syntax,
      trigonometry and paper-space switch, and whether control strings
      are skipped. */
  datatype Settings = Settings(ns: NumberSyntax, trig: Trig, ignorePaperSpace: bool, ignoreControl: bool)

  /** The section a code-2 pair with the upper-cased value names: HEADER,
      TABLES, BLOCKS and ENTITIES are read to their ENDSEC, and every other
      section (CLASSES and OBJECTS included) is skipped to (0, ENDSEC). */
  function SectionInto(cfg: Settings, lines: seq<Line>, c: Cursor, value: string, s: Loaded)
    : (r: Outcome<(Loaded, Cursor)>)
    requires Fits(s.filing)
    ensures r.Ok? ==> Fits(r.value.0.filing) && Measure(lines, r.value.1) < Measure(lines, c)
  {
    if value == "HEADER" then
      var (h, next) :- HeaderSection(cfg.ns, lines, c, cfg.ignoreControl, [], s.header);
      Ok((s.(header := h), next))
    else if value == "TABLES" then
      var (t, next) :- TablesSection(cfg.ns, lines, c, cfg.ignoreControl, s.tables);
      Ok((s.(tables := t), next))
    else if value == "BLOCKS" then
      var (f, next) :- BlocksSection(cfg.ns, cfg.trig, cfg.ignorePaperSpace, lines, c, cfg.ignoreControl, s.filing);
      Ok((s.(filing := f), next))
    else if value == "ENTITIES" then
      var (f, next) :- EntitiesSection(cfg.ns, cfg.trig, cfg.ignorePaperSpace, lines, c, cfg.ignoreControl,
                                       s.filing);
      Ok((s.(filing := f), next))
    else
      var next :- SkipUntil(lines, c, 0, "ENDSEC");
      Ok((s, next))
  }

  /** The loop of runReader: pairs are read until (0, EOF) in any case; a
      code-2 pair reads or skips the section it names, and every other
      pair is passed over. The result is what was loaded and where the
      reader stands after EOF. */
  function RunInto(cfg: Settings, lines: seq<Line>, c: Cursor, s: Loaded): Outcome<(Loaded, Cursor)>
    requires Fits(s.filing)
    decreases Measure(lines, c), 1
  {
    var (p, next) :- NextPair(lines, c);
    RunWith(cfg, lines, p, next, s)
  }

  /** One turn of the loop of runReader on the pair p just read, the
      reader standing at c. */
  function RunWith(cfg: Settings, lines: seq<Line>, p: Pair, c: Cursor, s: Loaded): Outcome<(Loaded, Cursor)>
    requires Fits(s.filing)
    decreases Measure(lines, c), 2
  {
    var value := Upper(p.value);
    if p.code == 0 && value == "EOF" then Ok((s, c))
    else if p.code == 2 then
      var (s', end) :- SectionInto(cfg, lines, c, value, s);
      RunInto(cfg, lines, end, s')
    else RunInto(cfg, lines, c, s)
  }

  /** read(), once the loop is done: the blocks the arrow names of the
      header find take the arrow override. */
  function Finished(s: Loaded): Loaded
  {
    var f := s.filing;
    s.(filing := f.(blockStore := OverrideArrows(f.blockStore, f.blocks, PE.Listed(s.header.arrows))))
  }

  /** The tables section ends at the first structure named ENDSEC in any
      case. */
  lemma {:induction false} TablesSectionEnd(ns: NumberSyntax, lines: seq<Line>, c: Cursor, ignoreControl: bool,
                                            st: TablesState)
    ensures var r := TablesSection(ns, lines, c, ignoreControl, st);
            r.Ok? ==> SectionEnd(lines, c, ignoreControl, true) == Ok(r.value.1)
    decreases Measure(lines, c)
  {
    var read := Structure(lines, c, ignoreControl, []);
    if read.Ok? {
      var (name, pairs, next) := read.value;
      var upper := Upper(name);
      if upper == "TABLE" {
        if GetValue(pairs, 2).Some? {
          TablesSectionEnd(ns, lines, next, ignoreControl, st.(entry := TableNamed(Upper(GetValue(pairs, 2).value))));
        }
      } else if upper == "ENDTAB" {
        TablesSectionEnd(ns, lines, next, ignoreControl, st);
      } else if upper != "ENDSEC" {
        var t := RecordInto(ns, st.entry, st.tables, pairs);
        if t.Ok? {
          TablesSectionEnd(ns, lines, next, ignoreControl, st.(tables := t.value));
        }
      }
    }
  }

  // ---------------------------------------------------------------------
  // The reader

  class DxfReader {
    /** The input buffer, each line as readPair sees it. */
    const lines: seq<Line>
    const parser: DxfParser
    /** _ignoreControlString, from parser.returnControlStrings(). */
    const ignoreControlStrings: bool

    var pos: nat
    /** _line. */
    var line: int
    /** _cachePair. */
    var cached: Option<Pair>

    function Position(): Cursor
      reads this
    {
      Cursor(pos, line, cached)
    }

    predicate Valid()
      reads this, parser, parser.doc
    {
      parser.Valid()
    }

    /** What the parser and its document hold of a run, statistics aside. */
    function LoadedOf(): (s: Loaded)
      reads this, parser, parser.doc
      ensures Valid() ==> Fits(s.filing)
    {
      Loaded(HeaderOf(parser.doc), TablesState(parser.entry, TablesOf(parser.doc)), parser.CurrentFiling())
    }

    function SettingsOf(): Settings
    {
      Settings(parser.ns, parser.trig, parser.ignorePaperSpace, ignoreControlStrings)
    }

    /** A reader at the start of the lines, with the line counter at 1 and
        nothing pushed back. The parser's returnControlStrings() is false,
        so control strings are kept. */
    constructor (raw: seq<string>, parser: DxfParser)
      requires parser.Valid()
      ensures Valid() && lines == Lex(raw) && this.parser == parser
      ensures Position() == Start && !ignoreControlStrings
    {
      lines, this.parser := Lex(raw), parser;
      ignoreControlStrings := false;
      pos, line, cached := 0, 1, None;
    }

    /** readPair. */
    method ReadPair() returns (r: Outcome<Pair>)
      modifies this`pos, this`line, this`cached
      ensures var read := NextPair(lines, old(Position()));
              && (r.Fail? <==> read.Fail?)
              && (r.Fail? ==> r.failure == read.failure)
              && (r.Ok? ==> r.value == read.value.0 && Position() == read.value.1)
    {
      if cached.Some? {
        r := Ok(cached.value);
        cached := None;
        return;
      }
      if pos >= |lines| {
        return Fail(UnexpectedEndOfInput);
      }
      var codeLine := lines[pos];
      pos, line := pos + 1, line + 1;
      if codeLine.code.None? {
        return Fail(CodeNotInteger(line));
      }
      if pos >= |lines| {
        return Fail(UnexpectedEndOfInput);
      }
      var valueLine := lines[pos];
      pos, line := pos + 1, line + 1;
      r := Ok(Pair(codeLine.code.value, valueLine.text));
    }

    /** pushPair: the pair is the next one read; the lines are not
        touched. */
    method PushPair(p: Pair)
      modifies this`cached
      ensures Position() == old(Position()).(cached := Some(p))
    {
      cached := Some(p);
    }

    /** parseStructure: the container receives the structure's pairs and
        the name is returned, as Structure says. */
    method ParseStructure(container: PairContainer) returns (r: Outcome<string>)
      modifies this`pos, this`line, this`cached, container
      ensures var st := Structure(lines, old(Position()), ignoreControlStrings, old(container.pairs));
              && (r.Fail? <==> st.Fail?)
              && (r.Fail? ==> r.failure == st.failure)
              && (r.Ok? ==> r.value == st.value.0 && container.pairs == st.value.1 && Position() == st.value.2)
    {
      ghost var st := Structure(lines, Position(), ignoreControlStrings, container.pairs);
      var isFirst, name, ignoreOn := true, "", false;
      var parsing := true;
      while parsing
        invariant parsing ==> st == StructureFrom(lines, Position(), ignoreControlStrings,
                                                  Scan(isFirst, name, ignoreOn, container.pairs))
        invariant !parsing ==> st == Ok((name, container.pairs, Position()))
        decreases Measure(lines, Position()) + (if parsing then 1 else 0)
      {
        var read := ReadPair();
        if read.Fail? {
          return Fail(read.failure);
        }
        var p := read.value;
        if p.code != 0 {
          isFirst := false;
        }
        if p.code == 102 && ignoreControlStrings {
          ignoreOn := !ignoreOn;
        }
        if p.code < 0 || ignoreOn {
        } else if p.code > 0 {
          container.Add(p.code, p.value);
        } else if name == "" && isFirst {
          name := p.value;
        } else {
          PushPair(p);
          parsing := false;
        }
      }
      r := Ok(name);
    }

    /** eatUntil. */
    method EatUntil(code: int, value: string) returns (r: Outcome<()>)
      modifies this`pos, this`line, this`cached
      ensures var skip := SkipUntil(lines, old(Position()), code, value);
              && (r.Fail? <==> skip.Fail?)
              && (r.Fail? ==> r.failure == skip.failure)
              && (r.Ok? ==> Position() == skip.value)
    {
      ghost var skip := SkipUntil(lines, Position(), code, value);
      while true
        invariant skip == SkipUntil(lines, Position(), code, value)
        decreases Measure(lines, Position())
      {
        var read := ReadPair();
        if read.Fail? {
          return Fail(read.failure);
        }
        if read.value.code == code && EqualsIgnoreCase(read.value.value, value) {
          return Ok(());
        }
      }
    }

    /** parseHeaderSection: the header settings become those
        HeaderSection gives. */
    method ParseHeaderSection() returns (r: Outcome<()>)
      requires Valid()
      modifies this`pos, this`line, this`cached
      modifies parser.doc`arrows, parser.doc`distanceUnit, parser.doc`lineTypeScale, parser.doc`limitsMin,
               parser.doc`limitsMax
      ensures Valid()
      ensures var sec := HeaderSection(parser.ns, lines, old(Position()), ignoreControlStrings, [],
                                       old(HeaderOf(parser.doc)));
              && (r.Fail? <==> sec.Fail?)
              && (r.Fail? ==> r.failure == sec.failure)
              && (r.Ok? ==> HeaderOf(parser.doc) == sec.value.0 && Position() == sec.value.1)
    {
      ghost var sec := HeaderSection(parser.ns, lines, Position(), ignoreControlStrings, [], HeaderOf(parser.doc));
      var container := new PairContainer();
      var parsing := true;
      while parsing
        invariant Valid() && fresh(container)
        invariant parsing ==> sec == HeaderSection(parser.ns, lines, Position(), ignoreControlStrings,
                                                   container.pairs, HeaderOf(parser.doc))
        invariant !parsing ==> sec == Ok((HeaderOf(parser.doc), Position()))
        decreases Measure(lines, Position())
      {
        var name := ParseStructure(container);
        if name.Fail? {
          return Fail(name.failure);
        }
        if name.value == "ENDSEC" {
          parsing := false;
        } else {
          var applied := parser.ParseHeaderVariables(container.pairs);
          if applied.Fail? {
            return Fail(applied.failure);
          }
        }
      }
      r := Ok(());
    }

    /** parseTablesSection: the table being read and the layer and
        line-type tables become those TablesSection gives. */
    method ParseTablesSection() returns (r: Outcome<()>)
      requires Valid()
      modifies this`pos, this`line, this`cached, parser`entry, parser.doc`layers, parser.doc`lineTypes
      ensures Valid()
      ensures var sec := TablesSection(parser.ns, lines, old(Position()), ignoreControlStrings,
                                       old(TablesState(parser.entry, TablesOf(parser.doc))));
              && (r.Fail? <==> sec.Fail?)
              && (r.Fail? ==> r.failure == sec.failure)
              && (r.Ok? ==> TablesState(parser.entry, TablesOf(parser.doc)) == sec.value.0 && Position() == sec.value.1)
    {
      ghost var sec := TablesSection(parser.ns, lines, Position(), ignoreControlStrings,
                                     TablesState(parser.entry, TablesOf(parser.doc)));
      var container := new PairContainer();
      var parsing := true;
      while parsing
        invariant Valid() && fresh(container)
        invariant parsing ==> sec == TablesSection(parser.ns, lines, Position(), ignoreControlStrings,
                                                   TablesState(parser.entry, TablesOf(parser.doc)))
        invariant !parsing ==> sec == Ok((TablesState(parser.entry, TablesOf(parser.doc)), Position()))
        decreases Measure(lines, Position())
      {
        container.Clear();
        var name := ParseStructure(container);
        if name.Fail? {
          return Fail(name.failure);
        }
        var upper := Upper(name.value);
        if upper == "ENDSEC" {
          parsing := false;
        } else if upper == "TABLE" {
          var kind := GetValue(container.pairs, 2);
          if kind.None? {
            return Fail(NullReference);
          }
          parser.MarkTableStarted(TableNamed(Upper(kind.value)));
        } else if upper == "ENDTAB" {
        } else {
          var record := parser.ParseTable(container.pairs, name.value);
          if record.Fail? {
            return Fail(record.failure);
          }
        }
      }
      r := Ok(());
    }

    /** parseEntity as the sections call it: the filing becomes the one
        FiledInto gives (what it counts is stated by the parser). */
    method HandEntity(ps: seq<Pair>, t: EntityType, blockContext: bool) returns (r: Outcome<()>)
      requires Valid()
      modifies parser.doc`blockStore, parser.doc`entities, parser.doc`refEntities, parser.doc`lastEntity,
               parser.doc.status
      ensures Valid()
      ensures var after := FiledInto(Decide(parser.ns, parser.trig, ps, t, parser.ignorePaperSpace), blockContext,
                                     parser.ignorePaperSpace, old(parser.CurrentFiling()));
              && (r.Fail? <==> after.Fail?)
              && (r.Fail? ==> r.failure == after.failure)
              && (r.Ok? ==> parser.CurrentFiling() == after.value)
    {
      r := parser.ParseEntity(ps, t, blockContext);
    }

    /** markBlockStarted as the BLOCKS section calls it: the filing becomes
        the one BlockStarted gives. */
    method StartBlock(ps: seq<Pair>, name: string) returns (r: Outcome<()>)
      requires Valid()
      modifies parser`newBlock, parser`blockIsReading, parser.doc`blockStore, parser.doc`pens, parser.doc`blocks
      ensures Valid()
      ensures var after := BlockStarted(parser.ns, ps, name, old(parser.CurrentFiling()));
              && (r.Fail? <==> after.Fail?)
              && (r.Fail? ==> r.failure == after.failure)
              && (r.Ok? ==> parser.CurrentFiling() == after.value)
    {
      r := parser.MarkBlockStarted(ps, name);
    }

    /** The switch of parseBlocksSection on a structure other than
        ENDSEC: the filing becomes the one BlocksStep gives. */
    method BlocksStructure(ps: seq<Pair>, upper: string) returns (r: Outcome<()>)
      requires Valid()
      modifies parser`newBlock, parser`blockIsReading
      modifies parser.doc`blockStore, parser.doc`pens, parser.doc`blocks, parser.doc`entities,
               parser.doc`refEntities, parser.doc`lastEntity, parser.doc.status
      ensures Valid()
      ensures var after := BlocksStep(parser.ns, parser.trig, parser.ignorePaperSpace, ps, upper,
                                      old(parser.CurrentFiling()));
              && (r.Fail? <==> after.Fail?)
              && (r.Fail? ==> r.failure == after.failure)
              && (r.Ok? ==> parser.CurrentFiling() == after.value)
    {
      if upper == "BLOCK" {
        var blockName := GetValue(ps, 2);
        if blockName.None? {
          return Fail(NullReference);
        }
        r := StartBlock(ps, Upper(blockName.value));
      } else if upper == "ENDBLK" {
        parser.MarkBlockCompleted();
        r := Ok(());
      } else {
        r := HandEntity(ps, CanonicalValueOf(upper), true);
      }
    }

    /** parseBlocksSection: the filing becomes the one BlocksSection gives,
        and the reader stands where it says. */
    method ParseBlocksSection() returns (r: Outcome<()>)
      requires Valid()
      modifies this`pos, this`line, this`cached, parser`newBlock, parser`blockIsReading
      modifies parser.doc`blockStore, parser.doc`pens, parser.doc`blocks, parser.doc`entities,
               parser.doc`refEntities, parser.doc`lastEntity, parser.doc.status
      ensures Valid()
      ensures var sec := BlocksSection(parser.ns, parser.trig, parser.ignorePaperSpace, lines, old(Position()),
                                       ignoreControlStrings, old(parser.CurrentFiling()));
              && (r.Fail? <==> sec.Fail?)
              && (r.Fail? ==> r.failure == sec.failure)
              && (r.Ok? ==> parser.CurrentFiling() == sec.value.0 && Position() == sec.value.1)
    {
      ghost var sec := BlocksSection(parser.ns, parser.trig, parser.ignorePaperSpace, lines, Position(),
                                     ignoreControlStrings, parser.CurrentFiling());
      var container := new PairContainer();
      var parsing := true;
      while parsing
        invariant Valid() && fresh(container)
        invariant parsing ==> sec == BlocksSection(parser.ns, parser.trig, parser.ignorePaperSpace, lines, Position(),
                                                   ignoreControlStrings, parser.CurrentFiling())
        invariant !parsing ==> sec == Ok((parser.CurrentFiling(), Position()))
        decreases Measure(lines, Position())
      {
        var ended := BlocksTurn(container);
        if ended.Fail? {
          return Fail(ended.failure);
        }
        parsing := !ended.value;
      }
      r := Ok(());
    }

    /** One turn of the parseBlocksSection loop: the container is cleared
        and receives the next structure, which ends the section (true) when
        it is ENDSEC and is a step of the section otherwise. */
    method BlocksTurn(container: PairContainer) returns (r: Outcome<bool>)
      requires Valid()
      modifies this`pos, this`line, this`cached, container, parser`newBlock, parser`blockIsReading
      modifies parser.doc`blockStore, parser.doc`pens, parser.doc`blocks, parser.doc`entities,
               parser.doc`refEntities, parser.doc`lastEntity, parser.doc.status
      ensures Valid()
      ensures r.Ok? ==> Measure(lines, Position()) < Measure(lines, old(Position()))
      ensures var sec := BlocksSection(parser.ns, parser.trig, parser.ignorePaperSpace, lines, old(Position()),
                                       ignoreControlStrings, old(parser.CurrentFiling()));
              && (r.Fail? ==> sec == Fail(r.failure))
              && (r == Ok(true) ==> sec == Ok((parser.CurrentFiling(), Position())))
              && (r == Ok(false) ==> sec == BlocksSection(parser.ns, parser.trig, parser.ignorePaperSpace, lines,
                                                           Position(), ignoreControlStrings, parser.CurrentFiling()))
    {
      container.Clear();
      var name := ParseStructure(container);
      if name.Fail? {
        return Fail(name.failure);
      }
      var upper := Upper(name.value);
      if upper == "ENDSEC" {
        return Ok(true);
      }
      var stepped := BlocksStructure(container.pairs, upper);
      if stepped.Fail? {
        return Fail(stepped.failure);
      }
      r := Ok(false);
    }

    /** parseEntitiesSection: the filing becomes the one EntitiesSection
        gives, and the reader stands where it says. */
    method ParseEntitiesSection() returns (r: Outcome<()>)
      requires Valid()
      modifies this`pos, this`line, this`cached
      modifies parser.doc`blockStore, parser.doc`entities, parser.doc`refEntities, parser.doc`lastEntity,
               parser.doc.status
      ensures Valid()
      ensures var sec := EntitiesSection(parser.ns, parser.trig, parser.ignorePaperSpace, lines, old(Position()),
                                         ignoreControlStrings, old(parser.CurrentFiling()));
              && (r.Fail? <==> sec.Fail?)
              && (r.Fail? ==> r.failure == sec.failure)
              && (r.Ok? ==> parser.CurrentFiling() == sec.value.0 && Position() == sec.value.1)
    {
      ghost var sec := EntitiesSection(parser.ns, parser.trig, parser.ignorePaperSpace, lines, Position(),
                                       ignoreControlStrings, parser.CurrentFiling());
      var container := new PairContainer();
      var parsing := true;
      while parsing
        invariant Valid() && fresh(container)
        invariant parsing ==> sec == EntitiesSection(parser.ns, parser.trig, parser.ignorePaperSpace, lines,
                                                     Position(), ignoreControlStrings, parser.CurrentFiling())
        invariant !parsing ==> sec == Ok((parser.CurrentFiling(), Position()))
        decreases Measure(lines, Position())
      {
        var ended := EntitiesTurn(container);
        if ended.Fail? {
          return Fail(ended.failure);
        }
        parsing := !ended.value;
      }
      r := Ok(());
    }

    /** One turn of the parseEntitiesSection loop: the container is
        cleared and receives the next structure, which ends the section
        (true) when it is ENDSEC and goes to parseEntity otherwise. The
        section read from before the turn is the section read from after
        it, or ends where the turn ends. */
    method EntitiesTurn(container: PairContainer) returns (r: Outcome<bool>)
      requires Valid()
      modifies this`pos, this`line, this`cached, container
      modifies parser.doc`blockStore, parser.doc`entities, parser.doc`refEntities, parser.doc`lastEntity,
               parser.doc.status
      ensures Valid()
      ensures r.Ok? ==> Measure(lines, Position()) < Measure(lines, old(Position()))
      ensures var sec := EntitiesSection(parser.ns, parser.trig, parser.ignorePaperSpace, lines, old(Position()),
                                         ignoreControlStrings, old(parser.CurrentFiling()));
              && (r.Fail? ==> sec == Fail(r.failure))
              && (r == Ok(true) ==> sec == Ok((parser.CurrentFiling(), Position())))
              && (r == Ok(false) ==> sec == EntitiesSection(parser.ns, parser.trig, parser.ignorePaperSpace, lines,
                                                             Position(), ignoreControlStrings, parser.CurrentFiling()))
    {
      container.Clear();
      var name := ParseStructure(container);
      if name.Fail? {
        return Fail(name.failure);
      }
      var upper := Upper(name.value);
      if upper == "ENDSEC" {
        return Ok(true);
      }
      var parsed := HandEntity(container.pairs, CanonicalValueOf(upper), false);
      if parsed.Fail? {
        return Fail(parsed.failure);
      }
      r := Ok(false);
    }

    /** The HEADER section as runReader reads it. */
    method ReadHeader() returns (r: Outcome<()>)
      requires Valid()
      modifies this`pos, this`line, this`cached
      modifies parser.doc`arrows, parser.doc`distanceUnit, parser.doc`lineTypeScale, parser.doc`limitsMin,
               parser.doc`limitsMax
      ensures Valid()
      ensures var sec := SectionInto(SettingsOf(), lines, old(Position()), "HEADER", old(LoadedOf()));
              && (r.Fail? <==> sec.Fail?)
              && (r.Fail? ==> r.failure == sec.failure)
              && (r.Ok? ==> LoadedOf() == sec.value.0 && Position() == sec.value.1)
    {
      ghost var s := LoadedOf();
      r := ParseHeaderSection();
      assert LoadedOf() == s.(header := HeaderOf(parser.doc));
    }

    /** The TABLES section as runReader reads it. */
    method ReadTables() returns (r: Outcome<()>)
      requires Valid()
      modifies this`pos, this`line, this`cached, parser`entry, parser.doc`layers, parser.doc`lineTypes
      ensures Valid()
      ensures var sec := SectionInto(SettingsOf(), lines, old(Position()), "TABLES", old(LoadedOf()));
              && (r.Fail? <==> sec.Fail?)
              && (r.Fail? ==> r.failure == sec.failure)
              && (r.Ok? ==> LoadedOf() == sec.value.0 && Position() == sec.value.1)
    {
      ghost var s := LoadedOf();
      r := ParseTablesSection();
      assert LoadedOf() == s.(tables := TablesState(parser.entry, TablesOf(parser.doc)));
    }

    /** The BLOCKS section as runReader reads it. */
    method ReadBlocks() returns (r: Outcome<()>)
      requires Valid()
      modifies this`pos, this`line, this`cached, parser`newBlock, parser`blockIsReading
      modifies parser.doc`blockStore, parser.doc`pens, parser.doc`blocks, parser.doc`entities,
               parser.doc`refEntities, parser.doc`lastEntity, parser.doc.status
      ensures Valid()
      ensures var sec := SectionInto(SettingsOf(), lines, old(Position()), "BLOCKS", old(LoadedOf()));
              && (r.Fail? <==> sec.Fail?)
              && (r.Fail? ==> r.failure == sec.failure)
              && (r.Ok? ==> LoadedOf() == sec.value.0 && Position() == sec.value.1)
    {
      ghost var s := LoadedOf();
      r := ParseBlocksSection();
      assert LoadedOf() == s.(filing := parser.CurrentFiling());
    }

    /** The ENTITIES section as runReader reads it. */
    method ReadEntities() returns (r: Outcome<()>)
      requires Valid()
      modifies this`pos, this`line, this`cached
      modifies parser.doc`blockStore, parser.doc`entities, parser.doc`refEntities, parser.doc`lastEntity,
               parser.doc.status
      ensures Valid()
      ensures var sec := SectionInto(SettingsOf(), lines, old(Position()), "ENTITIES", old(LoadedOf()));
              && (r.Fail? <==> sec.Fail?)
              && (r.Fail? ==> r.failure == sec.failure)
              && (r.Ok? ==> LoadedOf() == sec.value.0 && Position() == sec.value.1)
    {
      ghost var s := LoadedOf();
      r := ParseEntitiesSection();
      assert LoadedOf() == s.(filing := parser.CurrentFiling());
    }

    /** The switch of runReader on a code-2 value: what is loaded and
        where the reader stands become what SectionInto gives. */
    method ParseSection(value: string) returns (r: Outcome<()>)
      requires Valid()
      modifies this`pos, this`line, this`cached, parser`entry, parser`newBlock, parser`blockIsReading
      modifies parser.doc, parser.doc.status
      ensures Valid()
      ensures var sec := SectionInto(SettingsOf(), lines, old(Position()), value, old(LoadedOf()));
              && (r.Fail? <==> sec.Fail?)
              && (r.Fail? ==> r.failure == sec.failure)
              && (r.Ok? ==> LoadedOf() == sec.value.0 && Position() == sec.value.1)
    {
      match value
      case "HEADER" =>
        r := ReadHeader();
      case "CLASSES" =>
        r := EatUntil(0, "ENDSEC");
      case "TABLES" =>
        r := ReadTables();
      case "BLOCKS" =>
        r := ReadBlocks();
      case "ENTITIES" =>
        r := ReadEntities();
      case "OBJECTS" =>
        r := EatUntil(0, "ENDSEC");
      case _ =>
        r := EatUntil(0, "ENDSEC");
    }

    /** One turn of the runReader loop on the pair just read: (0, EOF) ends
        the loop (none), a code-2 pair reads or skips its section, and the
        next pair is read. The run from before the turn is the run from
        after it, or ends where the turn ends. */
    method RunTurn(pair: Pair) returns (r: Outcome<Option<Pair>>)
      requires Valid()
      modifies this`pos, this`line, this`cached, parser`entry, parser`newBlock, parser`blockIsReading
      modifies parser.doc, parser.doc.status
      ensures Valid()
      ensures var run := RunWith(SettingsOf(), lines, pair, old(Position()), old(LoadedOf()));
              && (r.Fail? ==> run == Fail(r.failure))
              && (r == Ok(None) ==> run == Ok((LoadedOf(), Position())) && Position() == old(Position()))
              && (r.Ok? && r.value.Some? ==>
                    && run == RunWith(SettingsOf(), lines, r.value.value, Position(), LoadedOf())
                    && Measure(lines, Position()) < Measure(lines, old(Position())))
    {
      var value := Upper(pair.value);
      if pair.code == 0 && value == "EOF" {
        return Ok(None);
      }
      if pair.code == 2 {
        var section := ParseSection(value);
        if section.Fail? {
          return Fail(section.failure);
        }
      }
      var next := ReadPair();
      if next.Fail? {
        return Fail(next.failure);
      }
      r := Ok(Some(next.value));
    }

    /** The loop of runReader: the sections are read in turn until
        (0, EOF); what is loaded and where the reader stands are what
        RunInto gives. */
    method ReadSections() returns (r: Outcome<()>)
      requires Valid()
      modifies this`pos, this`line, this`cached, parser`entry, parser`newBlock, parser`blockIsReading
      modifies parser.doc, parser.doc.status
      ensures Valid()
      ensures var run := RunInto(SettingsOf(), lines, old(Position()), old(LoadedOf()));
              && (r.Fail? <==> run.Fail?)
              && (r.Fail? ==> r.failure == run.failure)
              && (r.Ok? ==> LoadedOf() == run.value.0 && Position() == run.value.1)
    {
      ghost var run := RunInto(SettingsOf(), lines, Position(), LoadedOf());
      var first := ReadPair();
      if first.Fail? {
        return Fail(first.failure);
      }
      var pair := first.value;
      var endOfFile := false;
      while !endOfFile
        invariant Valid()
        invariant !endOfFile ==> run == RunWith(SettingsOf(), lines, pair, Position(), LoadedOf())
        invariant endOfFile ==> run == Ok((LoadedOf(), Position()))
        decreases Measure(lines, Position()), if endOfFile then 0 else 1
      {
        var next := RunTurn(pair);
        if next.Fail? {
          return Fail(next.failure);
        }
        match next.value
        case None =>
          endOfFile := true;
        case Some(p) =>
          pair := p;
      }
      r := Ok(());
    }

    /** runReader: the sections are read, then the parser's read() gives
        the arrow blocks the arrow override. What is loaded is what RunInto
        gives, finished by read(). */
    method RunReader() returns (r: Outcome<()>)
      requires Valid()
      modifies this`pos, this`line, this`cached, parser`entry, parser`newBlock, parser`blockIsReading
      modifies parser.doc, parser.doc.status
      ensures Valid()
      ensures var run := RunInto(SettingsOf(), lines, old(Position()), old(LoadedOf()));
              && (r.Fail? <==> run.Fail?)
              && (r.Fail? ==> r.failure == run.failure)
              && (r.Ok? ==> LoadedOf() == Finished(run.value.0) && Position() == run.value.1)
    {
      r := ReadSections();
      if r.Fail? {
        return;
      }
      ghost var loaded := LoadedOf();
      parser.Read();
      assert LoadedOf() == Finished(loaded);
      r := Ok(());
    }
  }
}
