// The entity-type registry: the enumeration of DXF entity names, the
// mapping between DXF spellings and constants, and the set of types the
// parser builds.
module EntityTypes {
  import opened Results
  import opened Text

  /** The constants of the enumeration, in declaration order. */
  datatype EntityType =
    | ACAD_PROXY_ENTITY
    | ARC
    | ARCALIGNEDTEXT
    | ATTDEF
    | ATTRIB
    | BODY
    | CIRCLE
    | DIMENSION
    | ELLIPSE
    | FACE3D
    | FACEDEF
    | HATCH
    | IMAGE
    | INSERT
    | LEADER
    | LINE
    | LWPOLYLINE
    | MLINE
    | MTEXT
    | PDFUNDERLAY
    | POINT
    | POLYFACE3D
    | POLYGON3D
    | POLYLINE
    | RAY
    | REGION
    | RTEXT
    | SEQEND
    | SHAPE
    | SOLID
    | SOLID3D
    | SPLINE
    | TABLE
    | TEXT
    | TOLERANCE
    | TRACE
    | UNRECOGNIZED_ENTITY
    | VERTEX
    | VIEWPORT
    | WIPEOUT
    | XLINE

  /** The constant's declared name (Enum.name()). */
  function ConstantName(t: EntityType): string
  {
    match t
    case ACAD_PROXY_ENTITY => "ACAD_PROXY_ENTITY"
    case ARC => "ARC"
    case ARCALIGNEDTEXT => "ARCALIGNEDTEXT"
    case ATTDEF => "ATTDEF"
    case ATTRIB => "ATTRIB"
    case BODY => "BODY"
    case CIRCLE => "CIRCLE"
    case DIMENSION => "DIMENSION"
    case ELLIPSE => "ELLIPSE"
    case FACE3D => "FACE3D"
    case FACEDEF => "FACEDEF"
    case HATCH => "HATCH"
    case IMAGE => "IMAGE"
    case INSERT => "INSERT"
    case LEADER => "LEADER"
    case LINE => "LINE"
    case LWPOLYLINE => "LWPOLYLINE"
    case MLINE => "MLINE"
    case MTEXT => "MTEXT"
    case PDFUNDERLAY => "PDFUNDERLAY"
    case POINT => "POINT"
    case POLYFACE3D => "POLYFACE3D"
    case POLYGON3D => "POLYGON3D"
    case POLYLINE => "POLYLINE"
    case RAY => "RAY"
    case REGION => "REGION"
    case RTEXT => "RTEXT"
    case SEQEND => "SEQEND"
    case SHAPE => "SHAPE"
    case SOLID => "SOLID"
    case SOLID3D => "SOLID3D"
    case SPLINE => "SPLINE"
    case TABLE => "TABLE"
    case TEXT => "TEXT"
    case TOLERANCE => "TOLERANCE"
    case TRACE => "TRACE"
    case UNRECOGNIZED_ENTITY => "UNRECOGNIZED_ENTITY"
    case VERTEX => "VERTEX"
    case VIEWPORT => "VIEWPORT"
    case WIPEOUT => "WIPEOUT"
    case XLINE => "XLINE"
  }

  /** Enum.valueOf: the constant whose declared name is exactly `s`, or
      None where Java throws IllegalArgumentException. The names are
      grouped by their first letter, which only shortens the chain of
      comparisons. */
  function ValueOf(s: string): Option<EntityType>
  {
    if s == [] then None
    else match s[0]
      case 'A' =>
        if s == "ACAD_PROXY_ENTITY" then Some(ACAD_PROXY_ENTITY)
        else if s == "ARC" then Some(ARC)
        else if s == "ARCALIGNEDTEXT" then Some(ARCALIGNEDTEXT)
        else if s == "ATTDEF" then Some(ATTDEF)
        else if s == "ATTRIB" then Some(ATTRIB)
        else None
      case 'B' =>
        if s == "BODY" then Some(BODY)
        else None
      case 'C' =>
        if s == "CIRCLE" then Some(CIRCLE)
        else None
      case 'D' =>
        if s == "DIMENSION" then Some(DIMENSION)
        else None
      case 'E' =>
        if s == "ELLIPSE" then Some(ELLIPSE)
        else None
      case 'F' =>
        if s == "FACE3D" then Some(FACE3D)
        else if s == "FACEDEF" then Some(FACEDEF)
        else None
      case 'H' =>
        if s == "HATCH" then Some(HATCH)
        else None
      case 'I' =>
        if s == "IMAGE" then Some(IMAGE)
        else if s == "INSERT" then Some(INSERT)
        else None
      case 'L' =>
        if s == "LEADER" then Some(LEADER)
        else if s == "LINE" then Some(LINE)
        else if s == "LWPOLYLINE" then Some(LWPOLYLINE)
        else None
      case 'M' =>
        if s == "MLINE" then Some(MLINE)
        else if s == "MTEXT" then Some(MTEXT)
        else None
      case 'P' =>
        if s == "PDFUNDERLAY" then Some(PDFUNDERLAY)
        else if s == "POINT" then Some(POINT)
        else if s == "POLYFACE3D" then Some(POLYFACE3D)
        else if s == "POLYGON3D" then Some(POLYGON3D)
        else if s == "POLYLINE" then Some(POLYLINE)
        else None
      case 'R' =>
        if s == "RAY" then Some(RAY)
        else if s == "REGION" then Some(REGION)
        else if s == "RTEXT" then Some(RTEXT)
        else None
      case 'S' =>
        if s == "SEQEND" then Some(SEQEND)
        else if s == "SHAPE" then Some(SHAPE)
        else if s == "SOLID" then Some(SOLID)
        else if s == "SOLID3D" then Some(SOLID3D)
        else if s == "SPLINE" then Some(SPLINE)
        else None
      case 'T' =>
        if s == "TABLE" then Some(TABLE)
        else if s == "TEXT" then Some(TEXT)
        else if s == "TOLERANCE" then Some(TOLERANCE)
        else if s == "TRACE" then Some(TRACE)
        else None
      case 'U' =>
        if s == "UNRECOGNIZED_ENTITY" then Some(UNRECOGNIZED_ENTITY)
        else None
      case 'V' =>
        if s == "VERTEX" then Some(VERTEX)
        else if s == "VIEWPORT" then Some(VIEWPORT)
        else None
      case 'W' =>
        if s == "WIPEOUT" then Some(WIPEOUT)
        else None
      case 'X' =>
        if s == "XLINE" then Some(XLINE)
        else None
      case _ => None
  }

  /** toString: the DXF spelling, which cannot be a Java identifier for the
      two names that start with a digit. */
  function ToString(t: EntityType): (s: string)
    ensures t == FACE3D ==> s == "3DFACE"
    ensures t == SOLID3D ==> s == "3DSOLID"
    ensures t != FACE3D && t != SOLID3D ==> s == ConstantName(t)
  {
    match t
    case FACE3D => "3DFACE"
    case SOLID3D => "3DSOLID"
    case _ => ConstantName(t)
  }

  /** canonicalValueOf: upper-cases the name, maps the two digit-led DXF
      spellings, then falls back to valueOf, catching its failure as
      UNRECOGNIZED_ENTITY. */
  function CanonicalValueOf(name: string): EntityType
  {
    var upper := Upper(name);
    if upper == "3DFACE" then FACE3D
    else if upper == "3DSOLID" then SOLID3D
    else match ValueOf(upper)
      case Some(v) => v
      case None => UNRECOGNIZED_ENTITY
  }

  /** Reading back what toString writes gives the same constant, so
      toString is injective and canonicalValueOf inverts it. Each constant
      is checked by a lemma of its own, which keeps every proof small. */
  lemma CanonicalRoundTrip(t: EntityType)
    ensures CanonicalValueOf(ToString(t)) == t
  {
    match t
    case ACAD_PROXY_ENTITY => RoundTripAcadProxyEntity();
    case ARC => RoundTripArc();
    case ARCALIGNEDTEXT => RoundTripArcalignedtext();
    case ATTDEF => RoundTripAttdef();
    case ATTRIB => RoundTripAttrib();
    case BODY => RoundTripBody();
    case CIRCLE => RoundTripCircle();
    case DIMENSION => RoundTripDimension();
    case ELLIPSE => RoundTripEllipse();
    case FACE3D => RoundTripFace3d();
    case FACEDEF => RoundTripFacedef();
    case HATCH => RoundTripHatch();
    case IMAGE => RoundTripImage();
    case INSERT => RoundTripInsert();
    case LEADER => RoundTripLeader();
    case LINE => RoundTripLine();
    case LWPOLYLINE => RoundTripLwpolyline();
    case MLINE => RoundTripMline();
    case MTEXT => RoundTripMtext();
    case PDFUNDERLAY => RoundTripPdfunderlay();
    case POINT => RoundTripPoint();
    case POLYFACE3D => RoundTripPolyface3d();
    case POLYGON3D => RoundTripPolygon3d();
    case POLYLINE => RoundTripPolyline();
    case RAY => RoundTripRay();
    case REGION => RoundTripRegion();
    case RTEXT => RoundTripRtext();
    case SEQEND => RoundTripSeqend();
    case SHAPE => RoundTripShape();
    case SOLID => RoundTripSolid();
    case SOLID3D => RoundTripSolid3d();
    case SPLINE => RoundTripSpline();
    case TABLE => RoundTripTable();
    case TEXT => RoundTripText();
    case TOLERANCE => RoundTripTolerance();
    case TRACE => RoundTripTrace();
    case UNRECOGNIZED_ENTITY => RoundTripUnrecognizedEntity();
    case VERTEX => RoundTripVertex();
    case VIEWPORT => RoundTripViewport();
    case WIPEOUT => RoundTripWipeout();
    case XLINE => RoundTripXline();
  }

  lemma RoundTripAcadProxyEntity()
    ensures CanonicalValueOf(ToString(ACAD_PROXY_ENTITY)) == ACAD_PROXY_ENTITY
  {
    assert Upper("ACAD_PROXY_ENTITY") == "ACAD_PROXY_ENTITY";
  }

  lemma RoundTripArc()
    ensures CanonicalValueOf(ToString(ARC)) == ARC
  {
    assert Upper("ARC") == "ARC";
  }

  lemma RoundTripArcalignedtext()
    ensures CanonicalValueOf(ToString(ARCALIGNEDTEXT)) == ARCALIGNEDTEXT
  {
    assert Upper("ARCALIGNEDTEXT") == "ARCALIGNEDTEXT";
  }

  lemma RoundTripAttdef()
    ensures CanonicalValueOf(ToString(ATTDEF)) == ATTDEF
  {
    assert Upper("ATTDEF") == "ATTDEF";
  }

  lemma RoundTripAttrib()
    ensures CanonicalValueOf(ToString(ATTRIB)) == ATTRIB
  {
    assert Upper("ATTRIB") == "ATTRIB";
  }

  lemma RoundTripBody()
    ensures CanonicalValueOf(ToString(BODY)) == BODY
  {
    assert Upper("BODY") == "BODY";
  }

  lemma RoundTripCircle()
    ensures CanonicalValueOf(ToString(CIRCLE)) == CIRCLE
  {
    assert Upper("CIRCLE") == "CIRCLE";
  }

  lemma RoundTripDimension()
    ensures CanonicalValueOf(ToString(DIMENSION)) == DIMENSION
  {
    assert Upper("DIMENSION") == "DIMENSION";
  }

  lemma RoundTripEllipse()
    ensures CanonicalValueOf(ToString(ELLIPSE)) == ELLIPSE
  {
    assert Upper("ELLIPSE") == "ELLIPSE";
  }

  lemma RoundTripFace3d()
    ensures CanonicalValueOf(ToString(FACE3D)) == FACE3D
  {
    assert Upper("3DFACE") == "3DFACE";
  }

  lemma RoundTripFacedef()
    ensures CanonicalValueOf(ToString(FACEDEF)) == FACEDEF
  {
    assert Upper("FACEDEF") == "FACEDEF";
  }

  lemma RoundTripHatch()
    ensures CanonicalValueOf(ToString(HATCH)) == HATCH
  {
    assert Upper("HATCH") == "HATCH";
  }

  lemma RoundTripImage()
    ensures CanonicalValueOf(ToString(IMAGE)) == IMAGE
  {
    assert Upper("IMAGE") == "IMAGE";
  }

  lemma RoundTripInsert()
    ensures CanonicalValueOf(ToString(INSERT)) == INSERT
  {
    assert Upper("INSERT") == "INSERT";
  }

  lemma RoundTripLeader()
    ensures CanonicalValueOf(ToString(LEADER)) == LEADER
  {
    assert Upper("LEADER") == "LEADER";
  }

  lemma RoundTripLine()
    ensures CanonicalValueOf(ToString(LINE)) == LINE
  {
    assert Upper("LINE") == "LINE";
  }

  lemma RoundTripLwpolyline()
    ensures CanonicalValueOf(ToString(LWPOLYLINE)) == LWPOLYLINE
  {
    assert Upper("LWPOLYLINE") == "LWPOLYLINE";
  }

  lemma RoundTripMline()
    ensures CanonicalValueOf(ToString(MLINE)) == MLINE
  {
    assert Upper("MLINE") == "MLINE";
  }

  lemma RoundTripMtext()
    ensures CanonicalValueOf(ToString(MTEXT)) == MTEXT
  {
    assert Upper("MTEXT") == "MTEXT";
  }

  lemma RoundTripPdfunderlay()
    ensures CanonicalValueOf(ToString(PDFUNDERLAY)) == PDFUNDERLAY
  {
    assert Upper("PDFUNDERLAY") == "PDFUNDERLAY";
  }

  lemma RoundTripPoint()
    ensures CanonicalValueOf(ToString(POINT)) == POINT
  {
    assert Upper("POINT") == "POINT";
  }

  lemma RoundTripPolyface3d()
    ensures CanonicalValueOf(ToString(POLYFACE3D)) == POLYFACE3D
  {
    assert Upper("POLYFACE3D") == "POLYFACE3D";
  }

  lemma RoundTripPolygon3d()
    ensures CanonicalValueOf(ToString(POLYGON3D)) == POLYGON3D
  {
    assert Upper("POLYGON3D") == "POLYGON3D";
  }

  lemma RoundTripPolyline()
    ensures CanonicalValueOf(ToString(POLYLINE)) == POLYLINE
  {
    assert Upper("POLYLINE") == "POLYLINE";
  }

  lemma RoundTripRay()
    ensures CanonicalValueOf(ToString(RAY)) == RAY
  {
    assert Upper("RAY") == "RAY";
  }

  lemma RoundTripRegion()
    ensures CanonicalValueOf(ToString(REGION)) == REGION
  {
    assert Upper("REGION") == "REGION";
  }

  lemma RoundTripRtext()
    ensures CanonicalValueOf(ToString(RTEXT)) == RTEXT
  {
    assert Upper("RTEXT") == "RTEXT";
  }

  lemma RoundTripSeqend()
    ensures CanonicalValueOf(ToString(SEQEND)) == SEQEND
  {
    assert Upper("SEQEND") == "SEQEND";
  }

  lemma RoundTripShape()
    ensures CanonicalValueOf(ToString(SHAPE)) == SHAPE
  {
    assert Upper("SHAPE") == "SHAPE";
  }

  lemma RoundTripSolid()
    ensures CanonicalValueOf(ToString(SOLID)) == SOLID
  {
    assert Upper("SOLID") == "SOLID";
  }

  lemma RoundTripSolid3d()
    ensures CanonicalValueOf(ToString(SOLID3D)) == SOLID3D
  {
    assert Upper("3DSOLID") == "3DSOLID";
  }

  lemma RoundTripSpline()
    ensures CanonicalValueOf(ToString(SPLINE)) == SPLINE
  {
    assert Upper("SPLINE") == "SPLINE";
  }

  lemma RoundTripTable()
    ensures CanonicalValueOf(ToString(TABLE)) == TABLE
  {
    assert Upper("TABLE") == "TABLE";
  }

  lemma RoundTripText()
    ensures CanonicalValueOf(ToString(TEXT)) == TEXT
  {
    assert Upper("TEXT") == "TEXT";
  }

  lemma RoundTripTolerance()
    ensures CanonicalValueOf(ToString(TOLERANCE)) == TOLERANCE
  {
    assert Upper("TOLERANCE") == "TOLERANCE";
  }

  lemma RoundTripTrace()
    ensures CanonicalValueOf(ToString(TRACE)) == TRACE
  {
    assert Upper("TRACE") == "TRACE";
  }

  lemma RoundTripUnrecognizedEntity()
    ensures CanonicalValueOf(ToString(UNRECOGNIZED_ENTITY)) == UNRECOGNIZED_ENTITY
  {
    assert Upper("UNRECOGNIZED_ENTITY") == "UNRECOGNIZED_ENTITY";
  }

  lemma RoundTripVertex()
    ensures CanonicalValueOf(ToString(VERTEX)) == VERTEX
  {
    assert Upper("VERTEX") == "VERTEX";
  }

  lemma RoundTripViewport()
    ensures CanonicalValueOf(ToString(VIEWPORT)) == VIEWPORT
  {
    assert Upper("VIEWPORT") == "VIEWPORT";
  }

  lemma RoundTripWipeout()
    ensures CanonicalValueOf(ToString(WIPEOUT)) == WIPEOUT
  {
    assert Upper("WIPEOUT") == "WIPEOUT";
  }

  lemma RoundTripXline()
    ensures CanonicalValueOf(ToString(XLINE)) == XLINE
  {
    assert Upper("XLINE") == "XLINE";
  }

  /** The lookup ignores case: a name and its upper-case form agree. */
  lemma CanonicalIgnoresCase(name: string)
    ensures CanonicalValueOf(name) == CanonicalValueOf(Upper(name))
  {
    UpperIsUpper(name);
  }

  /** A name that spells no constant yields UNRECOGNIZED_ENTITY rather than
      an error, and both spellings of a digit-led type are accepted. */
  lemma CanonicalUnknown()
    ensures CanonicalValueOf("") == UNRECOGNIZED_ENTITY
    ensures CanonicalValueOf("CIRCLES") == UNRECOGNIZED_ENTITY
    ensures CanonicalValueOf("3DFACE") == FACE3D && CanonicalValueOf("FACE3D") == FACE3D
  {
    assert Upper("CIRCLES") == "CIRCLES";
    assert Upper("3DFACE") == "3DFACE";
    assert Upper("FACE3D") == "FACE3D";
  }

  /** The types the parser builds entities for, filled once. */
  const Supported: set<EntityType> := {
    ARC,
    CIRCLE,
    DIMENSION,
    ELLIPSE,
    FACE3D,
    FACEDEF,
    INSERT,
    LINE,
    LWPOLYLINE,
    POINT,
    POLYFACE3D,
    POLYGON3D,
    POLYLINE,
    RAY,
    SEQEND,
    SOLID,
    TRACE,
    VERTEX,
    XLINE}

  /** isEntityTypeSupported: membership in the fixed set. */
  predicate IsSupported(t: EntityType)
  {
    t in Supported
  }

  /** The set holds exactly the nineteen listed types. */
  lemma SupportedCount()
    ensures |Supported| == 19
  {
    SupportedFirstHalf();
    SupportedSecondHalf();
    SupportedHalves();
  }

  lemma SupportedHalves()
    ensures {ARC, CIRCLE, DIMENSION, ELLIPSE, FACE3D, FACEDEF, INSERT, LINE, LWPOLYLINE, POINT}
            !! {POLYFACE3D, POLYGON3D, POLYLINE, RAY, SEQEND, SOLID, TRACE, VERTEX, XLINE}
    ensures Supported == {ARC, CIRCLE, DIMENSION, ELLIPSE, FACE3D, FACEDEF, INSERT, LINE, LWPOLYLINE, POINT}
                         + {POLYFACE3D, POLYGON3D, POLYLINE, RAY, SEQEND, SOLID, TRACE, VERTEX, XLINE}
  {
  }

  lemma SupportedFirstHalf()
    ensures |{ARC, CIRCLE, DIMENSION, ELLIPSE, FACE3D, FACEDEF, INSERT, LINE, LWPOLYLINE, POINT}| == 10
  {
    SupportedPart0();
    SupportedPart1();
    assert {ARC, CIRCLE, DIMENSION, ELLIPSE, FACE3D} !! {FACEDEF, INSERT, LINE, LWPOLYLINE, POINT};
    assert {ARC, CIRCLE, DIMENSION, ELLIPSE, FACE3D, FACEDEF, INSERT, LINE, LWPOLYLINE, POINT} == {ARC, CIRCLE, DIMENSION, ELLIPSE, FACE3D} + {FACEDEF, INSERT, LINE, LWPOLYLINE, POINT};
  }

  lemma SupportedSecondHalf()
    ensures |{POLYFACE3D, POLYGON3D, POLYLINE, RAY, SEQEND, SOLID, TRACE, VERTEX, XLINE}| == 9
  {
    SupportedPart2();
    SupportedPart3();
    assert {POLYFACE3D, POLYGON3D, POLYLINE, RAY, SEQEND} !! {SOLID, TRACE, VERTEX, XLINE};
    assert {POLYFACE3D, POLYGON3D, POLYLINE, RAY, SEQEND, SOLID, TRACE, VERTEX, XLINE} == {POLYFACE3D, POLYGON3D, POLYLINE, RAY, SEQEND} + {SOLID, TRACE, VERTEX, XLINE};
  }

  lemma SupportedPart0()
    ensures |{ARC, CIRCLE, DIMENSION, ELLIPSE, FACE3D}| == 5
  {
    var s: set<EntityType> := {};
    assert ARC !in s; s := s + {ARC};
    assert CIRCLE !in s; s := s + {CIRCLE};
    assert DIMENSION !in s; s := s + {DIMENSION};
    assert ELLIPSE !in s; s := s + {ELLIPSE};
    assert FACE3D !in s; s := s + {FACE3D};
    assert s == {ARC, CIRCLE, DIMENSION, ELLIPSE, FACE3D};
  }

  lemma SupportedPart1()
    ensures |{FACEDEF, INSERT, LINE, LWPOLYLINE, POINT}| == 5
  {
    var s: set<EntityType> := {};
    assert FACEDEF !in s; s := s + {FACEDEF};
    assert INSERT !in s; s := s + {INSERT};
    assert LINE !in s; s := s + {LINE};
    assert LWPOLYLINE !in s; s := s + {LWPOLYLINE};
    assert POINT !in s; s := s + {POINT};
    assert s == {FACEDEF, INSERT, LINE, LWPOLYLINE, POINT};
  }

  lemma SupportedPart2()
    ensures |{POLYFACE3D, POLYGON3D, POLYLINE, RAY, SEQEND}| == 5
  {
    var s: set<EntityType> := {};
    assert POLYFACE3D !in s; s := s + {POLYFACE3D};
    assert POLYGON3D !in s; s := s + {POLYGON3D};
    assert POLYLINE !in s; s := s + {POLYLINE};
    assert RAY !in s; s := s + {RAY};
    assert SEQEND !in s; s := s + {SEQEND};
    assert s == {POLYFACE3D, POLYGON3D, POLYLINE, RAY, SEQEND};
  }

  lemma SupportedPart3()
    ensures |{SOLID, TRACE, VERTEX, XLINE}| == 4
  {
    var s: set<EntityType> := {};
    assert SOLID !in s; s := s + {SOLID};
    assert TRACE !in s; s := s + {TRACE};
    assert VERTEX !in s; s := s + {VERTEX};
    assert XLINE !in s; s := s + {XLINE};
    assert s == {SOLID, TRACE, VERTEX, XLINE};
  }

  /** Text, attributes, hatches, splines, viewports and unrecognised names
      are never built. */
  lemma UnsupportedExamples()
    ensures !IsSupported(VIEWPORT) && !IsSupported(TEXT) && !IsSupported(MTEXT)
    ensures !IsSupported(ATTRIB) && !IsSupported(ATTDEF) && !IsSupported(HATCH)
    ensures !IsSupported(SPLINE) && !IsSupported(UNRECOGNIZED_ENTITY) && !IsSupported(SOLID3D)
  {
  }
}
