// The string operations of the Java runtime that the reader relies on:
// English upper-casing, equalsIgnoreCase, trim and Integer.parseInt.
module Text {
  import opened Results

  /** Character.toUpperCase restricted to the ASCII letters (the only ones a
      DXF name or keyword uses). */
  function UpperChar(c: char): (r: char)
    ensures 'a' <= c <= 'z' ==> r as int == c as int - 32
    ensures !('a' <= c <= 'z') ==> r == c
  {
    if 'a' <= c <= 'z' then (c as int - 32) as char else c
  }

  function Upper(s: string): (r: string)
    ensures |r| == |s|
    ensures forall i :: 0 <= i < |s| ==> r[i] == UpperChar(s[i])
  {
    seq(|s|, i requires 0 <= i < |s| => UpperChar(s[i]))
  }

  predicate IsUpper(s: string)
  {
    forall i :: 0 <= i < |s| ==> !('a' <= s[i] <= 'z')
  }

  /** Upper-casing yields an upper-case string and is idempotent. */
  lemma UpperIsUpper(s: string)
    ensures IsUpper(Upper(s))
    ensures Upper(Upper(s)) == Upper(s)
  {
  }

  /** An upper-case string is left alone. */
  lemma UpperOfUpper(s: string)
    requires IsUpper(s)
    ensures Upper(s) == s
  {
  }

  /** String.equalsIgnoreCase. */
  predicate EqualsIgnoreCase(a: string, b: string)
  {
    Upper(a) == Upper(b)
  }

  lemma EqualsIgnoreCaseIsEquivalence(a: string, b: string, c: string)
    ensures EqualsIgnoreCase(a, a)
    ensures EqualsIgnoreCase(a, b) ==> EqualsIgnoreCase(b, a)
    ensures EqualsIgnoreCase(a, b) && EqualsIgnoreCase(b, c) ==> EqualsIgnoreCase(a, c)
  {
  }

  predicate IsSpace(c: char)
  {
    c <= ' '
  }

  function TrimStart(s: string): (r: string)
    ensures |r| <= |s| && r == s[|s| - |r|..]
    ensures r == [] || !IsSpace(r[0])
    ensures forall i :: 0 <= i < |s| - |r| ==> IsSpace(s[i])
  {
    if s != [] && IsSpace(s[0]) then TrimStart(s[1..]) else s
  }

  function TrimEnd(s: string): (r: string)
    ensures |r| <= |s| && r == s[..|r|]
    ensures r == [] || !IsSpace(r[|r| - 1])
    ensures forall i :: |r| <= i < |s| ==> IsSpace(s[i])
  {
    if s != [] && IsSpace(s[|s| - 1]) then TrimEnd(s[..|s| - 1]) else s
  }

  /** String.trim: drops every leading and trailing character at or below
      the space character. */
  function Trim(s: string): (r: string)
  {
    TrimEnd(TrimStart(s))
  }

  /** Neither end of what trim keeps is removable. */
  lemma TrimEndsNotSpace(s: string)
    ensures Trim(s) == [] || (!IsSpace(Trim(s)[0]) && !IsSpace(Trim(s)[|Trim(s)| - 1]))
  {
    var a := TrimStart(s);
    var t := TrimEnd(a);
    if t != [] {
      assert t[0] == a[0];
    }
  }

  lemma TrimEmptyIffBlank(s: string)
    ensures Trim(s) == [] <==> forall i :: 0 <= i < |s| ==> IsSpace(s[i])
  {
    var a := TrimStart(s);
    if a != [] {
      assert !IsSpace(a[0]);
      assert a[0] == s[|s| - |a|];
    }
  }

  /** Trimming twice is trimming once. */
  lemma TrimIdempotent(s: string)
    ensures Trim(Trim(s)) == Trim(s)
  {
    var t := Trim(s);
    TrimEndsNotSpace(s);
    if t != [] {
      assert TrimStart(t) == t;
      assert TrimEnd(t) == t;
    }
  }

  /** `value.trim().isEmpty()`. */
  predicate IsBlank(s: string)
  {
    Trim(s) == []
  }

  predicate IsDigit(c: char)
  {
    '0' <= c <= '9'
  }

  predicate AllDigits(s: string)
  {
    forall i :: 0 <= i < |s| ==> IsDigit(s[i])
  }

  function DigitsValue(s: string): (n: nat)
    requires AllDigits(s)
  {
    if s == [] then 0 else DigitsValue(s[..|s| - 1]) * 10 + (s[|s| - 1] as int - '0' as int)
  }

  const MinInt: int := -0x8000_0000
  const MaxInt: int := 0x7fff_ffff

  predicate IsInt32(n: int)
  {
    MinInt <= n <= MaxInt
  }

  /** Integer.parseInt: an optional sign followed by at least one decimal
      digit, with the value inside the 32-bit range; anything else is a
      NumberFormatException, here None. Only the ASCII digits are read as
      digits; the other Unicode decimal digits that Character.digit accepts
      are refused here. */
  function ParseInt(s: string): (r: Option<int>)
    ensures r.Some? ==> IsInt32(r.value)
    ensures r.Some? ==> s != [] && (IsDigit(s[0]) || s[0] == '-' || s[0] == '+')
  {
    if s == [] then None
    else
      var neg := s[0] == '-';
      var body := if s[0] == '-' || s[0] == '+' then s[1..] else s;
      if body == [] || !AllDigits(body) then None
      else
        var n: int := if neg then -(DigitsValue(body) as int) else DigitsValue(body);
        if IsInt32(n) then Some(n) else None
  }

  function DigitChar(d: nat): (c: char)
    requires d < 10
    ensures IsDigit(c) && c as int - '0' as int == d
  {
    ('0' as int + d) as char
  }

  /** Decimal digits of a natural number, most significant first. */
  function NatDigits(n: nat): (s: string)
    ensures s != [] && AllDigits(s)
  {
    if n < 10 then [DigitChar(n)] else NatDigits(n / 10) + [DigitChar(n % 10)]
  }

  /** Integer.toString. */
  function IntToString(n: int): (s: string)
  {
    if n < 0 then "-" + NatDigits(-n) else NatDigits(n)
  }

  lemma {:induction false} NatDigitsValue(n: nat)
    ensures DigitsValue(NatDigits(n)) == n
  {
    if n >= 10 {
      var s := NatDigits(n);
      assert s[..|s| - 1] == NatDigits(n / 10);
      NatDigitsValue(n / 10);
    }
  }

  /** Integer.parseInt reads back every 32-bit value Integer.toString writes. */
  lemma ParseIntOfIntToString(n: int)
    requires IsInt32(n)
    ensures ParseInt(IntToString(n)) == Some(n)
  {
    var s := IntToString(n);
    if n < 0 {
      var d := NatDigits(-n);
      NatDigitsValue(-n);
      assert s[0] == '-' && s[1..] == d;
    } else {
      NatDigitsValue(n);
      assert IsDigit(s[0]);
    }
  }

  /** A sign alone, a stray letter or the empty string is refused. */
  lemma ParseIntRejects()
    ensures ParseInt("") == None
    ensures ParseInt("-") == None
    ensures ParseInt("1x") == None
  {
    assert !AllDigits("1x") by { assert !IsDigit("1x"[1]); }
  }
}
