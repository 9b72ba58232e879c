// The drawing units of the $INSUNITS header variable.
module DistanceUnits {

  /** The constants, in declaration order (which is the DXF index order). */
  datatype DistanceUnit =
    | UNITLESS
    | INCHES
    | FEET
    | MILES
    | MILLIMETERS
    | CENTIMETERS
    | METERS
    | KILOMETERS
    | MICROINCHES
    | MILS
    | YARDS
    | ANGSTROMS
    | NANOMETERS
    | MICRONS
    | DECIMETERS
    | DECAMETERS
    | HECTOMETERS
    | GIGAMETERS
    | ASTRONOMICAL_UNITS
    | LIGHT_YEARS
    | PARSECS

  /** Enum.ordinal(). */
  function Ordinal(u: DistanceUnit): (i: nat)
    ensures i <= 20
  {
    match u
    case UNITLESS => 0
    case INCHES => 1
    case FEET => 2
    case MILES => 3
    case MILLIMETERS => 4
    case CENTIMETERS => 5
    case METERS => 6
    case KILOMETERS => 7
    case MICROINCHES => 8
    case MILS => 9
    case YARDS => 10
    case ANGSTROMS => 11
    case NANOMETERS => 12
    case MICRONS => 13
    case DECIMETERS => 14
    case DECAMETERS => 15
    case HECTOMETERS => 16
    case GIGAMETERS => 17
    case ASTRONOMICAL_UNITS => 18
    case LIGHT_YEARS => 19
    case PARSECS => 20
  }

  /** indexToDistanceUnit: the constant for an index in 0..20, UNITLESS for
      any other index. */
  function IndexToDistanceUnit(index: int): (u: DistanceUnit)
    ensures 0 <= index <= 20 ==> Ordinal(u) == index
    ensures (index < 0 || index > 20) ==> u == UNITLESS
  {
    if index == 0 then UNITLESS else
    if index == 1 then INCHES else
    if index == 2 then FEET else
    if index == 3 then MILES else
    if index == 4 then MILLIMETERS else
    if index == 5 then CENTIMETERS else
    if index == 6 then METERS else
    if index == 7 then KILOMETERS else
    if index == 8 then MICROINCHES else
    if index == 9 then MILS else
    if index == 10 then YARDS else
    if index == 11 then ANGSTROMS else
    if index == 12 then NANOMETERS else
    if index == 13 then MICRONS else
    if index == 14 then DECIMETERS else
    if index == 15 then DECAMETERS else
    if index == 16 then HECTOMETERS else
    if index == 17 then GIGAMETERS else
    if index == 18 then ASTRONOMICAL_UNITS else
    if index == 19 then LIGHT_YEARS else
    if index == 20 then PARSECS else
    UNITLESS
  }

  /** Every constant is found again from its ordinal. */
  lemma IndexOfOrdinal(u: DistanceUnit)
    ensures IndexToDistanceUnit(Ordinal(u)) == u
  {
  }

  /** Index 0 and every out-of-range index give the same unit. */
  lemma UnitlessIndices(index: int)
    ensures IndexToDistanceUnit(index) == UNITLESS <==> (index == 0 || index < 0 || index > 20)
  {
  }
}
