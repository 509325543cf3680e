/** Unit selection for the distance and velocity read-outs. The digits of
    `toFixed` are not rendered: a reading is its unit, the scaled value and
    the number of decimals it would be shown with. */
module Format {
  import Layers
  import opened Physics

  const UNIVERSE_LIMIT_TEXT: string := "OBSERVABLE UNIVERSE LIMIT!"
  const WON_VELOCITY_TEXT: string := "-"

  datatype DistanceUnit =
    | Meters | Kilometers | MillionKm | AuFine | AuWhole
    | LightYearsFine | LightYearsWhole | MillionLy | BillionLy

  datatype DistanceText = DistanceFixed(text: string) | DistanceReading(unit: DistanceUnit, value: real, decimals: nat)

  /** The metres in one of the unit. */
  function DistanceScale(u: DistanceUnit): real
  {
    match u
    case Meters => 1.0
    case Kilometers => 1000.0
    case MillionKm => 1000000.0
    case AuFine => Layers.AU
    case AuWhole => Layers.AU
    case LightYearsFine => Layers.LIGHT_YEAR
    case LightYearsWhole => Layers.LIGHT_YEAR
    case MillionLy => 1000000.0 * Layers.LIGHT_YEAR
    case BillionLy => 1000000000.0 * Layers.LIGHT_YEAR
  }

  function DistanceDecimals(u: DistanceUnit): nat
  {
    match u
    case Meters => 0
    case Kilometers => 2
    case MillionKm => 2
    case AuFine => 3
    case AuWhole => 0
    case LightYearsFine => 3
    case LightYearsWhole => 0
    case MillionLy => 3
    case BillionLy => 3
  }

  /** The range `[lo, hi)` of distances each unit is used for, stated per unit
      independently of the order the cascade tests them in. */
  predicate InDistanceBand(u: DistanceUnit, m: real)
  {
    match u
    case Meters => m < 1000.0
    case Kilometers => 1000.0 <= m < 1000000.0
    case MillionKm => 1000000.0 <= m < 1000000000.0
    case AuFine => 1000000000.0 <= m < 10.0 * Layers.AU
    case AuWhole => 10.0 * Layers.AU <= m < Layers.LIGHT_YEAR
    case LightYearsFine => Layers.LIGHT_YEAR <= m < 1000.0 * Layers.LIGHT_YEAR
    case LightYearsWhole => 1000.0 * Layers.LIGHT_YEAR <= m < 1000000.0 * Layers.LIGHT_YEAR
    case MillionLy => 1000000.0 * Layers.LIGHT_YEAR <= m < 1000000000.0 * Layers.LIGHT_YEAR
    case BillionLy => 1000000000.0 * Layers.LIGHT_YEAR <= m
  }

  /** `formatDistance`: a fixed text once the run is won, otherwise the
      distance (negative distances shown as 0) in the one unit whose band
      contains it. */
  function FormatDistance(won: bool, meters: real): (r: DistanceText)
    ensures won <==> r == DistanceFixed(UNIVERSE_LIMIT_TEXT)
    ensures !won ==> r.DistanceReading?
    ensures r.DistanceReading? ==>
              var m := if meters < 0.0 then 0.0 else meters;
              && InDistanceBand(r.unit, m)
              && r.value == m / DistanceScale(r.unit)
              && r.decimals == DistanceDecimals(r.unit)
  {
    if won then DistanceFixed(UNIVERSE_LIMIT_TEXT)
    else
      var m := if meters < 0.0 then 0.0 else meters;
      var u :=
        if m < 1000.0 then Meters
        else if m < 1000000.0 then Kilometers
        else if m < 1000000000.0 then MillionKm
        else if m < Layers.AU * 10.0 then AuFine
        else if m < Layers.LIGHT_YEAR then AuWhole
        else if m < Layers.LIGHT_YEAR * 1000.0 then LightYearsFine
        else if m < 1000000.0 * Layers.LIGHT_YEAR then LightYearsWhole
        else if m < 1000000000.0 * Layers.LIGHT_YEAR then MillionLy
        else BillionLy;
      DistanceReading(u, m / DistanceScale(u), DistanceDecimals(u))
  }

  /** The distance bands do not overlap, so the unit a distance is shown in
      is determined by the distance alone. */
  lemma DistanceUnitUnique(u1: DistanceUnit, u2: DistanceUnit, m: real)
    requires InDistanceBand(u1, m) && InDistanceBand(u2, m)
    ensures u1 == u2
  {
  }

  datatype VelocityUnit = MetersPerSecond | KilometersPerSecond | KilometersPerSecondWhole | FractionOfLight

  datatype VelocityText =
    | VelocityFixed(text: string)
    | VelocityReading(negative: bool, unit: VelocityUnit, value: real, decimals: nat)

  function VelocityScale(u: VelocityUnit): real
  {
    match u
    case MetersPerSecond => 1.0
    case KilometersPerSecond => 1000.0
    case KilometersPerSecondWhole => 1000.0
    case FractionOfLight => SPEED_OF_LIGHT
  }

  function VelocityDecimals(u: VelocityUnit): nat
  {
    match u
    case MetersPerSecond => 1
    case KilometersPerSecond => 1
    case KilometersPerSecondWhole => 0
    case FractionOfLight => 4
  }

  predicate InVelocityBand(u: VelocityUnit, speed: real)
  {
    match u
    case MetersPerSecond => speed < 1000.0
    case KilometersPerSecond => 1000.0 <= speed < 1000000.0
    case KilometersPerSecondWhole => 1000000.0 <= speed < SPEED_OF_LIGHT * 0.01
    case FractionOfLight => SPEED_OF_LIGHT * 0.01 <= speed
  }

  /** `formatVelocity`: "-" once the run is won; otherwise speeds below
      0.01 m/s read as an unsigned 0, the sign is shown exactly for negative
      velocities, and the magnitude is shown in the one unit whose band
      contains it. */
  function FormatVelocity(won: bool, metersPerSecond: real): (r: VelocityText)
    ensures won <==> r == VelocityFixed(WON_VELOCITY_TEXT)
    ensures !won ==> r.VelocityReading?
    ensures r.VelocityReading? && Abs(metersPerSecond) < 0.01 ==>
              !r.negative && r.unit == MetersPerSecond && r.value == 0.0
    ensures r.VelocityReading? && Abs(metersPerSecond) >= 0.01 ==>
              && (r.negative <==> metersPerSecond < 0.0)
              && InVelocityBand(r.unit, Abs(metersPerSecond))
              && r.value == Abs(metersPerSecond) / VelocityScale(r.unit)
    ensures r.VelocityReading? ==> r.decimals == VelocityDecimals(r.unit)
  {
    if won then VelocityFixed(WON_VELOCITY_TEXT)
    else
      var v := if Abs(metersPerSecond) < 0.01 then 0.0 else metersPerSecond;
      var speed := Abs(v);
      var negative := v < 0.0;
      var u :=
        if speed < 1000.0 then MetersPerSecond
        else if speed < 1000000.0 then KilometersPerSecond
        else if speed < SPEED_OF_LIGHT * 0.01 then KilometersPerSecondWhole
        else FractionOfLight;
      VelocityReading(negative, u, speed / VelocityScale(u), VelocityDecimals(u))
  }

  lemma VelocityUnitUnique(u1: VelocityUnit, u2: VelocityUnit, speed: real)
    requires InVelocityBand(u1, speed) && InVelocityBand(u2, speed)
    ensures u1 == u2
  {
  }
}
