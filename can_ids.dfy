/**
 * Frame identifiers, gauge thresholds, caps and defaults of the dashboard,
 * and the enumerations that index the telltale, gauge and button ranges.
 */
module CanIds {
  import opened FixedWidth
  import opened Wire

  const RpmId: uint32 := 0xDE00_0400
  const TelltaleBase: uint32 := 0xDE00_1000
  const ButtonBase: uint32 := 0xDE00_2000
  const GaugeBase: uint32 := 0xDE00_4000
  const EngineHoursId: uint32 := 0xDE00_5000
  const PopupId: uint32 := 0xDE00_6000
  const FuelRateId: uint32 := 0xDE00_6001
  const DefRateId: uint32 := 0xDE00_6002
  const EngineLoadId: uint32 := 0xDE00_6003

  /** Number of button identifiers the dispatchers accept after `ButtonBase`. */
  const ButtonSpan: nat := 8

  const Level1: int := 12
  const Level2: int := 25
  const Level3: int := 37
  const Level4: int := 50
  const Level5: int := 62
  const Level6: int := 75
  const Level7: int := 87

  /** Cap applied by `setFuelUsage`. */
  const FuelUsageCap: real := 99999.0
  const FuelTankCapacity: real := 100.0
  const LastResetDate: string := "11/05/1998"

  /** Engine-hours cap of the test publisher, 99999.9 h, in tenths of an hour. */
  const EngineHoursCapTenths: nat := 999_999

  // ---------------------------------------------------------------------
  // Enumerations
  // ---------------------------------------------------------------------

  datatype Telltale =
    | Stop | Caution | SeatBelt | ParkBrake | WorkLamp
    | Beacon | Regeneration | GridHeater | HydraulicLock | FootPedal

  const TelltaleCount: nat := 10

  /** The enumerator's value in the source. */
  function TelltaleIndex(t: Telltale): (i: nat)
    ensures i < TelltaleCount
    ensures TelltaleAt(i) == t
  {
    match t
    case Stop => 0
    case Caution => 1
    case SeatBelt => 2
    case ParkBrake => 3
    case WorkLamp => 4
    case Beacon => 5
    case Regeneration => 6
    case GridHeater => 7
    case HydraulicLock => 8
    case FootPedal => 9
  }

  function TelltaleAt(i: nat): (t: Telltale)
    requires i < TelltaleCount
  {
    [Stop, Caution, SeatBelt, ParkBrake, WorkLamp,
     Beacon, Regeneration, GridHeater, HydraulicLock, FootPedal][i]
  }

  lemma TelltaleAtIndex(i: nat)
    requires i < TelltaleCount
    ensures TelltaleIndex(TelltaleAt(i)) == i
  {
  }

  datatype GaugeType = Fuel | Coolant | Def | Battery | Hydraulic

  const GaugeCount: nat := 5

  function GaugeIndex(g: GaugeType): (i: nat)
    ensures i < GaugeCount
    ensures GaugeAt(i) == g
  {
    match g
    case Fuel => 0
    case Coolant => 1
    case Def => 2
    case Battery => 3
    case Hydraulic => 4
  }

  function GaugeAt(i: nat): (g: GaugeType)
    requires i < GaugeCount
  {
    [Fuel, Coolant, Def, Battery, Hydraulic][i]
  }

  lemma GaugeAtIndex(i: nat)
    requires i < GaugeCount
    ensures GaugeIndex(GaugeAt(i)) == i
  {
  }

  /** `SafetyButton`: the spelling `SaftyDEF` is the source's. */
  datatype SafetyButton = SafetyISO | SaftyDEF | SafetyCreep

  function ButtonIndex(b: SafetyButton): (i: nat)
    ensures i < 3 && i < ButtonSpan
    ensures ButtonAt(i) == b
  {
    match b
    case SafetyISO => 0
    case SaftyDEF => 1
    case SafetyCreep => 2
  }

  function ButtonAt(i: nat): (b: SafetyButton)
    requires i < 3
  {
    [SafetyISO, SaftyDEF, SafetyCreep][i]
  }

  // ---------------------------------------------------------------------
  // Identifier ranges
  // ---------------------------------------------------------------------

  predicate InRange(id: int, base: int, span: nat)
  {
    base <= id < base + span
  }

  predicate IsTelltaleId(id: int) { InRange(id, TelltaleBase, TelltaleCount) }
  predicate IsButtonId(id: int) { InRange(id, ButtonBase, ButtonSpan) }
  predicate IsGaugeId(id: int) { InRange(id, GaugeBase, GaugeCount) }

  /** Which category a known identifier belongs to; every category is a set of ids. */
  datatype Category =
    | RpmFrame | TelltaleFrame | PopupFrame | GaugeFrame | EngineHoursFrame
    | ButtonFrame | FuelRateFrame | DefRateFrame | EngineLoadFrame

  predicate InCategory(id: int, c: Category)
  {
    match c
    case RpmFrame => id == RpmId
    case TelltaleFrame => IsTelltaleId(id)
    case PopupFrame => id == PopupId
    case GaugeFrame => IsGaugeId(id)
    case EngineHoursFrame => id == EngineHoursId
    case ButtonFrame => IsButtonId(id)
    case FuelRateFrame => id == FuelRateId
    case DefRateFrame => id == DefRateId
    case EngineLoadFrame => id == EngineLoadId
  }

  predicate IsKnownId(id: int)
  {
    exists c: Category :: InCategory(id, c)
  }

  /** The thresholds are strictly increasing, so the gauge levels are well defined. */
  lemma ThresholdsIncreasing()
    ensures Level1 < Level2 < Level3 < Level4 < Level5 < Level6 < Level7
    ensures 0 <= Level1 && Level7 < 100
  {
  }

  /** No identifier belongs to two categories, so dispatch on identifiers is unambiguous. */
  lemma CategoriesDisjoint(id: int, c1: Category, c2: Category)
    requires InCategory(id, c1) && InCategory(id, c2)
    ensures c1 == c2
  {
  }
}
