/**
 * The dashboard's frame dispatcher as a function on a snapshot of its
 * state: dispatch on the identifier range, decode the payload field, and
 * store and notify only when the decoded value differs from the stored one.
 *
 * Engine, trip and last-trip hours are integer tenths of an hour (the raw
 * value carried on the wire); rates and usages are `real`.
 */
module Dispatcher {
  import opened FixedWidth
  import opened Wire
  import opened CanIds

  /** The change notifications the dashboard emits, one constructor per signal. */
  datatype Signal =
    | RpmChanged | TelltalesChanged | PopupTriggered | PopupChanged | GaugesChanged
    | EngineHoursChanged | TripHoursChanged | IsoActiveChanged | CreepActiveChanged
    | FuelRateChanged | FuelUsageChanged | DefRateChanged | DefUsageChanged
    | AvgEngineLoadChanged | LastTripHoursChanged | LastResetDateChanged

  datatype Snapshot = Snapshot(
    rpm: int,
    popup: int,
    isoActive: bool,
    creepActive: bool,
    telltales: seq<int>,
    gauges: seq<int>,
    engineHours: int,
    tripHours: int,
    lastTripHours: int,
    fuelRate: real,
    actualFuelRate: real,
    fuelUsage: real,
    defRate: real,
    defUsage: real,
    avgEngineLoad: int,
    lastResetDate: string)

  datatype Outcome = Outcome(state: Snapshot, signals: seq<Signal>)

  // ---------------------------------------------------------------------
  // Derived values
  // ---------------------------------------------------------------------

  /** The threshold that closes level `k`. */
  function Threshold(k: int): int
    requires 1 <= k <= 7
  {
    [Level1, Level2, Level3, Level4, Level5, Level6, Level7][k - 1]
  }

  /**
   * `mapPercent`: level k is the band (Threshold(k-1), Threshold(k)], with
   * level 1 open below and level 8 open above.
   */
  function MapPercent(percent: int): (level: int)
    ensures 1 <= level <= 8
    ensures level == 1 || Threshold(level - 1) < percent
    ensures level == 8 || percent <= Threshold(level)
  {
    if percent <= Level1 then 1
    else if percent <= Level2 then 2
    else if percent <= Level3 then 3
    else if percent <= Level4 then 4
    else if percent <= Level5 then 5
    else if percent <= Level6 then 6
    else if percent <= Level7 then 7
    else 8
  }

  lemma MapPercentMonotone(a: int, b: int)
    requires a <= b
    ensures MapPercent(a) <= MapPercent(b)
  {
  }

  lemma MapPercentBoundaries()
    ensures MapPercent(12) == 1 && MapPercent(13) == 2
    ensures MapPercent(25) == 2 && MapPercent(26) == 3
    ensures MapPercent(37) == 3 && MapPercent(38) == 4
    ensures MapPercent(50) == 4 && MapPercent(51) == 5
    ensures MapPercent(62) == 5 && MapPercent(63) == 6
    ensures MapPercent(75) == 6 && MapPercent(76) == 7
    ensures MapPercent(87) == 7 && MapPercent(88) == 8
    ensures MapPercent(100) == 8 && MapPercent(-5) == 1 && MapPercent(150) == 8
  {
  }

  /** Trip hours: engine hours since the last reset, never negative. */
  function TripHours(engineHours: int, lastTripHours: int): (t: int)
    ensures t >= 0 && t >= engineHours - lastTripHours
    ensures t == 0 || t == engineHours - lastTripHours
  {
    var t := engineHours - lastTripHours;
    if t < 0 then 0 else t
  }

  /** The DEF usage stored on a DEF-rate change: rate times trip hours. */
  function DefUsageOf(defRate: real, tripHoursTenths: int): real
  {
    defRate * (tripHoursTenths as real / 10.0)
  }

  /** The fuel usage after a fuel-rate change: the rate over 20, integrated as one minute. */
  function AccumulateFuel(usage: real, fuelRate: real): (r: real)
    ensures fuelRate >= 0.0 ==> r >= usage
  {
    usage + (fuelRate / 20.0) * (60.0 / 3600.0)
  }

  // ---------------------------------------------------------------------
  // Snapshot
  // ---------------------------------------------------------------------

  /** The member initialisers of the dashboard's state. */
  function Defaults(): (s: Snapshot)
    ensures Valid(s)
  {
    Snapshot(0, 0, false, false, seq(TelltaleCount, _ => 1), seq(GaugeCount, _ => 1),
             0, 0, 0, 0.0, 0.0, 0.0, 0.0, 0.0, 0, "")
  }

  /**
   * What every reachable state satisfies: the vectors keep their sizes,
   * telltales are 0/1, gauge levels are 1..8, and trip hours are derived.
   */
  ghost predicate Valid(s: Snapshot)
  {
    && |s.telltales| == TelltaleCount
    && |s.gauges| == GaugeCount
    && (forall i :: 0 <= i < |s.telltales| ==> s.telltales[i] == 0 || s.telltales[i] == 1)
    && (forall i :: 0 <= i < |s.gauges| ==> 1 <= s.gauges[i] <= 8)
    && s.tripHours == TripHours(s.engineHours, s.lastTripHours)
  }

  // ---------------------------------------------------------------------
  // processFrame
  // ---------------------------------------------------------------------

  // One handler per frame category: store the decoded value and notify
  // only when it differs from the stored one.

  function OnRpm(s: Snapshot, v: int): Outcome
  {
    if v != s.rpm then Outcome(s.(rpm := v), [RpmChanged]) else Outcome(s, [])
  }

  function OnTelltale(s: Snapshot, index: nat, v: int): Outcome
    requires index < |s.telltales|
  {
    if s.telltales[index] != v then Outcome(s.(telltales := s.telltales[index := v]), [TelltalesChanged])
    else Outcome(s, [])
  }

  function OnPopup(s: Snapshot, v: int): Outcome
  {
    if v != s.popup then Outcome(s.(popup := v), [PopupTriggered, PopupChanged]) else Outcome(s, [])
  }

  function OnGauge(s: Snapshot, index: nat, level: int): Outcome
    requires index < |s.gauges|
  {
    if s.gauges[index] != level then Outcome(s.(gauges := s.gauges[index := level]), [GaugesChanged])
    else Outcome(s, [])
  }

  function OnEngineHours(s: Snapshot, v: int): Outcome
  {
    if v != s.engineHours then
      Outcome(s.(engineHours := v, tripHours := TripHours(v, s.lastTripHours)),
              [EngineHoursChanged, TripHoursChanged])
    else Outcome(s, [])
  }

  /** Index 0 is the ISO button and index 2 the creep button; any other index only logs. */
  function OnButton(s: Snapshot, index: nat, pressed: bool): Outcome
  {
    if index == ButtonIndex(SafetyISO) then
      if s.isoActive != pressed then Outcome(s.(isoActive := pressed), [IsoActiveChanged])
      else Outcome(s, [])
    else if index == ButtonIndex(SafetyCreep) then
      if s.creepActive != pressed then Outcome(s.(creepActive := pressed), [CreepActiveChanged])
      else Outcome(s, [])
    else Outcome(s, [])
  }

  function OnFuelRate(s: Snapshot, v: real): Outcome
  {
    if v != s.fuelRate then
      Outcome(s.(fuelRate := v, actualFuelRate := v / 20.0,
                 fuelUsage := AccumulateFuel(s.fuelUsage, v)),
              [FuelRateChanged, FuelUsageChanged])
    else Outcome(s, [])
  }

  function OnDefRate(s: Snapshot, v: real): Outcome
  {
    if v != s.defRate then
      Outcome(s.(defRate := v, defUsage := DefUsageOf(v, s.tripHours)),
              [DefRateChanged, DefUsageChanged])
    else Outcome(s, [])
  }

  function OnEngineLoad(s: Snapshot, v: int): Outcome
  {
    if v != s.avgEngineLoad then Outcome(s.(avgEngineLoad := v), [AvgEngineLoadChanged])
    else Outcome(s, [])
  }

  /**
   * `processFrame`: a payload under 8 bytes is ignored; otherwise the
   * identifier selects the category and the payload field it decodes.
   */
  function Dispatch(s: Snapshot, id: uint32, payload: seq<byte>): (r: Outcome)
    requires Valid(s)
    ensures Valid(r.state)
  {
    if |payload| < PayloadSize then Outcome(s, [])
    else if id == RpmId then OnRpm(s, U16At6(payload))
    else if IsTelltaleId(id) then OnTelltale(s, id - TelltaleBase, Bit0At7(payload))
    else if id == PopupId then OnPopup(s, U16At6(payload))
    else if IsGaugeId(id) then OnGauge(s, id - GaugeBase, MapPercent(payload[7]))
    else if id == EngineHoursId then OnEngineHours(s, U32At4(payload))
    else if IsButtonId(id) then OnButton(s, id - ButtonBase, Bit0At7(payload) == 1)
    else if id == FuelRateId then OnFuelRate(s, U16At6(payload) as real)
    else if id == DefRateId then OnDefRate(s, U16At6(payload) as real)
    else if id == EngineLoadId then OnEngineLoad(s, U16At6(payload))
    else Outcome(s, [])
  }

  /** One received message, split and then dispatched (the queue in between holds only it). */
  function Deliver(s: Snapshot, msg: seq<byte>): (r: Outcome)
    requires Valid(s)
    ensures Valid(r.state)
    ensures |msg| < MessageSize ==> r == Outcome(s, [])
  {
    match Split(msg)
    case None => Outcome(s, [])
    case Some(f) => Dispatch(s, f.id, f.payload)
  }

  /** A well-formed 12-byte message is dispatched with its own identifier and payload. */
  lemma DeliverMessage(s: Snapshot, id: uint32, payload: seq<byte>)
    requires Valid(s) && |payload| == PayloadSize
    ensures Deliver(s, Message(id, payload)) == Dispatch(s, id, payload)
  {
    SplitMessage(id, payload, []);
    assert Message(id, payload) + [] == Message(id, payload);
  }

  // ---------------------------------------------------------------------
  // Properties of the dispatcher
  // ---------------------------------------------------------------------

  lemma ShortPayloadIgnored(s: Snapshot, id: uint32, payload: seq<byte>)
    requires Valid(s) && |payload| < PayloadSize
    ensures Dispatch(s, id, payload) == Outcome(s, [])
  {
  }

  lemma UnknownIdIgnored(s: Snapshot, id: uint32, payload: seq<byte>)
    requires Valid(s) && !IsKnownId(id)
    ensures Dispatch(s, id, payload) == Outcome(s, [])
  {
    assert !InCategory(id, RpmFrame) && !InCategory(id, TelltaleFrame) && !InCategory(id, PopupFrame);
    assert !InCategory(id, GaugeFrame) && !InCategory(id, EngineHoursFrame) && !InCategory(id, ButtonFrame);
    assert !InCategory(id, FuelRateFrame) && !InCategory(id, DefRateFrame) && !InCategory(id, EngineLoadFrame);
  }

  /** A notification is raised exactly when the state changes. */
  lemma SignalsIffChanged(s: Snapshot, id: uint32, payload: seq<byte>)
    requires Valid(s)
    ensures Dispatch(s, id, payload).signals == [] <==> Dispatch(s, id, payload).state == s
  {
  }

  /** The same frame twice: the second one changes nothing and notifies nothing. */
  lemma DispatchIdempotent(s: Snapshot, id: uint32, payload: seq<byte>)
    requires Valid(s)
    ensures var once := Dispatch(s, id, payload).state;
            Dispatch(once, id, payload) == Outcome(once, [])
  {
  }

  lemma DispatchRpm(s: Snapshot, payload: seq<byte>)
    requires Valid(s) && |payload| >= PayloadSize
    ensures var r := Dispatch(s, RpmId, payload);
            && 0 <= r.state.rpm < 0x1_0000
            && r.state == s.(rpm := U16At6(payload))
            && r.signals == if U16At6(payload) == s.rpm then [] else [RpmChanged]
  {
  }

  lemma DispatchPopup(s: Snapshot, payload: seq<byte>)
    requires Valid(s) && |payload| >= PayloadSize
    ensures var r := Dispatch(s, PopupId, payload);
            && r.state == s.(popup := U16At6(payload))
            && r.signals == if U16At6(payload) == s.popup then [] else [PopupTriggered, PopupChanged]
  {
  }

  lemma DispatchEngineLoad(s: Snapshot, payload: seq<byte>)
    requires Valid(s) && |payload| >= PayloadSize
    ensures var r := Dispatch(s, EngineLoadId, payload);
            && r.state == s.(avgEngineLoad := U16At6(payload))
            && r.signals == if U16At6(payload) == s.avgEngineLoad then [] else [AvgEngineLoadChanged]
  {
  }

  /** A telltale frame touches only its own entry. */
  lemma DispatchTelltale(s: Snapshot, index: nat, payload: seq<byte>)
    requires Valid(s) && |payload| >= PayloadSize && index < TelltaleCount
    ensures var r := Dispatch(s, TelltaleBase + index, payload);
            && r.state == s.(telltales := s.telltales[index := payload[7] % 2])
            && (forall j :: 0 <= j < TelltaleCount && j != index ==> r.state.telltales[j] == s.telltales[j])
            && r.signals == if s.telltales[index] == payload[7] % 2 then [] else [TelltalesChanged]
  {
  }

  /** A gauge frame sets only its own entry, to the level of byte 7. */
  lemma DispatchGauge(s: Snapshot, index: nat, payload: seq<byte>)
    requires Valid(s) && |payload| >= PayloadSize && index < GaugeCount
    ensures var r := Dispatch(s, GaugeBase + index, payload);
            && r.state == s.(gauges := s.gauges[index := MapPercent(payload[7])])
            && (forall j :: 0 <= j < GaugeCount && j != index ==> r.state.gauges[j] == s.gauges[j])
            && r.signals == if s.gauges[index] == MapPercent(payload[7]) then [] else [GaugesChanged]
  {
  }

  /** Engine hours take the 32-bit field; on a change trip hours follow, and are never negative. */
  lemma DispatchEngineHours(s: Snapshot, payload: seq<byte>)
    requires Valid(s) && |payload| >= PayloadSize
    ensures var r := Dispatch(s, EngineHoursId, payload);
            && r.state.engineHours == U32At4(payload)
            && r.state.tripHours >= 0
            && r.state.tripHours == TripHours(U32At4(payload), s.lastTripHours)
            && r.state == s.(engineHours := U32At4(payload), tripHours := r.state.tripHours)
            && r.signals == if U32At4(payload) == s.engineHours then []
                            else [EngineHoursChanged, TripHoursChanged]
  {
  }

  /** Button 0 drives ISO, button 2 drives creep, the other six change nothing. */
  lemma DispatchButton(s: Snapshot, index: nat, payload: seq<byte>)
    requires Valid(s) && |payload| >= PayloadSize && index < ButtonSpan
    ensures var r := Dispatch(s, ButtonBase + index, payload);
            var pressed := payload[7] % 2 == 1;
            && (index == 0 ==> r.state == s.(isoActive := pressed)
                               && r.signals == if s.isoActive == pressed then [] else [IsoActiveChanged])
            && (index == 2 ==> r.state == s.(creepActive := pressed)
                               && r.signals == if s.creepActive == pressed then [] else [CreepActiveChanged])
            && (index != 0 && index != 2 ==> r == Outcome(s, []))
  {
  }

  lemma DispatchFuelRate(s: Snapshot, payload: seq<byte>)
    requires Valid(s) && |payload| >= PayloadSize
    ensures var r := Dispatch(s, FuelRateId, payload);
            var v := U16At6(payload) as real;
            && r.state.fuelRate == v
            && (v != s.fuelRate ==> r.state == s.(fuelRate := v, actualFuelRate := v / 20.0,
                                                  fuelUsage := AccumulateFuel(s.fuelUsage, v))
                                    && r.state.fuelUsage >= s.fuelUsage
                                    && r.signals == [FuelRateChanged, FuelUsageChanged])
            && (v == s.fuelRate ==> r == Outcome(s, []))
  {
  }

  lemma DispatchDefRate(s: Snapshot, payload: seq<byte>)
    requires Valid(s) && |payload| >= PayloadSize
    ensures var r := Dispatch(s, DefRateId, payload);
            var v := U16At6(payload) as real;
            && r.state.defRate == v
            && (v != s.defRate ==> r.state == s.(defRate := v, defUsage := DefUsageOf(v, s.tripHours))
                                   && r.signals == [DefRateChanged, DefUsageChanged])
            && (v == s.defRate ==> r == Outcome(s, []))
  {
  }
}
