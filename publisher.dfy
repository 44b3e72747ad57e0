/**
 * The test harness's publisher: one method per signal, each building an
 * 8-byte payload in a zeroed buffer and sending the 12-byte message. It
 * keeps the last published engine-hours reading, which only ever grows
 * (until an explicit reset) and is persisted after every change.
 *
 * Engine hours are `real` hours here, as the harness holds them; the wire
 * carries them as whole tenths.
 */
module TestPublisher {
  import opened FixedWidth
  import opened Wire
  import opened CanIds
  import opened Dispatcher

  /** Upper bound the harness keeps engine hours under: 99999.9 h. */
  const EngineHoursCap: real := 99999.9

  /** The clamp to [0, 100] the gauge and engine-load publishers apply. */
  function ClampPercent(percent: int): (r: byte)
    ensures 0 <= r <= 100
    ensures 0 <= percent <= 100 ==> r == percent
    ensures percent < 0 ==> r == 0
    ensures percent > 100 ==> r == 100
  {
    if percent < 0 then 0 else if percent > 100 then 100 else percent
  }

  /** `base + index` computed on `uint32_t`, wrapping modulo 2^32. */
  function OffsetId(base: uint32, index: int32): (id: uint32)
    ensures 0 <= index ==> base as int + index as int < 0x1_0000_0000 ==> id == base + index
  {
    (base as int + index as int) % 0x1_0000_0000
  }

  /** `static_cast<uint32_t>(hours * 10.0f)`: whole tenths, truncated. */
  function RawTenths(hours: real): (raw: uint32)
    requires 0.0 <= hours <= EngineHoursCap
    ensures raw <= EngineHoursCapTenths
    ensures raw as real <= hours * 10.0 < raw as real + 1.0
  {
    (hours * 10.0).Floor
  }

  lemma RawTenthsMonotone(a: real, b: real)
    requires 0.0 <= a <= b <= EngineHoursCap
    ensures RawTenths(a) <= RawTenths(b)
  {
  }

  // ---------------------------------------------------------------------
  // The messages each publisher sends
  // ---------------------------------------------------------------------

  function RpmMessage(rpm: int): (m: seq<byte>)
    ensures |m| == MessageSize
  {
    Message(RpmId, PayloadU16(rpm))
  }

  function TelltaleMessage(index: int32, state: bool): (m: seq<byte>)
    ensures |m| == MessageSize
  {
    Message(OffsetId(TelltaleBase, index), PayloadByte7(if state then 1 else 0))
  }

  function GaugeMessage(gaugeIndex: int32, percent: int): (m: seq<byte>)
    ensures |m| == MessageSize
  {
    Message(OffsetId(GaugeBase, gaugeIndex), PayloadByte7(ClampPercent(percent)))
  }

  function EngineHoursMessage(raw: uint32): (m: seq<byte>)
    ensures |m| == MessageSize
  {
    Message(EngineHoursId, PayloadU32(raw))
  }

  function PopupMessage(value: int): (m: seq<byte>)
    ensures |m| == MessageSize
  {
    Message(PopupId, PayloadU16(value))
  }

  /**
   * `static_cast<uint16_t>(value)` on a `float`: the fraction is dropped
   * toward zero, and the result is defined only when the truncated value fits
   * in 16 bits, that is for values in (-1, 65536), hence the precondition.
   */
  function CastToUInt16(value: real): (raw: uint16)
    requires -1.0 < value < 65536.0
    ensures value < 0.0 ==> raw == 0
    ensures 0.0 <= value ==> raw as real <= value < raw as real + 1.0
  {
    if value < 0.0 then 0 else value.Floor
  }

  function FuelRateMessage(value: real): (m: seq<byte>)
    requires -1.0 < value < 65536.0
    ensures |m| == MessageSize
  {
    Message(FuelRateId, PayloadU16(CastToUInt16(value)))
  }

  function DefRateMessage(value: real): (m: seq<byte>)
    requires -1.0 < value < 65536.0
    ensures |m| == MessageSize
  {
    Message(DefRateId, PayloadU16(CastToUInt16(value)))
  }

  function EngineLoadMessage(percent: int): (m: seq<byte>)
    ensures |m| == MessageSize
  {
    Message(EngineLoadId, PayloadByte7(ClampPercent(percent)))
  }

  /**
   * The engine-hours rule: a reading below the current one is ignored,
   * any other is capped at 99999.9 h.
   */
  function AcceptHours(current: real, requested: real): (r: Option<real>)
    ensures r.None? <==> requested < current
    ensures r.Some? ==> r.value == if requested > EngineHoursCap then EngineHoursCap else requested
  {
    if requested < current then None
    else if requested > EngineHoursCap then Some(EngineHoursCap)
    else Some(requested)
  }

  /** The raw readings a run of `publishEngineHours` calls sends, starting from `current`. */
  function PublishedTenths(current: real, requests: seq<real>): (raws: seq<int>)
    requires 0.0 <= current <= EngineHoursCap
    ensures |raws| <= |requests|
    decreases |requests|
  {
    if requests == [] then []
    else match AcceptHours(current, requests[0])
      case None => PublishedTenths(current, requests[1..])
      case Some(h) => [RawTenths(h)] + PublishedTenths(h, requests[1..])
  }

  /**
   * Whatever the requests, the readings a publisher sends never go
   * backwards, never drop below the reading it started from and never
   * exceed the cap.
   */
  lemma {:induction false} PublishedTenthsMonotone(current: real, requests: seq<real>)
    requires 0.0 <= current <= EngineHoursCap
    ensures forall i, j :: 0 <= i <= j < |PublishedTenths(current, requests)| ==>
              PublishedTenths(current, requests)[i] <= PublishedTenths(current, requests)[j]
    ensures forall i :: 0 <= i < |PublishedTenths(current, requests)| ==>
              RawTenths(current) <= PublishedTenths(current, requests)[i] <= EngineHoursCapTenths
    decreases |requests|
  {
    if requests != [] {
      match AcceptHours(current, requests[0])
      case None =>
        PublishedTenthsMonotone(current, requests[1..]);
      case Some(h) =>
        PublishedTenthsMonotone(h, requests[1..]);
        RawTenthsMonotone(current, h);
    }
  }

  class ZmqPublisher {
    /** The last accepted engine-hours reading, in hours. */
    var engineHours: real
    /** The value held in the settings store under "EngineHours". */
    var persisted: real
    /** Messages handed to the publisher socket, in order. */
    var sent: seq<seq<byte>>

    ghost predicate Valid()
      reads this
    {
      0.0 <= engineHours <= EngineHoursCap
    }

    /** `stored` is what the settings store holds under "EngineHours" (0 when absent). */
    constructor(stored: real)
      ensures Valid()
      ensures engineHours == (if stored < 0.0 then 0.0 else if stored > EngineHoursCap then EngineHoursCap else stored)
      ensures persisted == stored && sent == []
    {
      engineHours := 0.0;
      persisted := stored;
      sent := [];
      new;
      LoadEngineHours();
    }

    /** Restores the persisted reading, clamped to [0, 99999.9]. */
    method LoadEngineHours()
      modifies this
      ensures Valid()
      ensures engineHours == (if persisted < 0.0 then 0.0 else if persisted > EngineHoursCap then EngineHoursCap else persisted)
      ensures persisted == old(persisted) && sent == old(sent)
    {
      engineHours := persisted;
      if engineHours < 0.0 {
        engineHours := 0.0;
      }
      if engineHours > EngineHoursCap {
        engineHours := EngineHoursCap;
      }
    }

    function CurrentEngineHours(): (hours: real)
      requires Valid()
      reads this
      ensures 0.0 <= hours <= EngineHoursCap
    {
      engineHours
    }

    method PublishRpm(rpm: int)
      modifies this
      ensures sent == old(sent) + [RpmMessage(rpm)]
      ensures engineHours == old(engineHours) && persisted == old(persisted)
    {
      var payload := new byte[PayloadSize](_ => 0);
      payload[6] := (rpm / 0x100) % 0x100;
      payload[7] := rpm % 0x100;
      assert payload[..] == PayloadU16(rpm);
      sent := sent + [Message(RpmId, payload[..])];
    }

    method PublishTelltale(index: int32, state: bool)
      modifies this
      ensures sent == old(sent) + [TelltaleMessage(index, state)]
      ensures engineHours == old(engineHours) && persisted == old(persisted)
    {
      var id := OffsetId(TelltaleBase, index);
      var payload := new byte[PayloadSize](_ => 0);
      payload[7] := if state then 1 else 0;
      assert payload[..] == PayloadByte7(if state then 1 else 0);
      sent := sent + [Message(id, payload[..])];
    }

    method PublishGauge(gaugeIndex: int32, percent: int)
      modifies this
      ensures sent == old(sent) + [GaugeMessage(gaugeIndex, percent)]
      ensures engineHours == old(engineHours) && persisted == old(persisted)
    {
      var p := percent;
      if p < 0 {
        p := 0;
      }
      if p > 100 {
        p := 100;
      }
      var id := OffsetId(GaugeBase, gaugeIndex);
      var payload := new byte[PayloadSize](_ => 0);
      payload[7] := p;
      assert payload[..] == PayloadByte7(ClampPercent(percent));
      sent := sent + [Message(id, payload[..])];
    }

    /** Monotone: a lower reading is ignored; otherwise capped, stored, persisted and sent. */
    method PublishEngineHours(hours: real)
      requires Valid()
      modifies this
      ensures Valid()
      ensures match AcceptHours(old(engineHours), hours)
              case None => engineHours == old(engineHours) && persisted == old(persisted) && sent == old(sent)
              case Some(h) => engineHours == h && persisted == h
                              && sent == old(sent) + [EngineHoursMessage(RawTenths(h))]
    {
      if hours < engineHours {
        return;
      }
      var h := hours;
      if h > EngineHoursCap {
        h := EngineHoursCap;
      }
      engineHours := h;
      persisted := engineHours;
      var raw := RawTenths(engineHours);
      var payload := new byte[PayloadSize](_ => 0);
      payload[4] := (raw / 0x100_0000) % 0x100;
      payload[5] := (raw / 0x1_0000) % 0x100;
      payload[6] := (raw / 0x100) % 0x100;
      payload[7] := raw % 0x100;
      assert payload[..] == PayloadU32(raw);
      sent := sent + [Message(EngineHoursId, payload[..])];
    }

    method MessagePopup(value: int)
      modifies this
      ensures sent == old(sent) + [PopupMessage(value)]
      ensures engineHours == old(engineHours) && persisted == old(persisted)
    {
      var payload := new byte[PayloadSize](_ => 0);
      payload[6] := (value / 0x100) % 0x100;
      payload[7] := value % 0x100;
      assert payload[..] == PayloadU16(value);
      sent := sent + [Message(PopupId, payload[..])];
    }

    method PublishFuelRate(value: real)
      requires -1.0 < value < 65536.0
      modifies this
      ensures sent == old(sent) + [FuelRateMessage(value)]
      ensures engineHours == old(engineHours) && persisted == old(persisted)
    {
      var raw: uint16 := if value < 0.0 then 0 else value.Floor;
      var payload := new byte[PayloadSize](_ => 0);
      payload[6] := (raw / 0x100) % 0x100;
      payload[7] := raw % 0x100;
      assert payload[..] == PayloadU16(raw);
      sent := sent + [Message(FuelRateId, payload[..])];
    }

    method PublishDefRate(value: real)
      requires -1.0 < value < 65536.0
      modifies this
      ensures sent == old(sent) + [DefRateMessage(value)]
      ensures engineHours == old(engineHours) && persisted == old(persisted)
    {
      var raw: uint16 := if value < 0.0 then 0 else value.Floor;
      var payload := new byte[PayloadSize](_ => 0);
      payload[6] := (raw / 0x100) % 0x100;
      payload[7] := raw % 0x100;
      assert payload[..] == PayloadU16(raw);
      sent := sent + [Message(DefRateId, payload[..])];
    }

    method PublishAvgEngineLoad(percent: int)
      modifies this
      ensures sent == old(sent) + [EngineLoadMessage(percent)]
      ensures engineHours == old(engineHours) && persisted == old(persisted)
    {
      var p := percent;
      if p < 0 {
        p := 0;
      }
      if p > 100 {
        p := 100;
      }
      var payload := new byte[PayloadSize](_ => 0);
      payload[7] := p;
      assert payload[..] == PayloadByte7(ClampPercent(percent));
      sent := sent + [Message(EngineLoadId, payload[..])];
    }

    /** The only way back: zero the reading, persist it and send a zero reading. */
    method ResetEngineHours()
      modifies this
      ensures Valid()
      ensures engineHours == 0.0 && persisted == 0.0
      ensures sent == old(sent) + [EngineHoursMessage(0)]
    {
      engineHours := 0.0;
      persisted := engineHours;
      var payload := new byte[PayloadSize](_ => 0);
      payload[4] := 0;
      payload[5] := 0;
      payload[6] := 0;
      payload[7] := 0;
      assert payload[..] == PayloadU32(0);
      sent := sent + [Message(EngineHoursId, payload[..])];
    }
  }

  // ---------------------------------------------------------------------
  // What the dashboard makes of each message
  // ---------------------------------------------------------------------

  /** RPM arrives as the low 16 bits of the published value. */
  lemma RpmRoundTrip(s: Snapshot, rpm: int)
    requires Dispatcher.Valid(s)
    ensures Deliver(s, RpmMessage(rpm)).state == s.(rpm := rpm % 0x1_0000)
  {
    DeliverMessage(s, RpmId, PayloadU16(rpm));
  }

  /** A published popup code arrives modulo 2^16: -1 is seen as 65535. */
  lemma PopupRoundTrip(s: Snapshot, value: int)
    requires Dispatcher.Valid(s)
    ensures Deliver(s, PopupMessage(value)).state == s.(popup := value % 0x1_0000)
    ensures value == -1 ==> Deliver(s, PopupMessage(value)).state.popup == 65535
  {
    DeliverMessage(s, PopupId, PayloadU16(value));
  }

  /** A telltale published with a valid index sets exactly that telltale. */
  lemma TelltaleRoundTrip(s: Snapshot, index: int32, state: bool)
    requires Dispatcher.Valid(s) && 0 <= index < TelltaleCount as int
    ensures Deliver(s, TelltaleMessage(index, state)).state
            == s.(telltales := s.telltales[index := if state then 1 else 0])
  {
    var payload := PayloadByte7(if state then 1 else 0);
    DeliverMessage(s, OffsetId(TelltaleBase, index), payload);
    DispatchTelltale(s, index as nat, payload);
  }

  /** A gauge published with a valid index shows the level of the clamped percentage. */
  lemma GaugeRoundTrip(s: Snapshot, gaugeIndex: int32, percent: int)
    requires Dispatcher.Valid(s) && 0 <= gaugeIndex < GaugeCount as int
    ensures Deliver(s, GaugeMessage(gaugeIndex, percent)).state
            == s.(gauges := s.gauges[gaugeIndex := MapPercent(ClampPercent(percent))])
  {
    var payload := PayloadByte7(ClampPercent(percent));
    DeliverMessage(s, OffsetId(GaugeBase, gaugeIndex), payload);
    DispatchGauge(s, gaugeIndex as nat, payload);
  }

  /** The dashboard's engine hours become the published tenths, and trip hours follow. */
  lemma EngineHoursRoundTrip(s: Snapshot, raw: uint32)
    requires Dispatcher.Valid(s)
    ensures var t := Deliver(s, EngineHoursMessage(raw)).state;
            t.engineHours == raw && t.tripHours == TripHours(raw, s.lastTripHours)
  {
    DeliverMessage(s, EngineHoursId, PayloadU32(raw));
  }

  /** After a reset the dashboard reads zero engine hours and, with a non-negative last trip, zero trip hours. */
  lemma ResetRoundTrip(s: Snapshot)
    requires Dispatcher.Valid(s) && s.lastTripHours >= 0
    ensures Deliver(s, EngineHoursMessage(0)).state.engineHours == 0
    ensures Deliver(s, EngineHoursMessage(0)).state.tripHours == 0
  {
    EngineHoursRoundTrip(s, 0);
  }

  /** Fuel and DEF rates arrive as whole units, the fraction truncated. */
  lemma FuelRateRoundTrip(s: Snapshot, value: real)
    requires Dispatcher.Valid(s) && -1.0 < value < 65536.0
    ensures Deliver(s, FuelRateMessage(value)).state.fuelRate == CastToUInt16(value) as real
  {
    DeliverMessage(s, FuelRateId, PayloadU16(CastToUInt16(value)));
  }

  lemma DefRateRoundTrip(s: Snapshot, value: real)
    requires Dispatcher.Valid(s) && -1.0 < value < 65536.0
    ensures Deliver(s, DefRateMessage(value)).state.defRate == CastToUInt16(value) as real
  {
    DeliverMessage(s, DefRateId, PayloadU16(CastToUInt16(value)));
  }

  /** Engine load arrives clamped to [0, 100]. */
  lemma EngineLoadRoundTrip(s: Snapshot, percent: int)
    requires Dispatcher.Valid(s)
    ensures Deliver(s, EngineLoadMessage(percent)).state == s.(avgEngineLoad := ClampPercent(percent))
  {
    DeliverMessage(s, EngineLoadId, PayloadByte7(ClampPercent(percent)));
  }
}
