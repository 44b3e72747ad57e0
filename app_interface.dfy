/**
 * The dashboard back end: the object QML binds to. It owns the frame queue
 * the receive loop fills, decodes one frame per timer tick in place, exposes
 * setters, and publishes button presses back to the bus.
 *
 * Every state-changing method is proved against the pure model in
 * `Dispatcher`: its new state and the notifications it returns are the
 * ones the model gives for the old state.
 */
module Dashboard {
  import opened FixedWidth
  import opened Wire
  import opened CanIds
  import opened FrameQueue
  import opened Dispatcher

  /** The identifier `CAN_ID_BTN_BASE + buttonIndex`, computed in unsigned 32-bit arithmetic. */
  function ButtonId(buttonIndex: int32): (id: uint32)
    ensures 0 <= buttonIndex < ButtonSpan as int ==> id == ButtonBase + buttonIndex && IsButtonId(id)
  {
    (ButtonBase as int + buttonIndex as int) % 0x1_0000_0000
  }

  /** The 12-byte message announcing a button press or release. */
  function ButtonMessage(buttonIndex: int32, pressed: bool): (m: seq<byte>)
    ensures |m| == MessageSize
  {
    Message(ButtonId(buttonIndex), PayloadByte7(if pressed then 1 else 0))
  }

  /** `setFuelUsage`: the usage clamped to [0, 99999]. */
  function ClampFuelUsage(v: real): (r: real)
    ensures 0.0 <= r <= FuelUsageCap
    ensures 0.0 <= v <= FuelUsageCap ==> r == v
    ensures v < 0.0 ==> r == 0.0
    ensures v > FuelUsageCap ==> r == FuelUsageCap
  {
    if v < 0.0 then 0.0 else if v > FuelUsageCap then FuelUsageCap else v
  }

  class AppInterface {
    var rpm: int
    var popup: int
    var isoActive: bool
    var creepActive: bool
    var telltales: seq<int>
    var gauges: seq<int>
    var engineHours: int
    var fuelRate: real
    var actualFuelRate: real
    var fuelUsage: real
    var defRate: real
    var lastTripHours: int
    var tripHours: int
    var defUsage: real
    var avgEngineLoad: int
    var lastResetDate: string
    /** Frames accepted by the receive loop and not yet decoded, oldest first. */
    var frameQueue: seq<Frame>
    /** Messages handed to the button publisher socket, in order. */
    var sent: seq<seq<byte>>

    /** The observable properties, as a value. */
    function State(): Snapshot
      reads this
    {
      Snapshot(rpm, popup, isoActive, creepActive, telltales, gauges, engineHours,
               tripHours, lastTripHours, fuelRate, actualFuelRate, fuelUsage,
               defRate, defUsage, avgEngineLoad, lastResetDate)
    }

    ghost predicate Valid()
      reads this
    {
      Dispatcher.Valid(State())
    }

    /**
     * The member initialisers, then the reset date and a zero last-trip
     * reading; sockets, threads and timers are not modelled.
     */
    constructor()
      ensures Valid()
      ensures State() == Defaults().(lastResetDate := LastResetDate)
      ensures frameQueue == [] && sent == []
    {
      rpm := 0;
      popup := 0;
      isoActive := false;
      creepActive := false;
      telltales := seq(TelltaleCount, _ => 1);
      gauges := seq(GaugeCount, _ => 1);
      engineHours := 0;
      fuelRate := 0.0;
      actualFuelRate := 0.0;
      fuelUsage := 0.0;
      defRate := 0.0;
      lastTripHours := 0;
      tripHours := 0;
      defUsage := 0.0;
      avgEngineLoad := 0;
      lastResetDate := "";
      frameQueue := [];
      sent := [];
      new;
      var _ := SetLastResetDate(LastResetDate);
      var _ := SetLastTripHours(0);
    }

    // -------------------------------------------------------------------
    // Receive loop and timer
    // -------------------------------------------------------------------

    /** One iteration of the receive loop: enqueue the frame of a message of at least 12 bytes. */
    method Receive(msg: seq<byte>)
      modifies this
      ensures frameQueue == Accept(old(frameQueue), msg)
      ensures State() == old(State()) && sent == old(sent)
    {
      if |msg| < MessageSize {
        return;
      }
      var id := IdOf(msg[..4]);
      var payload := msg[4..MessageSize];
      frameQueue := frameQueue + [Frame(id, payload)];
    }

    /** One timer tick: decode the oldest queued frame, if any. */
    method ProcessQueue() returns (signals: seq<Signal>)
      requires Valid()
      modifies this
      ensures Valid()
      ensures frameQueue == Take(old(frameQueue)).rest && sent == old(sent)
      ensures match Take(old(frameQueue)).frame
              case None => State() == old(State()) && signals == []
              case Some(f) => Outcome(State(), signals) == Dispatch(old(State()), f.id, f.payload)
    {
      if frameQueue == [] {
        return [];
      }
      var frame := frameQueue[0];
      frameQueue := frameQueue[1..];
      signals := ProcessFrame(frame.id, frame.payload);
    }

    /**
     * Decode one frame in place. The tests are the source's, in its order,
     * including the telltale branch that falls through to the remaining tests.
     */
    method ProcessFrame(id: uint32, payload: seq<byte>) returns (signals: seq<Signal>)
      requires Valid()
      modifies this
      ensures Valid()
      ensures Outcome(State(), signals) == Dispatch(old(State()), id, payload)
      ensures frameQueue == old(frameQueue) && sent == old(sent)
    {
      signals := [];
      if |payload| < PayloadSize {
        return;
      }

      if id == RpmId {
        signals := UpdateRpm(payload[6] as int * 0x100 + payload[7] as int);
        return;
      }

      if TelltaleBase <= id < TelltaleBase + TelltaleCount {
        signals := UpdateTelltale(id - TelltaleBase, payload[7] % 2);
      }

      if id == PopupId {
        signals := UpdatePopup(payload[6] as int * 0x100 + payload[7] as int);
        return;
      }

      if GaugeBase <= id < GaugeBase + GaugeCount {
        signals := UpdateGauge(id - GaugeBase, MapPercent(payload[7]));
        return;
      }

      if id == EngineHoursId {
        signals := UpdateEngineHours(U32At4(payload));
        return;
      }

      if ButtonBase <= id < ButtonBase + ButtonSpan {
        signals := UpdateButton(id - ButtonBase, payload[7] % 2 == 1);
        return;
      }

      if id == FuelRateId {
        signals := UpdateFuelRate((payload[6] as int * 0x100 + payload[7] as int) as real);
        return;
      }

      if id == DefRateId {
        signals := UpdateDefRate((payload[6] as int * 0x100 + payload[7] as int) as real);
        return;
      }

      if id == EngineLoadId {
        signals := UpdateEngineLoad(payload[6] as int * 0x100 + payload[7] as int);
        return;
      }
    }

    // The per-category updates `ProcessFrame` performs in place.

    method UpdateRpm(value: int) returns (signals: seq<Signal>)
      modifies this
      ensures Outcome(State(), signals) == OnRpm(old(State()), value)
      ensures frameQueue == old(frameQueue) && sent == old(sent)
    {
      signals := [];
      if value != rpm {
        rpm := value;
        signals := [RpmChanged];
      }
    }

    method UpdateTelltale(index: nat, value: int) returns (signals: seq<Signal>)
      requires index < |telltales|
      modifies this
      ensures Outcome(State(), signals) == OnTelltale(old(State()), index, value)
      ensures frameQueue == old(frameQueue) && sent == old(sent)
    {
      signals := [];
      if telltales[index] != value {
        telltales := telltales[index := value];
        signals := [TelltalesChanged];
      }
    }

    method UpdatePopup(value: int) returns (signals: seq<Signal>)
      modifies this
      ensures Outcome(State(), signals) == OnPopup(old(State()), value)
      ensures frameQueue == old(frameQueue) && sent == old(sent)
    {
      signals := [];
      if value != popup {
        popup := value;
        signals := [PopupTriggered, PopupChanged];
      }
    }

    method UpdateGauge(index: nat, level: int) returns (signals: seq<Signal>)
      requires index < |gauges|
      modifies this
      ensures Outcome(State(), signals) == OnGauge(old(State()), index, level)
      ensures frameQueue == old(frameQueue) && sent == old(sent)
    {
      signals := [];
      if gauges[index] != level {
        gauges := gauges[index := level];
        signals := [GaugesChanged];
      }
    }

    method UpdateEngineHours(value: int) returns (signals: seq<Signal>)
      modifies this
      ensures Outcome(State(), signals) == OnEngineHours(old(State()), value)
      ensures frameQueue == old(frameQueue) && sent == old(sent)
    {
      signals := [];
      if value != engineHours {
        engineHours := value;
        signals := [EngineHoursChanged];
        tripHours := engineHours - lastTripHours;
        if tripHours < 0 {
          tripHours := 0;
        }
        signals := signals + [TripHoursChanged];
      }
    }

    method UpdateButton(index: nat, pressed: bool) returns (signals: seq<Signal>)
      modifies this
      ensures Outcome(State(), signals) == OnButton(old(State()), index, pressed)
      ensures frameQueue == old(frameQueue) && sent == old(sent)
    {
      signals := [];
      if index == ButtonIndex(SafetyISO) {
        if isoActive != pressed {
          isoActive := pressed;
          signals := [IsoActiveChanged];
        }
      } else if index == ButtonIndex(SafetyCreep) {
        if creepActive != pressed {
          creepActive := pressed;
          signals := [CreepActiveChanged];
        }
      }
    }

    method UpdateFuelRate(rate: real) returns (signals: seq<Signal>)
      modifies this
      ensures Outcome(State(), signals) == OnFuelRate(old(State()), rate)
      ensures frameQueue == old(frameQueue) && sent == old(sent)
    {
      signals := [];
      if rate != fuelRate {
        fuelRate := rate;
        actualFuelRate := fuelRate / 20.0;
        fuelUsage := fuelUsage + actualFuelRate * (60.0 / 3600.0);
        signals := [FuelRateChanged, FuelUsageChanged];
      }
    }

    method UpdateDefRate(rate: real) returns (signals: seq<Signal>)
      modifies this
      ensures Outcome(State(), signals) == OnDefRate(old(State()), rate)
      ensures frameQueue == old(frameQueue) && sent == old(sent)
    {
      signals := [];
      if rate != defRate {
        defRate := rate;
        defUsage := defRate * (tripHours as real / 10.0);
        signals := [DefRateChanged, DefUsageChanged];
      }
    }

    method UpdateEngineLoad(value: int) returns (signals: seq<Signal>)
      modifies this
      ensures Outcome(State(), signals) == OnEngineLoad(old(State()), value)
      ensures frameQueue == old(frameQueue) && sent == old(sent)
    {
      signals := [];
      if value != avgEngineLoad {
        avgEngineLoad := value;
        signals := [AvgEngineLoadChanged];
      }
    }

    // -------------------------------------------------------------------
    // Outgoing button frames
    // -------------------------------------------------------------------

    /** Build the 8-byte payload (zero except bit 0 of byte 7) and send the 12-byte message. */
    method PublishButtonStatus(buttonIndex: int32, pressed: bool)
      modifies this
      ensures sent == old(sent) + [ButtonMessage(buttonIndex, pressed)]
      ensures State() == old(State()) && frameQueue == old(frameQueue)
    {
      var id := ButtonId(buttonIndex);
      var buffer := new byte[PayloadSize](_ => 0);
      buffer[7] := if pressed then 1 else 0;
      assert buffer[..] == PayloadByte7(if pressed then 1 else 0);
      sent := sent + [Message(id, buffer[..])];
    }

    // -------------------------------------------------------------------
    // Setters
    // -------------------------------------------------------------------

    /** Unconditional: stores the rate and notifies, even when unchanged. */
    method SetFuelRate(value: real) returns (signals: seq<Signal>)
      requires Valid()
      modifies this
      ensures Valid()
      ensures State() == old(State()).(fuelRate := value) && signals == [FuelRateChanged]
      ensures frameQueue == old(frameQueue) && sent == old(sent)
    {
      fuelRate := value;
      signals := [FuelRateChanged];
    }

    method SetFuelUsage(value: real) returns (signals: seq<Signal>)
      requires Valid()
      modifies this
      ensures Valid() && 0.0 <= fuelUsage <= FuelUsageCap
      ensures State() == old(State()).(fuelUsage := ClampFuelUsage(value))
      ensures signals == [FuelUsageChanged]
      ensures frameQueue == old(frameQueue) && sent == old(sent)
    {
      if value < 0.0 {
        fuelUsage := 0.0;
      } else if value > FuelUsageCap {
        fuelUsage := FuelUsageCap;
      } else {
        fuelUsage := value;
      }
      signals := [FuelUsageChanged];
    }

    method SetCreepActive(active: bool) returns (signals: seq<Signal>)
      requires Valid()
      modifies this
      ensures Valid()
      ensures State() == old(State()).(creepActive := active)
      ensures signals == if old(creepActive) == active then [] else [CreepActiveChanged]
      ensures frameQueue == old(frameQueue) && sent == old(sent)
    {
      if creepActive == active {
        return [];
      }
      creepActive := active;
      signals := [CreepActiveChanged];
    }

    method SetDefRate(value: real) returns (signals: seq<Signal>)
      requires Valid()
      modifies this
      ensures Valid()
      ensures State() == old(State()).(defRate := value)
      ensures signals == if old(defRate) == value then [] else [DefRateChanged]
      ensures frameQueue == old(frameQueue) && sent == old(sent)
    {
      if defRate == value {
        return [];
      }
      defRate := value;
      signals := [DefRateChanged];
    }

    /** The argument is ignored: trip hours are recomputed from engine and last-trip hours. */
    method SetTripHours(ignored: int) returns (signals: seq<Signal>)
      requires Valid()
      modifies this
      ensures Valid()
      ensures State() == old(State()) && signals == [TripHoursChanged]
      ensures frameQueue == old(frameQueue) && sent == old(sent)
    {
      tripHours := engineHours - lastTripHours;
      if tripHours < 0 {
        tripHours := 0;
      }
      signals := [TripHoursChanged];
    }

    /** Record the engine-hour reading at a trip reset and recompute trip hours. */
    method SetLastTripHours(value: int) returns (signals: seq<Signal>)
      modifies this
      ensures Valid() == old(|telltales| == TelltaleCount && |gauges| == GaugeCount
                              && (forall i :: 0 <= i < |telltales| ==> telltales[i] == 0 || telltales[i] == 1)
                              && (forall i :: 0 <= i < |gauges| ==> 1 <= gauges[i] <= 8))
      ensures State() == old(State()).(lastTripHours := value,
                                       tripHours := TripHours(old(engineHours), value))
      ensures signals == [LastTripHoursChanged, TripHoursChanged]
      ensures frameQueue == old(frameQueue) && sent == old(sent)
    {
      lastTripHours := value;
      signals := [LastTripHoursChanged];
      tripHours := engineHours - lastTripHours;
      if tripHours < 0 {
        tripHours := 0;
      }
      signals := signals + [TripHoursChanged];
    }

    method SetDefUsage(value: real) returns (signals: seq<Signal>)
      requires Valid()
      modifies this
      ensures Valid()
      ensures State() == old(State()).(defUsage := value) && signals == [DefUsageChanged]
      ensures frameQueue == old(frameQueue) && sent == old(sent)
    {
      defUsage := value;
      signals := [DefUsageChanged];
    }

    method SetAvgEngineLoad(value: int) returns (signals: seq<Signal>)
      requires Valid()
      modifies this
      ensures Valid()
      ensures State() == old(State()).(avgEngineLoad := value) && signals == [AvgEngineLoadChanged]
      ensures frameQueue == old(frameQueue) && sent == old(sent)
    {
      avgEngineLoad := value;
      signals := [AvgEngineLoadChanged];
    }

    method SetLastResetDate(date: string) returns (signals: seq<Signal>)
      modifies this
      ensures State() == old(State()).(lastResetDate := date)
      ensures signals == if old(lastResetDate) == date then [] else [LastResetDateChanged]
      ensures Valid() == old(Valid())
      ensures frameQueue == old(frameQueue) && sent == old(sent)
    {
      if lastResetDate == date {
        return [];
      }
      lastResetDate := date;
      signals := [LastResetDateChanged];
    }
  }

  // ---------------------------------------------------------------------
  // Properties across the class and the model
  // ---------------------------------------------------------------------

  /**
   * A button message the dashboard publishes, received by any dispatcher
   * built on the same decoding, sets the corresponding safety state.
   */
  lemma {:induction false} ButtonMessageRoundTrip(s: Snapshot, buttonIndex: int32, pressed: bool)
    requires Dispatcher.Valid(s) && 0 <= buttonIndex < ButtonSpan as int
    ensures var r := Deliver(s, ButtonMessage(buttonIndex, pressed));
            && (buttonIndex == 0 ==> r.state == s.(isoActive := pressed))
            && (buttonIndex == 2 ==> r.state == s.(creepActive := pressed))
            && (buttonIndex != 0 && buttonIndex != 2 ==> r == Outcome(s, []))
  {
    var payload := PayloadByte7(if pressed then 1 else 0);
    SplitMessage(ButtonId(buttonIndex), payload, []);
    assert ButtonMessage(buttonIndex, pressed) + [] == ButtonMessage(buttonIndex, pressed);
    DispatchButton(s, buttonIndex, payload);
  }
}
