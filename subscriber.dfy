/**
 * The test harness's subscriber: it receives the dashboard's button
 * messages with the same receive loop and queue as the dashboard, and
 * tracks the ISO and creep states they carry.
 */
module TestSubscriber {
  import opened FixedWidth
  import opened Wire
  import opened CanIds
  import opened FrameQueue
  import Dispatcher
  import Dashboard

  /** The harness's notifications. */
  datatype HarnessSignal =
    | FrameReceived(id: uint32, payload: seq<byte>)
    | IsoActiveChanged
    | IsoButtonChanged(pressed: bool)
    | CreepActiveChanged

  datatype Toggles = Toggles(isoActive: bool, creepActive: bool)

  datatype Handled = Handled(toggles: Toggles, signals: seq<HarnessSignal>)

  /**
   * `processFrame`: every frame with a full payload is announced; button 0
   * updates the ISO state and always reports the press, button 2 updates
   * the creep state.
   */
  function HandleFrame(t: Toggles, id: uint32, payload: seq<byte>): (r: Handled)
    ensures |payload| < PayloadSize ==> r == Handled(t, [])
    ensures |payload| >= PayloadSize ==> |r.signals| >= 1 && r.signals[0] == FrameReceived(id, payload)
    ensures !IsButtonId(id) ==> r.toggles == t
  {
    if |payload| < PayloadSize then Handled(t, [])
    else
      var announced := [FrameReceived(id, payload)];
      if IsButtonId(id) then
        var index := id - ButtonBase;
        var pressed := Bit0At7(payload) == 1;
        if index == 0 then
          var changed := if t.isoActive != pressed then [IsoActiveChanged] else [];
          Handled(t.(isoActive := pressed), announced + changed + [IsoButtonChanged(pressed)])
        else if index == 2 then
          if t.creepActive != pressed then Handled(t.(creepActive := pressed), announced + [CreepActiveChanged])
          else Handled(t, announced)
        else Handled(t, announced)
      else Handled(t, announced)
  }

  /** Button frames by index: 0 drives ISO, 2 drives creep, the rest are only announced. */
  lemma HandleButton(t: Toggles, index: nat, payload: seq<byte>)
    requires |payload| >= PayloadSize && index < ButtonSpan
    ensures var r := HandleFrame(t, ButtonBase + index, payload);
            var pressed := payload[7] % 2 == 1;
            && (index == 0 ==> r.toggles == t.(isoActive := pressed)
                               && r.signals[|r.signals| - 1] == IsoButtonChanged(pressed)
                               && (IsoActiveChanged in r.signals <==> t.isoActive != pressed))
            && (index == 2 ==> r.toggles == t.(creepActive := pressed)
                               && (CreepActiveChanged in r.signals <==> t.creepActive != pressed))
            && (index != 0 && index != 2 ==> r == Handled(t, [FrameReceived(ButtonBase + index, payload)]))
  {
    var r := HandleFrame(t, ButtonBase + index, payload);
    if index == 0 {
      assert r.signals[0] == FrameReceived(ButtonBase + index, payload);
    }
  }

  /**
   * The harness and the dashboard decode button frames alike: if they agree
   * on the ISO and creep states before a frame, they agree after it.
   */
  lemma AgreesWithDashboard(s: Dispatcher.Snapshot, t: Toggles, id: uint32, payload: seq<byte>)
    requires Dispatcher.Valid(s)
    requires t == Toggles(s.isoActive, s.creepActive)
    ensures var d := Dispatcher.Dispatch(s, id, payload).state;
            HandleFrame(t, id, payload).toggles == Toggles(d.isoActive, d.creepActive)
  {
    if |payload| >= PayloadSize && IsButtonId(id) {
      var index := id - ButtonBase;
      assert id == ButtonBase + index;
      Dispatcher.DispatchButton(s, index, payload);
      HandleButton(t, index, payload);
    }
  }

  /** The receive step followed by `HandleFrame`. */
  function DeliverToHarness(t: Toggles, msg: seq<byte>): (r: Handled)
    ensures |msg| < MessageSize ==> r == Handled(t, [])
  {
    match Split(msg)
    case None => Handled(t, [])
    case Some(f) => HandleFrame(t, f.id, f.payload)
  }

  /** A button press the dashboard publishes reaches the harness as that press. */
  lemma {:induction false} DashboardButtonReachesHarness(t: Toggles, buttonIndex: int32, pressed: bool)
    requires 0 <= buttonIndex < ButtonSpan as int
    ensures var r := DeliverToHarness(t, Dashboard.ButtonMessage(buttonIndex, pressed));
            && (buttonIndex == 0 ==> r.toggles == t.(isoActive := pressed)
                                     && r.signals[|r.signals| - 1] == IsoButtonChanged(pressed))
            && (buttonIndex == 2 ==> r.toggles == t.(creepActive := pressed))
            && (buttonIndex != 0 && buttonIndex != 2 ==> r.toggles == t)
  {
    var payload := PayloadByte7(if pressed then 1 else 0);
    var id := Dashboard.ButtonId(buttonIndex);
    SplitMessage(id, payload, []);
    assert Dashboard.ButtonMessage(buttonIndex, pressed) + [] == Dashboard.ButtonMessage(buttonIndex, pressed);
    HandleButton(t, buttonIndex as nat, payload);
  }

  class ZmqSubscriber {
    var isoActive: bool
    var creepActive: bool
    /** Frames accepted by the receive loop and not yet handled, oldest first. */
    var frameQueue: seq<Frame>

    function Toggled(): Toggles
      reads this
    {
      Toggles(isoActive, creepActive)
    }

    /** Both states start inactive; sockets, threads and timers are not modelled. */
    constructor()
      ensures Toggled() == Toggles(false, false) && frameQueue == []
    {
      isoActive := false;
      creepActive := false;
      frameQueue := [];
    }

    /** One iteration of the receive loop. */
    method Receive(msg: seq<byte>)
      modifies this
      ensures frameQueue == Accept(old(frameQueue), msg)
      ensures Toggled() == old(Toggled())
    {
      if |msg| < MessageSize {
        return;
      }
      var id := IdOf(msg[..4]);
      var payload := msg[4..MessageSize];
      frameQueue := frameQueue + [Frame(id, payload)];
    }

    /** One timer tick: handle the oldest queued frame, if any. */
    method ProcessQueue() returns (signals: seq<HarnessSignal>)
      modifies this
      ensures frameQueue == Take(old(frameQueue)).rest
      ensures match Take(old(frameQueue)).frame
              case None => Toggled() == old(Toggled()) && signals == []
              case Some(f) => Handled(Toggled(), signals) == HandleFrame(old(Toggled()), f.id, f.payload)
    {
      if frameQueue == [] {
        return [];
      }
      var frame := frameQueue[0];
      frameQueue := frameQueue[1..];
      signals := ProcessFrame(frame.id, frame.payload);
    }

    method ProcessFrame(id: uint32, payload: seq<byte>) returns (signals: seq<HarnessSignal>)
      modifies this
      ensures Handled(Toggled(), signals) == HandleFrame(old(Toggled()), id, payload)
      ensures frameQueue == old(frameQueue)
    {
      signals := [];
      if |payload| < PayloadSize {
        return;
      }
      signals := signals + [FrameReceived(id, payload)];

      if ButtonBase <= id < ButtonBase + ButtonSpan {
        var index := id - ButtonBase;
        var pressed := payload[7] % 2 == 1;
        if index == 0 {
          if isoActive != pressed {
            isoActive := pressed;
            signals := signals + [IsoActiveChanged];
          }
          signals := signals + [IsoButtonChanged(pressed)];
        } else if index == 2 {
          if creepActive != pressed {
            creepActive := pressed;
            signals := signals + [CreepActiveChanged];
          }
        }
      }
    }
  }
}
