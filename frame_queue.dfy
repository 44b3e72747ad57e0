/**
 * The hand-off between the blocking receive loop and the periodic consumer.
 *
 * The receive step validates a raw message and appends its frame at the
 * tail; the consumer's tick takes at most one frame, the oldest. Both the
 * dashboard and the test harness use this same pair of steps; the mutex
 * that guards the queue and the thread that runs the loop are not modelled,
 * so an interleaving of the two threads is a sequence of events.
 */
module FrameQueue {
  import opened FixedWidth
  import opened Wire

  /** The receive step: drop a message under 12 bytes, otherwise enqueue its frame. */
  function Accept(q: seq<Frame>, msg: seq<byte>): (r: seq<Frame>)
    ensures |msg| < MessageSize ==> r == q
    ensures |msg| >= MessageSize ==>
              && |r| == |q| + 1 && r[..|q|] == q
              && |r[|q|].payload| == PayloadSize
              && Message(r[|q|].id, r[|q|].payload) == msg[..MessageSize]
  {
    match Split(msg)
    case None => q
    case Some(f) => q + [f]
  }

  /** The frames a sequence of raw messages contributes, in arrival order. */
  function Arrivals(msgs: seq<seq<byte>>): (r: seq<Frame>)
    ensures |r| <= |msgs|
    ensures forall i :: 0 <= i < |r| ==> |r[i].payload| == PayloadSize
  {
    if msgs == [] then []
    else
      var head := match Split(msgs[0]) case None => [] case Some(f) => [f];
      head + Arrivals(msgs[1..])
  }

  datatype Taken = Taken(frame: Option<Frame>, rest: seq<Frame>)

  /** One consumer tick: nothing on an empty queue, otherwise the oldest frame. */
  function Take(q: seq<Frame>): (r: Taken)
    ensures q == [] <==> r.frame.None?
    ensures r.frame.Some? ==> [r.frame.value] + r.rest == q
    ensures r.frame.None? ==> r.rest == q
  {
    if q == [] then Taken(None, q) else Taken(Some(q[0]), q[1..])
  }

  /** What the two threads do, one step at a time. */
  datatype Event = Receive(msg: seq<byte>) | Tick

  datatype Run = Run(queue: seq<Frame>, dispatched: seq<Frame>)

  /** Replays the events against queue `q`; `dispatched` lists the frames handed to the dispatcher. */
  function Replay(q: seq<Frame>, events: seq<Event>): Run
    decreases |events|
  {
    if events == [] then Run(q, [])
    else
      match events[0]
      case Receive(msg) => Replay(Accept(q, msg), events[1..])
      case Tick =>
        var t := Take(q);
        var r := Replay(t.rest, events[1..]);
        match t.frame
        case None => r
        case Some(f) => Run(r.queue, [f] + r.dispatched)
  }

  function Received(events: seq<Event>): (msgs: seq<seq<byte>>)
    ensures |msgs| <= |events|
  {
    if events == [] then []
    else (match events[0] case Receive(m) => [m] case Tick => []) + Received(events[1..])
  }

  function Ticks(events: seq<Event>): (n: nat)
    ensures n <= |events|
  {
    if events == [] then 0 else (if events[0].Tick? then 1 else 0) + Ticks(events[1..])
  }

  lemma {:induction false} ArrivalsAppend(a: seq<seq<byte>>, b: seq<seq<byte>>)
    ensures Arrivals(a + b) == Arrivals(a) + Arrivals(b)
    decreases |a|
  {
    if a == [] {
      assert a + b == b;
    } else {
      assert (a + b)[1..] == a[1..] + b;
      ArrivalsAppend(a[1..], b);
    }
  }

  /**
   * FIFO: whatever the interleaving of receives and ticks, the frames
   * dispatched so far followed by the frames still queued are the initial
   * queue followed by every accepted message, in arrival order; nothing is
   * lost, duplicated or reordered, and at most one frame leaves per tick.
   */
  lemma {:induction false} ReplayIsFifo(q: seq<Frame>, events: seq<Event>)
    ensures Replay(q, events).dispatched + Replay(q, events).queue
            == q + Arrivals(Received(events))
    ensures |Replay(q, events).dispatched| <= Ticks(events)
    decreases |events|
  {
    if events != [] {
      var rest := events[1..];
      match events[0]
      case Receive(msg) =>
        ReplayIsFifo(Accept(q, msg), rest);
        assert Received(events) == [msg] + Received(rest);
        ArrivalsAppend([msg], Received(rest));
        assert [msg][1..] == [];
      case Tick =>
        ReplayIsFifo(Take(q).rest, rest);
        assert Received(events) == Received(rest);
        if q != [] {
          var r := Replay(q[1..], rest);
          assert [q[0]] + r.dispatched + r.queue == [q[0]] + (r.dispatched + r.queue);
          assert q == [q[0]] + q[1..];
        }
    }
  }

  /** A tick on an empty queue dispatches nothing and leaves the queue empty. */
  lemma {:induction false} TicksOnEmptyQueue(n: nat)
    ensures Replay([], seq(n, _ => Tick)) == Run([], [])
  {
    if n > 0 {
      assert seq(n, _ => Tick)[1..] == seq(n - 1, _ => Tick);
      TicksOnEmptyQueue(n - 1);
    }
  }

  /** Receiving a batch and then ticking once per message dispatches exactly the accepted frames, in order. */
  lemma {:induction false} DrainAfterBurst(msgs: seq<seq<byte>>)
    ensures var burst := seq(|msgs|, i requires 0 <= i < |msgs| => Receive(msgs[i]));
            Replay([], burst + seq(|msgs|, _ => Tick)).dispatched == Arrivals(msgs)
  {
    var burst := seq(|msgs|, i requires 0 <= i < |msgs| => Receive(msgs[i]));
    var ticks := seq(|msgs|, _ => Tick);
    ReceivesOnly([], msgs);
    assert [] + Arrivals(msgs) == Arrivals(msgs);
    DrainQueue(Arrivals(msgs), |msgs|);
    ReplaySplit([], burst, ticks);
  }

  lemma {:induction false} ReceivesOnly(q: seq<Frame>, msgs: seq<seq<byte>>)
    ensures var burst := seq(|msgs|, i requires 0 <= i < |msgs| => Receive(msgs[i]));
            Replay(q, burst) == Run(q + Arrivals(msgs), [])
    decreases |msgs|
  {
    var burst := seq(|msgs|, i requires 0 <= i < |msgs| => Receive(msgs[i]));
    if msgs == [] {
      assert q + Arrivals(msgs) == q;
    } else {
      var tail := msgs[1..];
      assert burst[1..] == seq(|tail|, i requires 0 <= i < |tail| => Receive(tail[i]));
      ReceivesOnly(Accept(q, msgs[0]), tail);
    }
  }

  lemma {:induction false} DrainQueue(q: seq<Frame>, n: nat)
    requires |q| <= n
    ensures Replay(q, seq(n, _ => Tick)) == Run([], q)
    decreases n
  {
    if n > 0 {
      assert seq(n, _ => Tick)[1..] == seq(n - 1, _ => Tick);
      if q == [] {
        TicksOnEmptyQueue(n - 1);
      } else {
        DrainQueue(q[1..], n - 1);
      }
    }
  }

  /** Replaying two event sequences one after the other. */
  lemma {:induction false} ReplaySplit(q: seq<Frame>, a: seq<Event>, b: seq<Event>)
    ensures Replay(q, a + b).dispatched
            == Replay(q, a).dispatched + Replay(Replay(q, a).queue, b).dispatched
    decreases |a|
  {
    if a == [] {
      assert a + b == b;
    } else {
      assert (a + b)[0] == a[0];
      assert (a + b)[1..] == a[1..] + b;
      match a[0]
      case Receive(msg) => ReplaySplit(Accept(q, msg), a[1..], b);
      case Tick => ReplaySplit(Take(q).rest, a[1..], b);
    }
  }
}
