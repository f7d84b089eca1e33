/**
 * The frame-level queue-until-ack bridge between a client WebSocket and a
 * component (webserver/src/websocket/relayBridge.js).
 */
module RelayBridge {
  import opened Bytes

  /** One WebSocket message, upstream or downstream; base64 is its own inverse and left out. */
  datatype Frame = Binary(data: seq<byte>) | Text(text: string)

  datatype Event =
    | Message(frame: Frame)     // the client sent one
    | Ack                       // the component opened its side
    | Downstream(frame: Frame)  // the component sent one
    | ClientClosing             // the client socket left OPEN

  datatype Pump = Pump(acked: bool, queue: seq<Frame>, sent: seq<Frame>, clientOpen: bool, delivered: seq<Frame>)

  const OPENED := Pump(false, [], [], true, [])

  function Step(p: Pump, e: Event): Pump {
    match e
    case Message(f) => if p.acked then p.(sent := p.sent + [f]) else p.(queue := p.queue + [f])
    case Ack => p.(acked := true, sent := p.sent + p.queue, queue := [])
    case Downstream(f) => if p.clientOpen then p.(delivered := p.delivered + [f]) else p
    case ClientClosing => p.(clientOpen := false)
  }

  function Run(p: Pump, events: seq<Event>): Pump
    decreases |events|
  {
    if events == [] then p else Run(Step(p, events[0]), events[1..])
  }

  function MessageOf(e: Event): seq<Frame> { if e.Message? then [e.frame] else [] }

  /** The client's messages, in order. */
  function Messages(events: seq<Event>): seq<Frame> {
    if events == [] then [] else MessageOf(events[0]) + Messages(events[1..])
  }

  /** The component's messages from before the client socket left OPEN, in order. */
  function Deliverable(events: seq<Event>): seq<Frame> {
    if events == [] || events[0].ClientClosing? then []
    else (if events[0].Downstream? then [events[0].frame] else []) + Deliverable(events[1..])
  }

  lemma StepUpstream(p: Pump, e: Event)
    requires p.acked ==> p.queue == []
    ensures var q := Step(p, e);
            && (q.acked <==> p.acked || e == Ack) && (q.acked ==> q.queue == []) && (!q.acked ==> q.sent == p.sent)
            && q.sent + q.queue == p.sent + p.queue + MessageOf(e)
  {
  }

  lemma UpstreamUnfold(p: Pump, events: seq<Event>)
    requires events != []
    ensures Run(p, events) == Run(Step(p, events[0]), events[1..])
    ensures Messages(events) == MessageOf(events[0]) + Messages(events[1..])
    ensures Ack in events <==> events[0] == Ack || Ack in events[1..]
  {
    assert events == [events[0]] + events[1..];
  }

  lemma {:induction false} RunUpstream(p: Pump, events: seq<Event>)
    requires p.acked ==> p.queue == []
    ensures var q := Run(p, events);
            && (q.acked <==> p.acked || Ack in events)
            && q.sent + q.queue == p.sent + p.queue + Messages(events)
            && (q.acked ==> q.queue == []) && (!q.acked ==> q.sent == p.sent)
    decreases |events|
  {
    if events != [] {
      hide *;
      var e := events[0];
      StepUpstream(p, e);
      UpstreamUnfold(p, events);
      RunUpstream(Step(p, e), events[1..]);
      assert p.sent + p.queue + MessageOf(e) + Messages(events[1..])
          == p.sent + p.queue + (MessageOf(e) + Messages(events[1..]));
    }
  }

  lemma {:induction false} RunDownstream(p: Pump, events: seq<Event>)
    ensures Run(p, events).delivered == p.delivered + if p.clientOpen then Deliverable(events) else []
    decreases |events|
  {
    if events != [] {
      RunDownstream(Step(p, events[0]), events[1..]);
    }
  }

  /**
   * Whenever the ack comes, the component gets exactly the client's messages in
   * order, none before the ack and none kept back after it; the client gets exactly
   * what the component sent while the client was open.
   */
  lemma NothingLostOrReordered(events: seq<Event>)
    ensures var p := Run(OPENED, events);
            && p.sent == (if Ack in events then Messages(events) else [])
            && p.queue == (if Ack in events then [] else Messages(events))
            && p.delivered == Deliverable(events)
  {
    assert OPENED == Pump(false, [], [], true, []);
    hide *;
    RunUpstream(OPENED, events);
    RunDownstream(OPENED, events);
    var p := Run(OPENED, events);
    assert OPENED.sent + OPENED.queue + Messages(events) == Messages(events);
    assert p.sent + [] == p.sent && [] + p.queue == p.queue && [] + Deliverable(events) == Deliverable(events);
  }

  /** The closure state of `bridgeSocket`; `sent` and `delivered` record what it handed on. */
  class Bridge {
    var acked: bool
    var queue: seq<Frame>
    var sent: seq<Frame>
    var clientOpen: bool
    var delivered: seq<Frame>

    ghost function State(): Pump
      reads this
    {
      Pump(acked, queue, sent, clientOpen, delivered)
    }

    constructor ()
      ensures State() == OPENED
    {
      acked, queue, sent, clientOpen, delivered := false, [], [], true, [];
    }

    method OnAck()
      modifies this
      ensures State() == Step(old(State()), Ack)
    {
      acked := true;
      var i := 0;
      while i < |queue|
        invariant i <= |queue| && queue == old(queue) && acked
        invariant sent == old(sent) + queue[..i]
        invariant clientOpen == old(clientOpen) && delivered == old(delivered)
      {
        sent := sent + [queue[i]];
        i := i + 1;
      }
      queue := [];
    }

    method OnMessage(frame: Frame)
      modifies this
      ensures State() == Step(old(State()), Message(frame))
    {
      if acked {
        sent := sent + [frame];
      } else {
        queue := queue + [frame];
      }
    }

    method OnData(frame: Frame)
      modifies this
      ensures State() == Step(old(State()), Downstream(frame))
    {
      if !clientOpen {
        return;
      }
      delivered := delivered + [frame];
    }
  }
}
