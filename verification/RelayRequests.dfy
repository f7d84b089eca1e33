/**
 * Requests to a component: single answers and streamed bodies
 * (webserver/src/websocket/relayManager.js:165-203, 281-382, 438-503).
 */
module RelayRequests {
  import opened Options

  type ServerId = string
  type RequestId = nat
  type Chunk = seq<int>

  // =============================================================== waiters

  datatype Result =
    | Offline
    | SendFailed
    | TimedOut
    | Answered(from: ServerId, value: string)

  /** `settled` records every resolve call, in order. */
  datatype Waits = Waits(pending: map<RequestId, ServerId>, asked: map<RequestId, ServerId>,
                         settled: seq<(RequestId, Result)>)

  datatype Event =
    | Dispatch(id: RequestId, server: ServerId, open: bool, sent: bool)
    | Response(server: ServerId, id: RequestId, value: string)   // a frame on that server's socket
    | TimerFires(id: RequestId)

  const IDLE := Waits(map[], map[], [])

  function Settle(w: Waits, id: RequestId, result: Result): Waits {
    w.(pending := w.pending - {id}, settled := w.settled + [(id, result)])
  }

  function Step(w: Waits, e: Event): Waits {
    match e
    case Dispatch(id, server, open, sent) =>
      if id in w.asked then w
      else
        var asked := w.(asked := w.asked[id := server]);
        if !open then Settle(asked, id, Offline)
        else
          var waiting := asked.(pending := asked.pending[id := server]);
          if sent then waiting else Settle(waiting, id, SendFailed)
    case Response(server, id, value) =>
      if id in w.pending && w.pending[id] == server then Settle(w, id, Answered(server, value)) else w
    case TimerFires(id) => if id in w.pending then Settle(w, id, TimedOut) else w
  }

  function Run(w: Waits, events: seq<Event>): Waits
    decreases |events|
  {
    if events == [] then w else Run(Step(w, events[0]), events[1..])
  }

  predicate IsSettled(settled: seq<(RequestId, Result)>, id: RequestId) {
    exists i :: 0 <= i < |settled| && settled[i].0 == id
  }

  lemma SettledGrows(settled: seq<(RequestId, Result)>, last: (RequestId, Result), id: RequestId)
    ensures IsSettled(settled + [last], id) <==> IsSettled(settled, id) || last.0 == id
  {
    assert (settled + [last])[|settled|] == last;
    if IsSettled(settled, id) {
      var i :| 0 <= i < |settled| && settled[i].0 == id;
      assert (settled + [last])[i] == settled[i];
    }
  }

  /** A settled request was asked, waits no more, and an answer is from the server asked. */
  predicate Fits(w: Waits, id: RequestId, result: Result) {
    id in w.asked && id !in w.pending && (result.Answered? ==> result.from == w.asked[id])
  }

  /** Every request asked is pending or has been settled once, never both; an answer is from the server asked. */
  ghost predicate Inv(w: Waits) {
    && (forall id :: id in w.pending ==> id in w.asked && w.pending[id] == w.asked[id])
    && (forall i :: 0 <= i < |w.settled| ==> Fits(w, w.settled[i].0, w.settled[i].1))
    && (forall i, j :: 0 <= i < j < |w.settled| ==> w.settled[i].0 != w.settled[j].0)
    && (forall id :: id in w.asked && id !in w.pending ==> IsSettled(w.settled, id))
  }

  lemma SettleKeeps(w: Waits, id: RequestId, result: Result)
    requires Inv(w) && id in w.pending
    requires result.Answered? ==> result.from == w.asked[id]
    ensures Inv(Settle(w, id, result))
  {
    var w', n := Settle(w, id, result), |w.settled|;
    forall i | 0 <= i < |w'.settled|
      ensures Fits(w', w'.settled[i].0, w'.settled[i].1) && (i < n ==> w'.settled[i].0 != id)
    {
      assert w'.settled[i] == if i < n then w.settled[i] else (id, result);
      assert i < n ==> Fits(w, w.settled[i].0, w.settled[i].1);
    }
    forall other | other in w'.asked && other !in w'.pending
      ensures IsSettled(w'.settled, other)
    {
      SettledGrows(w.settled, (id, result), other);
    }
  }

  lemma StepKeeps(w: Waits, e: Event)
    requires Inv(w)
    ensures Inv(Step(w, e))
  {
    match e {
      case Dispatch(id, server, open, sent) =>
        if id !in w.asked {
          var waiting := w.(asked := w.asked[id := server], pending := w.pending[id := server]);
          assert Inv(waiting);
          if !open {
            assert w.pending - {id} == waiting.pending - {id};
            SettleKeeps(waiting, id, Offline);
          } else if !sent {
            SettleKeeps(waiting, id, SendFailed);
          }
        }
      case Response(server, id, value) =>
        if id in w.pending && w.pending[id] == server {
          SettleKeeps(w, id, Answered(server, value));
        }
      case TimerFires(id) =>
        if id in w.pending {
          SettleKeeps(w, id, TimedOut);
        }
    }
  }

  lemma {:induction false} EveryRun(w: Waits, events: seq<Event>)
    requires Inv(w)
    ensures Inv(Run(w, events))
    decreases |events|
  {
    if events != [] {
      StepKeeps(w, events[0]);
      EveryRun(Step(w, events[0]), events[1..]);
    }
  }

  /**
   * In every run each request is settled at most once, is still pending exactly
   * until then, and an answer it is settled with came from the server it was sent to.
   */
  lemma SettledOnceByItsServer(events: seq<Event>, id: RequestId)
    requires id in Run(IDLE, events).asked
    ensures var w := Run(IDLE, events);
            && (id in w.pending <==> !IsSettled(w.settled, id))
            && (forall i, j :: 0 <= i < j < |w.settled| ==> !(w.settled[i].0 == id && w.settled[j].0 == id))
            && (forall i :: 0 <= i < |w.settled| && w.settled[i].0 == id && w.settled[i].1.Answered? ==>
                  w.settled[i].1.from == w.asked[id])
  {
    EveryRun(IDLE, events);
  }

  /** A response from any other server changes nothing. */
  lemma OthersCannotAnswer(w: Waits, server: ServerId, id: RequestId, value: string)
    requires id in w.pending ==> w.pending[id] != server
    ensures Step(w, Response(server, id, value)) == w
  {
  }

  // =============================================================== streams

  /** A streamed body the relay is holding; `attached` is whether the browser side has handlers yet. */
  datatype Entry = Entry(server: ServerId, queue: seq<Chunk>, ended: bool, error: Option<string>, attached: bool)

  /** What the browser side's handlers are called with. */
  datatype Out = Body(chunk: Chunk) | Finished(error: Option<string>)

  datatype StreamEvent =
    | Push(server: ServerId, chunk: Chunk)
    | Stop(server: ServerId, error: Option<string>)
    | Attach

  datatype Stream = Stream(entry: Option<Entry>, out: seq<Out>)

  /** Registered by the streaming head of the response. */
  function Headed(owner: ServerId): Stream { Stream(Some(Entry(owner, [], false, None, false)), []) }

  function Bodies(chunks: seq<Chunk>): (out: seq<Out>)
    ensures |out| == |chunks| && forall i :: 0 <= i < |chunks| ==> out[i] == Body(chunks[i])
  {
    seq(|chunks|, i requires 0 <= i < |chunks| => Body(chunks[i]))
  }

  function StreamStep(s: Stream, e: StreamEvent): Stream {
    match e
    case Push(server, chunk) =>
      if s.entry.None? || s.entry.value.ended || s.entry.value.server != server then s
      else if s.entry.value.attached then s.(out := s.out + [Body(chunk)])
      else s.(entry := Some(s.entry.value.(queue := s.entry.value.queue + [chunk])))
    case Stop(server, error) =>
      if s.entry.None? || s.entry.value.server != server then s
      else if s.entry.value.attached then Stream(None, s.out + [Finished(error)])
      else s.(entry := Some(s.entry.value.(ended := true, error := error)))
    case Attach =>
      if s.entry.None? then s.(out := s.out + [Finished(None)])
      else
        var flushed := s.out + Bodies(s.entry.value.queue);
        if s.entry.value.ended then Stream(None, flushed + [Finished(s.entry.value.error)])
        else Stream(Some(s.entry.value.(queue := [], attached := true)), flushed)
  }

  function StreamRun(s: Stream, events: seq<StreamEvent>): Stream
    decreases |events|
  {
    if events == [] then s else StreamRun(StreamStep(s, events[0]), events[1..])
  }

  /** The chunks the owner pushed before its first end, in order. */
  function Sent(owner: ServerId, events: seq<StreamEvent>): seq<Chunk> {
    if events == [] || (events[0].Stop? && events[0].server == owner) then []
    else (if events[0].Push? && events[0].server == owner then [events[0].chunk] else []) + Sent(owner, events[1..])
  }

  predicate Stopped(owner: ServerId, events: seq<StreamEvent>) {
    exists i :: 0 <= i < |events| && events[i].Stop? && events[i].server == owner
  }

  /** The error of the first end, or of the last end before the attach: the one that is reported. */
  function Reported(owner: ServerId, events: seq<StreamEvent>, attached: bool, sofar: Option<Option<string>>)
    : Option<Option<string>>
    decreases |events|
  {
    if events == [] || (attached && sofar.Some?) then sofar
    else
      var e := events[0];
      Reported(owner, events[1..], attached || e.Attach?,
               if e.Stop? && e.server == owner then Some(e.error) else sofar)
  }

  function Count(events: seq<StreamEvent>): nat {
    if events == [] then 0 else (if events[0].Attach? then 1 else 0) + Count(events[1..])
  }

  /** What the handlers have seen of a stream that carried `chunks` and ended with `ending`, if it has. */
  function Delivered(chunks: seq<Chunk>, ending: Option<Option<string>>): seq<Out> {
    Bodies(chunks) + (if ending.Some? then [Finished(ending.value)] else [])
  }

  lemma BodiesAppend(a: seq<Chunk>, b: seq<Chunk>)
    ensures Bodies(a + b) == Bodies(a) + Bodies(b)
  {
  }

  /** After the end has been delivered nothing more is, as long as nobody attaches again. */
  lemma {:induction false} RunOver(s: Stream, events: seq<StreamEvent>)
    requires s.entry.None? && Count(events) == 0
    ensures StreamRun(s, events) == s
    decreases |events|
  {
    if events != [] {
      RunOver(s, events[1..]);
    }
  }

  lemma RunUnfold(s: Stream, events: seq<StreamEvent>)
    requires events != []
    ensures StreamRun(s, events) == StreamRun(StreamStep(s, events[0]), events[1..])
    ensures Count(events) == (if events[0].Attach? then 1 else 0) + Count(events[1..])
  {
  }

  predicate Attached(owner: ServerId, s: Stream) { s.entry == Some(Entry(owner, [], false, None, true)) }

  function Passed(owner: ServerId, events: seq<StreamEvent>): seq<Out> {
    Delivered(Sent(owner, events), Reported(owner, events, true, None))
  }

  lemma AttachedStops(owner: ServerId, s: Stream, events: seq<StreamEvent>)
    requires Attached(owner, s) && events != [] && events[0].Stop? && events[0].server == owner
    ensures StreamStep(s, events[0]).entry == None
    ensures StreamStep(s, events[0]).out == s.out + Passed(owner, events)
  {
    var error := events[0].error;
    assert Reported(owner, events[1..], true, Some(error)) == Some(error);
    assert Bodies([]) + [Finished(error)] == [Finished(error)];
  }

  lemma DeliveredCons(out: seq<Out>, chunk: Chunk, rest: seq<Chunk>, ending: Option<Option<string>>)
    ensures out + [Body(chunk)] + Delivered(rest, ending) == out + Delivered([chunk] + rest, ending)
  {
    BodiesAppend([chunk], rest);
    assert Bodies([chunk]) == [Body(chunk)];
  }

  lemma AttachedPasses(owner: ServerId, s: Stream, events: seq<StreamEvent>)
    requires Attached(owner, s) && events != [] && !events[0].Attach?
    requires !(events[0].Stop? && events[0].server == owner)
    ensures Attached(owner, StreamStep(s, events[0]))
    ensures StreamStep(s, events[0]).out + Passed(owner, events[1..]) == s.out + Passed(owner, events)
  {
    var e, rest := events[0], Sent(owner, events[1..]);
    if e.Push? && e.server == owner {
      DeliveredCons(s.out, e.chunk, rest, Reported(owner, events[1..], true, None));
    } else {
      assert [] + rest == rest;
    }
  }

  /** Attached and running: chunks go straight through until the end. */
  lemma {:induction false} RunAttached(owner: ServerId, s: Stream, events: seq<StreamEvent>)
    requires Attached(owner, s) && Count(events) == 0
    ensures StreamRun(s, events).out == s.out + Passed(owner, events)
    decreases |events|
  {
    if events != [] {
      hide *;
      RunUnfold(s, events);
      if events[0].Stop? && events[0].server == owner {
        AttachedStops(owner, s, events);
        RunOver(StreamStep(s, events[0]), events[1..]);
      } else {
        AttachedPasses(owner, s, events);
        RunAttached(owner, StreamStep(s, events[0]), events[1..]);
      }
    }
  }

  predicate Held(owner: ServerId, s: Stream) {
    && s.entry.Some? && s.entry.value.server == owner && !s.entry.value.attached && s.out == []
    && (s.entry.value.ended || s.entry.value.error == None)
  }

  /** What is kept of a stream nobody has attached to, and what its owner has yet to send. */
  function Carried(owner: ServerId, entry: Entry, events: seq<StreamEvent>): seq<Chunk> {
    entry.queue + if entry.ended then [] else Sent(owner, events)
  }

  function Ending(owner: ServerId, entry: Entry, events: seq<StreamEvent>): Option<Option<string>> {
    Reported(owner, events, false, if entry.ended then Some(entry.error) else None)
  }

  lemma HeldKeeps(owner: ServerId, s: Stream, events: seq<StreamEvent>)
    requires Held(owner, s) && events != [] && !events[0].Attach?
    ensures var s' := StreamStep(s, events[0]);
            && Held(owner, s')
            && Carried(owner, s.entry.value, events) == Carried(owner, s'.entry.value, events[1..])
            && Ending(owner, s.entry.value, events) == Ending(owner, s'.entry.value, events[1..])
  {
    var e, q := events[0], s.entry.value.queue;
    if !s.entry.value.ended && e.Push? && e.server == owner {
      assert q + ([e.chunk] + Sent(owner, events[1..])) == q + [e.chunk] + Sent(owner, events[1..]);
    } else if !s.entry.value.ended && e.Stop? && e.server == owner {
      assert Sent(owner, events) == [];
    } else {
      assert [] + Sent(owner, events[1..]) == Sent(owner, events[1..]);
    }
  }

  /** The attach: what was kept is handed over, then the end if there was one. */
  lemma HeldAttaches(owner: ServerId, s: Stream, events: seq<StreamEvent>)
    requires Held(owner, s) && events != [] && events[0].Attach? && Count(events) == 1
    ensures StreamRun(s, events).out
         == Delivered(Carried(owner, s.entry.value, events), Ending(owner, s.entry.value, events))
  {
    var s', q := StreamStep(s, events[0]), s.entry.value.queue;
    assert [] + Bodies(q) == Bodies(q);
    if s.entry.value.ended {
      RunOver(s', events[1..]);
      var error := Some(s.entry.value.error);
      assert Reported(owner, events[1..], true, error) == error;
      assert Ending(owner, s.entry.value, events) == error;
      assert q + [] == q;
    } else {
      RunAttached(owner, s', events[1..]);
      BodiesAppend(q, Sent(owner, events[1..]));
      assert [] + Sent(owner, events[1..]) == Sent(owner, events[1..]);
    }
  }

  /** Not attached yet: everything before the end is kept. */
  lemma {:induction false} RunHeld(owner: ServerId, s: Stream, events: seq<StreamEvent>)
    requires Held(owner, s) && Count(events) <= 1
    ensures var carried := Carried(owner, s.entry.value, events);
            if Count(events) == 1 then
              StreamRun(s, events).out == Delivered(carried, Ending(owner, s.entry.value, events))
            else
              && StreamRun(s, events).out == []
              && StreamRun(s, events).entry.Some? && StreamRun(s, events).entry.value.queue == carried
    decreases |events|
  {
    if events == [] {
      assert s.entry.value.queue + [] == s.entry.value.queue;
    } else {
      RunUnfold(s, events);
      if events[0].Attach? {
        HeldAttaches(owner, s, events);
      } else {
        HeldKeeps(owner, s, events);
        RunHeld(owner, StreamStep(s, events[0]), events[1..]);
      }
    }
  }

  lemma {:induction false} ReportedIffStopped(owner: ServerId, events: seq<StreamEvent>, attached: bool,
                                              sofar: Option<Option<string>>)
    ensures Reported(owner, events, attached, sofar).Some? <==> sofar.Some? || Stopped(owner, events)
    decreases |events|
  {
    if events != [] && !(attached && sofar.Some?) {
      var e := events[0];
      var sofar' := if e.Stop? && e.server == owner then Some(e.error) else sofar;
      ReportedIffStopped(owner, events[1..], attached || e.Attach?, sofar');
      assert Stopped(owner, events) <==> (e.Stop? && e.server == owner) || Stopped(owner, events[1..]) by {
        if Stopped(owner, events[1..]) {
          var i :| 0 <= i < |events[1..]| && events[1..][i].Stop? && events[1..][i].server == owner;
          assert events[i + 1] == events[1..][i];
        }
        if Stopped(owner, events) && !(e.Stop? && e.server == owner) {
          var i :| 0 <= i < |events| && events[i].Stop? && events[i].server == owner;
          assert events[1..][i - 1] == events[i];
        }
      }
    }
  }

  /**
   * After one head and with one attach, for every interleaving of pushes, ends and
   * the attach, from any servers: the handlers see exactly the chunks the owner
   * pushed before its end, in order, each once; then, exactly when the owner has
   * ended it, the end, once and last. Before the attach they see nothing.
   */
  lemma DeliveredExactlyOnce(owner: ServerId, events: seq<StreamEvent>)
    requires Count(events) <= 1
    ensures var out := StreamRun(Headed(owner), events).out;
            var chunks := Sent(owner, events);
            var ending := Reported(owner, events, false, None);
            && (ending.Some? <==> Stopped(owner, events))
            && out == if Count(events) == 0 then [] else Delivered(chunks, ending)
  {
    RunHeld(owner, Headed(owner), events);
    ReportedIffStopped(owner, events, false, None);
    assert [] + Sent(owner, events) == Sent(owner, events);
  }

  // ============================================================== the class

  class RelayStreams {
    var pending: map<RequestId, ServerId>
    ghost var asked: map<RequestId, ServerId>
    ghost var settled: seq<(RequestId, Result)>
    var streams: map<RequestId, Entry>

    ghost function Waiting(): Waits
      reads this
    {
      Waits(pending, asked, settled)
    }

    function EntryOf(id: RequestId): Option<Entry>
      reads this
    {
      if id in streams then Some(streams[id]) else None
    }

    constructor ()
      ensures Waiting() == IDLE && Inv(Waiting()) && streams == map[]
    {
      pending, asked, settled, streams := map[], map[], [], map[];
    }

    /** `dispatch` and `forwardHttp` up to the await. */
    method Ask(id: RequestId, server: ServerId, open: bool, sent: bool)
      requires Inv(Waiting()) && id !in asked
      modifies this
      ensures Waiting() == Step(old(Waiting()), Dispatch(id, server, open, sent)) && Inv(Waiting())
      ensures streams == old(streams)
    {
      StepKeeps(Waiting(), Dispatch(id, server, open, sent));
      asked := asked[id := server];
      if !open {
        assert id !in pending;
        settled := settled + [(id, Offline)];
        assert pending - {id} == pending;
        return;
      }
      pending := pending[id := server];
      if !sent {
        pending := pending - {id};
        settled := settled + [(id, SendFailed)];
      }
    }

    /** `_resolvePending`. */
    method ResolvePending(server: ServerId, id: RequestId, value: string)
      requires Inv(Waiting())
      modifies this
      ensures Waiting() == Step(old(Waiting()), Response(server, id, value)) && Inv(Waiting())
      ensures streams == old(streams)
    {
      StepKeeps(Waiting(), Response(server, id, value));
      if id in pending && pending[id] == server {
        pending := pending - {id};
        settled := settled + [(id, Answered(server, value))];
      }
    }

    /** The streaming head: register before resolving. */
    method OnHead(server: ServerId, id: RequestId, value: string)
      requires Inv(Waiting())
      modifies this
      ensures streams == old(streams)[id := Entry(server, [], false, None, false)]
      ensures Waiting() == Step(old(Waiting()), Response(server, id, value)) && Inv(Waiting())
    {
      streams := streams[id := Entry(server, [], false, None, false)];
      ResolvePending(server, id, value);
    }

    method PushStream(server: ServerId, id: RequestId, chunk: Chunk) returns (out: seq<Out>)
      modifies this
      ensures Stream(EntryOf(id), out) == StreamStep(Stream(old(EntryOf(id)), []), Push(server, chunk))
      ensures Waiting() == old(Waiting()) && forall other :: other != id ==> EntryOf(other) == old(EntryOf(other))
    {
      if id !in streams || streams[id].ended || streams[id].server != server {
        return [];
      }
      if streams[id].attached {
        return [Body(chunk)];
      }
      streams := streams[id := streams[id].(queue := streams[id].queue + [chunk])];
      return [];
    }

    method EndStream(server: ServerId, id: RequestId, error: Option<string>) returns (out: seq<Out>)
      modifies this
      ensures Stream(EntryOf(id), out) == StreamStep(Stream(old(EntryOf(id)), []), Stop(server, error))
      ensures Waiting() == old(Waiting()) && forall other :: other != id ==> EntryOf(other) == old(EntryOf(other))
    {
      if id !in streams || streams[id].server != server {
        return [];
      }
      if streams[id].attached {
        streams := streams - {id};
        return [Finished(error)];
      }
      streams := streams[id := streams[id].(ended := true, error := error)];
      return [];
    }

    method AttachStream(id: RequestId) returns (out: seq<Out>)
      modifies this
      ensures Stream(EntryOf(id), out) == StreamStep(Stream(old(EntryOf(id)), []), Attach)
      ensures Waiting() == old(Waiting()) && forall other :: other != id ==> EntryOf(other) == old(EntryOf(other))
    {
      if id !in streams {
        return [Finished(None)];
      }
      var entry := streams[id];
      var queued := entry.queue;
      out := [];
      for i := 0 to |queued|
        invariant out == Bodies(queued[..i])
        invariant streams == old(streams) && Waiting() == old(Waiting())
      {
        BodiesAppend(queued[..i], [queued[i]]);
        assert queued[..i + 1] == queued[..i] + [queued[i]];
        assert Bodies([queued[i]]) == [Body(queued[i])];
        out := out + [Body(queued[i])];
      }
      assert queued[..|queued|] == queued;
      if entry.ended {
        streams := streams - {id};
        out := out + [Finished(entry.error)];
        return;
      }
      streams := streams[id := entry.(queue := [], attached := true)];
    }
  }
}
