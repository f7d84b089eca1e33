/**
 * Tunnels and the jobs that ride on them: RelayManager's tunnel map with the state
 * watch and ESPHome job tables (webserver/src/websocket/relayManager.js:375-424, 508-515;
 * stateWatch.js:53-89, 126-131, 174-200; esphomeStream.js:116-273).
 *
 * Every component frame, disconnect, start, poll, cancel and sweep turn is one atomic
 * step. `calls` records every callback made on a tunnel and every unregistration.
 */
module RelayTunnels {
  import opened Options

  type ServerId = string
  type SocketId = nat

  const MAX_LINES := 20000
  const MAX_BYTES := 4 * 1024 * 1024

  datatype Kind = WatchKind | BuildKind | BridgeKind
  datatype Tunnel = Tunnel(server: ServerId, kind: Kind)

  /** `frames` are the texts the watch has taken in (what they do to its log is WatchLog's matter). */
  datatype Watch = Watch(server: ServerId, done: bool, frames: seq<string>)

  datatype Build = Build(server: ServerId, done: bool, lines: seq<string>, bytes: nat, truncated: bool,
                         exitCode: Option<int>, failure: Option<string>)

  /** What the ESPHome job makes of a text: a line (unparseable text is kept as one), an exit, or neither. */
  datatype Reading = LineRead(line: string, size: nat) | ExitRead(code: Option<int>) | OtherRead

  /** A ws_data frame's text, if it has one, and how it reads; `size` above is the line's UTF-8 length. */
  datatype Text = Text(raw: Option<string>, reading: Reading)

  datatype Call = AckCall(id: SocketId) | DataCall(id: SocketId) | CloseCall(id: SocketId) | Unregistered(id: SocketId)

  datatype Relay = Relay(tunnels: map<SocketId, Tunnel>, watches: map<SocketId, Watch>, builds: map<SocketId, Build>,
                         used: set<SocketId>, calls: seq<Call>)

  const NOTHING := Relay(map[], map[], map[], {}, [])

  // ------------------------------------------------------------- the steps

  function Register(r: Relay, id: SocketId, t: Tunnel): Relay {
    r.(tunnels := r.tunnels[id := t], used := r.used + {id})
  }

  function Unregister(r: Relay, id: SocketId): Relay {
    r.(tunnels := r.tunnels - {id}, calls := r.calls + [Unregistered(id)])
  }

  function Append(b: Build, line: string, size: nat): Build {
    if |b.lines| >= MAX_LINES || b.bytes >= MAX_BYTES then b.(truncated := true)
    else b.(lines := b.lines + [line], bytes := b.bytes + size)
  }

  /** `_finish`. */
  function FinishBuild(r: Relay, id: SocketId): Relay
    requires id in r.builds
  {
    if r.builds[id].done then r
    else Unregister(r.(builds := r.builds[id := r.builds[id].(done := true)]), id)
  }

  function BuildText(r: Relay, id: SocketId, text: Text): Relay
    requires id in r.builds
  {
    var b := r.builds[id];
    if b.done || text.raw.None? then r
    else
      match text.reading
      case LineRead(line, size) => r.(builds := r.builds[id := Append(b, line, size)])
      case ExitRead(code) => FinishBuild(r.(builds := r.builds[id := b.(exitCode := code)]), id)
      case OtherRead => r
  }

  function WatchText(r: Relay, id: SocketId, text: Text): Relay
    requires id in r.watches
  {
    var w := r.watches[id];
    if text.raw.None? || text.raw.value == "" || w.done then r
    else r.(watches := r.watches[id := w.(frames := w.frames + [text.raw.value])])
  }

  function DataOn(r: Relay, id: SocketId, text: Text): Relay
    requires id in r.tunnels
  {
    var r' := r.(calls := r.calls + [DataCall(id)]);
    match r.tunnels[id].kind
    case WatchKind => if id in r.watches then WatchText(r', id, text) else r'
    case BuildKind => if id in r.builds then BuildText(r', id, text) else r'
    case BridgeKind => r'
  }

  /** Forget a tunnel, then run its onClose. */
  function CloseOn(r: Relay, id: SocketId, reason: string): Relay
    requires id in r.tunnels
  {
    var r' := r.(tunnels := r.tunnels - {id}, calls := r.calls + [CloseCall(id)]);
    match r.tunnels[id].kind
    case WatchKind =>
      if id in r.watches then Unregister(r'.(watches := r.watches[id := r.watches[id].(done := true)]), id) else r'
    case BuildKind =>
      if id in r.builds then
        var b := r.builds[id];
        var told := if !b.done && b.exitCode.None? then b.(failure := Some(reason)) else b;
        FinishBuild(r'.(builds := r.builds[id := told]), id)
      else r'
    case BridgeKind => r'
  }

  /** `_dropTunnelsFor`: walk the map's entries and close those of the server. */
  function CloseMine(r: Relay, server: ServerId, entries: seq<SocketId>, reason: string): Relay
    decreases |entries|
  {
    if entries == [] then r
    else
      CloseMine(if Owns(r, server, entries[0]) then CloseOn(r, entries[0], reason) else r,
                server, entries[1..], reason)
  }

  datatype Event =
    | StartWatch(id: SocketId, server: ServerId, sent: bool)   // past the per-home cap (see StateWatch)
    | StartBuild(id: SocketId, server: ServerId, sent: bool)
    | StartBridge(id: SocketId, server: ServerId, sent: bool)
    | AckFrame(server: ServerId, id: SocketId)
    | DataFrame(server: ServerId, id: SocketId, text: Text)
    | CloseFrame(server: ServerId, id: SocketId, reason: string)
    | Lost(server: ServerId, entries: seq<SocketId>, reason: string)  // the relay is gone; the map's keys in order
    | BridgeGone(id: SocketId)
    | PollBuild(id: SocketId, server: ServerId, cursor: int)
    | EndWatch(id: SocketId)   // cancel by its server, or idle
    | EndBuild(id: SocketId)   // cancel by its server, or expiry

  predicate ListsTunnels(r: Relay, entries: seq<SocketId>) { forall id :: id in r.tunnels ==> id in entries }

  predicate Owns(r: Relay, server: ServerId, id: SocketId) { id in r.tunnels && r.tunnels[id].server == server }

  /** `read`: a finished job is dropped once its reader has caught up. */
  function Poll(r: Relay, id: SocketId, server: ServerId, cursor: int): Relay {
    if id !in r.builds || r.builds[id].server != server then r
    else if r.builds[id].done then r.(builds := r.builds - {id})
    else r
  }

  function Step(r: Relay, e: Event): Relay {
    match e
    case StartWatch(id, server, sent) =>
      if id in r.used then r
      else
        var up := Register(r.(watches := r.watches[id := Watch(server, false, [])]), id, Tunnel(server, WatchKind));
        if sent then up else Unregister(up, id).(watches := r.watches - {id})
    case StartBuild(id, server, sent) =>
      if id in r.used then r
      else
        var up := Register(r.(builds := r.builds[id := Build(server, false, [], 0, false, None, None)]), id,
                           Tunnel(server, BuildKind));
        if sent then up else Unregister(up, id).(builds := r.builds - {id})
    case StartBridge(id, server, sent) =>
      if id in r.used then r
      else
        var up := Register(r, id, Tunnel(server, BridgeKind));
        if sent then up else Unregister(up, id)
    case AckFrame(server, id) => if Owns(r, server, id) then r.(calls := r.calls + [AckCall(id)]) else r
    case DataFrame(server, id, text) => if Owns(r, server, id) then DataOn(r, id, text) else r
    case CloseFrame(server, id, reason) => if Owns(r, server, id) then CloseOn(r, id, reason) else r
    case Lost(server, entries, reason) =>
      if ListsTunnels(r, entries) then CloseMine(r, server, entries, reason) else r
    case BridgeGone(id) =>
      if id !in r.used || (id in r.tunnels && r.tunnels[id].kind != BridgeKind) then r else Unregister(r, id)
    case PollBuild(id, server, cursor) => Poll(r, id, server, cursor)
    case EndWatch(id) =>
      if id !in r.watches then r else Unregister(r, id).(watches := r.watches - {id})
    case EndBuild(id) =>
      if id !in r.builds then r else Unregister(r, id).(builds := r.builds - {id})
  }

  function Run(r: Relay, events: seq<Event>): Relay
    decreases |events|
  {
    if events == [] then r else Run(Step(r, events[0]), events[1..])
  }

  // --------------------------------------------------------------- lifecycle

  /** A job is unfinished exactly while its tunnel is registered for its server. */
  ghost predicate JobsHaveTunnels(r: Relay) {
    && (forall id :: id in r.watches ==>
          if r.watches[id].done then id !in r.tunnels
          else id in r.tunnels && r.tunnels[id] == Tunnel(r.watches[id].server, WatchKind))
    && (forall id :: id in r.builds ==>
          if r.builds[id].done then id !in r.tunnels
          else id in r.tunnels && r.tunnels[id] == Tunnel(r.builds[id].server, BuildKind))
  }

  /** A job tunnel always has its job, and a socket id serves one purpose for ever. */
  ghost predicate TunnelsHaveJobs(r: Relay) {
    && (forall id :: id in r.tunnels && r.tunnels[id].kind == WatchKind ==> id in r.watches)
    && (forall id :: id in r.tunnels && r.tunnels[id].kind == BuildKind ==> id in r.builds)
    && r.tunnels.Keys <= r.used && r.watches.Keys <= r.used && r.builds.Keys <= r.used
    && r.watches.Keys !! r.builds.Keys
  }

  predicate Callback(c: Call, id: SocketId) { c.id == id && !c.Unregistered? }

  predicate Ending(c: Call, id: SocketId) { c == CloseCall(id) || c == Unregistered(id) }

  /** No callback follows a close or an unregistration; in particular a tunnel closes at most once. */
  ghost predicate CallsInOrder(calls: seq<Call>) {
    forall i, j, id :: 0 <= i < j < |calls| && Ending(calls[i], id) ==> !Callback(calls[j], id)
  }

  /** Whatever has ended is not registered, and ids are never used again. */
  ghost predicate EndedAreGone(calls: seq<Call>, tunnels: set<SocketId>, used: set<SocketId>) {
    && (forall i, id :: 0 <= i < |calls| && Ending(calls[i], id) ==> id !in tunnels)
    && (forall i :: 0 <= i < |calls| ==> calls[i].id in used)
  }

  ghost predicate CallsFit(r: Relay) {
    CallsInOrder(r.calls) && EndedAreGone(r.calls, r.tunnels.Keys, r.used)
  }

  ghost predicate Inv(r: Relay) { JobsHaveTunnels(r) && TunnelsHaveJobs(r) && CallsFit(r) }

  lemma CallFits(r: Relay, r': Relay, c: Call)
    requires CallsFit(r) && r'.calls == r.calls + [c] && r'.used == r.used && c.id in r.used
    requires !c.Unregistered? ==> c.id in r.tunnels
    requires r'.tunnels.Keys == if Ending(c, c.id) then r.tunnels.Keys - {c.id} else r.tunnels.Keys
    ensures CallsFit(r')
  {
  }

  lemma UnregisterFits(r: Relay, id: SocketId)
    requires CallsFit(r) && id in r.used
    ensures CallsFit(Unregister(r, id))
  {
    CallFits(r, Unregister(r, id), Unregistered(id));
  }

  lemma CloseOnFits(r: Relay, id: SocketId, reason: string)
    requires CallsFit(r) && id in r.tunnels && id in r.used
    ensures CallsFit(CloseOn(r, id, reason))
  {
    var r' := r.(tunnels := r.tunnels - {id}, calls := r.calls + [CloseCall(id)]);
    CallFits(r, r', CloseCall(id));
    UnregisterFits(r', id);
    assert CloseOn(r, id, reason).calls == r'.calls || CloseOn(r, id, reason).calls == Unregister(r', id).calls;
    assert CloseOn(r, id, reason).tunnels.Keys == r'.tunnels.Keys - {id};
  }

  /** The tunnel is gone, its job is done, and nothing else has changed. */
  lemma CloseOnTables(r: Relay, id: SocketId, reason: string)
    requires id in r.tunnels
    requires id in r.watches ==> r.tunnels[id].kind == WatchKind
    requires id in r.builds ==> r.tunnels[id].kind == BuildKind
    ensures var r' := CloseOn(r, id, reason);
            && r'.tunnels == r.tunnels - {id}
            && r'.watches.Keys == r.watches.Keys && r'.builds.Keys == r.builds.Keys && r'.used == r.used
            && (id in r.watches ==> r'.watches[id].done) && (id in r.builds ==> r'.builds[id].done)
            && (forall other :: other in r.watches && other != id ==> r'.watches[other] == r.watches[other])
            && (forall other :: other in r.builds && other != id ==> r'.builds[other] == r.builds[other])
  {
  }

  lemma CloseOnKeeps(r: Relay, id: SocketId, reason: string)
    requires Inv(r) && id in r.tunnels
    ensures Inv(CloseOn(r, id, reason))
    ensures CloseOn(r, id, reason).tunnels == r.tunnels - {id}
  {
    CloseOnFits(r, id, reason);
    CloseOnTables(r, id, reason);
    hide CloseOn;
    hide CallsFit;
  }

  lemma {:induction false} CloseMineKeeps(r: Relay, server: ServerId, entries: seq<SocketId>, reason: string)
    requires Inv(r)
    ensures Inv(CloseMine(r, server, entries, reason))
    decreases |entries|
  {
    if entries != [] {
      if Owns(r, server, entries[0]) {
        CloseOnKeeps(r, entries[0], reason);
        CloseMineKeeps(CloseOn(r, entries[0], reason), server, entries[1..], reason);
      } else {
        CloseMineKeeps(r, server, entries[1..], reason);
      }
    }
  }

  lemma FinishKeeps(r: Relay, id: SocketId)
    requires Inv(r) && id in r.builds
    ensures Inv(FinishBuild(r, id))
  {
    UnregisterFits(r, id);
  }

  lemma BuildTextKeeps(r: Relay, id: SocketId, text: Text)
    requires Inv(r) && id in r.builds
    ensures Inv(BuildText(r, id, text))
  {
    if text.raw.Some? && text.reading.ExitRead? {
      FinishKeeps(r.(builds := r.builds[id := r.builds[id].(exitCode := text.reading.code)]), id);
    }
  }

  lemma WatchTextKeeps(r: Relay, id: SocketId, text: Text)
    requires Inv(r) && id in r.watches
    ensures Inv(WatchText(r, id, text))
  {
  }

  lemma DataOnKeeps(r: Relay, id: SocketId, text: Text)
    requires Inv(r) && id in r.tunnels
    ensures Inv(DataOn(r, id, text))
  {
    var r' := r.(calls := r.calls + [DataCall(id)]);
    CallFits(r, r', DataCall(id));
    match r.tunnels[id].kind {
      case WatchKind => WatchTextKeeps(r', id, text);
      case BuildKind => BuildTextKeeps(r', id, text);
      case BridgeKind =>
    }
  }

  lemma RegisterFits(r: Relay, id: SocketId, t: Tunnel)
    requires CallsFit(r) && id !in r.used
    ensures CallsFit(Register(r, id, t)) && CallsFit(Unregister(Register(r, id, t), id))
  {
    UnregisterFits(Register(r, id, t), id);
  }

  lemma StartWatchKeeps(r: Relay, id: SocketId, server: ServerId, sent: bool)
    requires Inv(r)
    ensures Inv(Step(r, StartWatch(id, server, sent)))
  {
    if id !in r.used {
      RegisterFits(r.(watches := r.watches[id := Watch(server, false, [])]), id, Tunnel(server, WatchKind));
    }
  }

  lemma StartBuildKeeps(r: Relay, id: SocketId, server: ServerId, sent: bool)
    requires Inv(r)
    ensures Inv(Step(r, StartBuild(id, server, sent)))
  {
    if id !in r.used {
      RegisterFits(r.(builds := r.builds[id := Build(server, false, [], 0, false, None, None)]), id,
                   Tunnel(server, BuildKind));
    }
  }

  lemma StartBridgeKeeps(r: Relay, id: SocketId, server: ServerId, sent: bool)
    requires Inv(r)
    ensures Inv(Step(r, StartBridge(id, server, sent)))
  {
    if id !in r.used {
      RegisterFits(r, id, Tunnel(server, BridgeKind));
    }
  }

  lemma FrameKeeps(r: Relay, e: Event)
    requires Inv(r) && (e.AckFrame? || e.DataFrame? || e.CloseFrame?) && Owns(r, e.server, e.id)
    ensures Inv(Step(r, e))
  {
    match e {
      case AckFrame(_, id) => CallFits(r, Step(r, e), AckCall(id));
      case DataFrame(_, id, text) => DataOnKeeps(r, id, text);
      case CloseFrame(_, id, reason) => CloseOnKeeps(r, id, reason);
    }
  }

  lemma BridgeGoneKeeps(r: Relay, id: SocketId)
    requires Inv(r)
    ensures Inv(Step(r, BridgeGone(id)))
  {
    if id in r.used {
      UnregisterFits(r, id);
    }
  }

  lemma EndJobKeeps(r: Relay, e: Event)
    requires Inv(r) && (e.EndWatch? || e.EndBuild?)
    ensures Inv(Step(r, e))
  {
    if e.id in r.used {
      UnregisterFits(r, e.id);
    }
  }

  lemma StepKeeps(r: Relay, e: Event)
    requires Inv(r)
    ensures Inv(Step(r, e))
  {
    match e {
      case StartWatch(id, server, sent) => StartWatchKeeps(r, id, server, sent);
      case StartBuild(id, server, sent) => StartBuildKeeps(r, id, server, sent);
      case StartBridge(id, server, sent) => StartBridgeKeeps(r, id, server, sent);
      case Lost(server, entries, reason) => CloseMineKeeps(r, server, entries, reason);
      case AckFrame(server, id) => if Owns(r, server, id) { FrameKeeps(r, e); }
      case DataFrame(server, id, text) => if Owns(r, server, id) { FrameKeeps(r, e); }
      case CloseFrame(server, id, reason) => if Owns(r, server, id) { FrameKeeps(r, e); }
      case BridgeGone(id) => BridgeGoneKeeps(r, id);
      case PollBuild(_, _, _) =>
      case EndWatch(_) => EndJobKeeps(r, e);
      case EndBuild(_) => EndJobKeeps(r, e);
    }
  }

  lemma {:induction false} EveryRun(r: Relay, events: seq<Event>)
    requires Inv(r)
    ensures Inv(Run(r, events))
    decreases |events|
  {
    if events != [] {
      StepKeeps(r, events[0]);
      EveryRun(Step(r, events[0]), events[1..]);
    }
  }

  /**
   * In every reachable state a job in either table is unfinished exactly when its
   * tunnel is registered for its server.
   */
  lemma UnfinishedIffRegistered(events: seq<Event>, id: SocketId)
    ensures var r := Run(NOTHING, events);
            && (id in r.watches ==>
                  (!r.watches[id].done <==> id in r.tunnels)
                  && (id in r.tunnels ==> r.tunnels[id] == Tunnel(r.watches[id].server, WatchKind)))
            && (id in r.builds ==>
                  (!r.builds[id].done <==> id in r.tunnels)
                  && (id in r.tunnels ==> r.tunnels[id] == Tunnel(r.builds[id].server, BuildKind)))
            && (id in r.tunnels && r.tunnels[id].kind == WatchKind ==> id in r.watches)
            && (id in r.tunnels && r.tunnels[id].kind == BuildKind ==> id in r.builds)
  {
    EveryRun(NOTHING, events);
  }

  /** In every run a tunnel's onClose fires at most once, and nothing fires after it or an unregistration. */
  lemma NothingAfterTheEnd(events: seq<Event>, i: nat, j: nat, id: SocketId)
    requires var calls := Run(NOTHING, events).calls;
             i < j < |calls| && (calls[i] == CloseCall(id) || calls[i] == Unregistered(id))
    ensures Run(NOTHING, events).calls[j] !in {AckCall(id), DataCall(id), CloseCall(id)}
  {
    EveryRun(NOTHING, events);
    var calls := Run(NOTHING, events).calls;
    assert Ending(calls[i], id);
    assert !Callback(calls[j], id);
  }

  // --------------------------------------------------------------- isolation

  /** Unless it is of `server`, what `id` names is as it was; nothing is new. */
  ghost predicate TouchesAt(r: Relay, r': Relay, server: ServerId, id: SocketId) {
    && (id in r.tunnels && r.tunnels[id].server != server ==> id in r'.tunnels && r'.tunnels[id] == r.tunnels[id])
    && (id in r'.tunnels ==> id in r.tunnels && r'.tunnels[id] == r.tunnels[id])
    && (id in r.watches && r.watches[id].server != server ==> id in r'.watches && r'.watches[id] == r.watches[id])
    && (id in r.builds && r.builds[id].server != server ==> id in r'.builds && r'.builds[id] == r.builds[id])
  }

  /** Every call made since is on a tunnel of `server`. */
  ghost predicate CallsOnly(r: Relay, calls: seq<Call>, server: ServerId) {
    r.calls <= calls && forall k :: |r.calls| <= k < |calls| ==> Owns(r, server, calls[k].id)
  }

  /** Nothing that belongs to another server changed, and only tunnels of `server` were called. */
  ghost predicate OnlyTouches(r: Relay, r': Relay, server: ServerId) {
    (forall id :: TouchesAt(r, r', server, id)) && CallsOnly(r, r'.calls, server)
  }

  lemma CallsOne(r: Relay, calls: seq<Call>, c: Call, server: ServerId)
    requires CallsOnly(r, calls, server) && Owns(r, server, c.id)
    ensures CallsOnly(r, calls + [c], server)
  {
  }

  lemma CallsTwice(r: Relay, r': Relay, calls: seq<Call>, server: ServerId)
    requires OnlyTouches(r, r', server) && CallsOnly(r', calls, server)
    ensures CallsOnly(r, calls, server)
  {
    forall k | |r.calls| <= k < |calls|
      ensures Owns(r, server, calls[k].id)
    {
      if k < |r'.calls| {
        assert calls[k] == r'.calls[k];
      } else {
        assert Owns(r', server, calls[k].id) && TouchesAt(r, r', server, calls[k].id);
      }
    }
  }

  lemma TouchesTwice(r: Relay, r': Relay, r'': Relay, server: ServerId)
    requires OnlyTouches(r, r', server) && OnlyTouches(r', r'', server)
    requires forall id :: id in r'.watches && id in r.watches ==> r'.watches[id].server == r.watches[id].server
    requires forall id :: id in r'.builds && id in r.builds ==> r'.builds[id].server == r.builds[id].server
    ensures OnlyTouches(r, r'', server)
  {
    CallsTwice(r, r', r''.calls, server);
    forall id
      ensures TouchesAt(r, r'', server, id)
    {
      assert TouchesAt(r, r', server, id) && TouchesAt(r', r'', server, id);
    }
  }

  lemma BuildTextStaysHome(r: Relay, id: SocketId, text: Text)
    requires Inv(r) && id in r.builds
    ensures OnlyTouches(r, BuildText(r, id, text), r.builds[id].server)
  {
    var server := r.builds[id].server;
    if !r.builds[id].done {
      CallsOne(r, r.calls, Unregistered(id), server);
    }
    assert forall other :: TouchesAt(r, BuildText(r, id, text), server, other);
  }

  lemma WatchTextStaysHome(r: Relay, id: SocketId, text: Text)
    requires Inv(r) && id in r.watches
    ensures OnlyTouches(r, WatchText(r, id, text), r.watches[id].server)
  {
  }

  lemma DataCallStaysHome(r: Relay, id: SocketId, r': Relay)
    requires Inv(r) && id in r.tunnels && r' == r.(calls := r.calls + [DataCall(id)])
    ensures OnlyTouches(r, r', r.tunnels[id].server) && Inv(r')
  {
    CallFits(r, r', DataCall(id));
    CallsOne(r, r.calls, DataCall(id), r.tunnels[id].server);
  }

  lemma DataOnStaysHome(r: Relay, id: SocketId, text: Text)
    requires Inv(r) && id in r.tunnels
    ensures OnlyTouches(r, DataOn(r, id, text), r.tunnels[id].server)
  {
    var r', server := r.(calls := r.calls + [DataCall(id)]), r.tunnels[id].server;
    DataCallStaysHome(r, id, r');
    match r.tunnels[id].kind {
      case WatchKind => WatchTextStaysHome(r', id, text); TouchesTwice(r, r', WatchText(r', id, text), server);
      case BuildKind => BuildTextStaysHome(r', id, text); TouchesTwice(r, r', BuildText(r', id, text), server);
      case BridgeKind =>
    }
  }

  lemma CloseOnStaysHome(r: Relay, id: SocketId, reason: string)
    requires Inv(r) && id in r.tunnels
    ensures OnlyTouches(r, CloseOn(r, id, reason), r.tunnels[id].server)
  {
    var server := r.tunnels[id].server;
    CallsOne(r, r.calls, CloseCall(id), server);
    CallsOne(r, r.calls + [CloseCall(id)], Unregistered(id), server);
    assert forall other :: TouchesAt(r, CloseOn(r, id, reason), server, other);
  }

  lemma FrameStaysHome(r: Relay, e: Event)
    requires Inv(r) && (e.AckFrame? || e.DataFrame? || e.CloseFrame?) && Owns(r, e.server, e.id)
    ensures OnlyTouches(r, Step(r, e), e.server)
  {
    match e {
      case AckFrame(_, id) => CallsOne(r, r.calls, AckCall(id), e.server);
      case DataFrame(_, id, text) => DataOnStaysHome(r, id, text);
      case CloseFrame(_, id, reason) => CloseOnStaysHome(r, id, reason);
    }
  }

  /** A frame reaches only tunnels and jobs of the server whose socket it came in on. */
  lemma FramesStayHome(events: seq<Event>, e: Event)
    requires e.AckFrame? || e.DataFrame? || e.CloseFrame?
    ensures OnlyTouches(Run(NOTHING, events), Step(Run(NOTHING, events), e), e.server)
  {
    EveryRun(NOTHING, events);
    var r := Run(NOTHING, events);
    if Owns(r, e.server, e.id) {
      FrameStaysHome(r, e);
    } else {
      NothingTouched(r, e.server);
    }
  }

  lemma OwnerOf(r: Relay, server: ServerId, id: SocketId)
    requires Owns(r, server, id)
    ensures id in r.tunnels && r.tunnels[id].server == server
  {
  }

  lemma JobServersStay(r: Relay, id: SocketId, reason: string)
    requires Inv(r) && id in r.tunnels
    ensures var r' := CloseOn(r, id, reason);
            && (forall id :: id in r'.watches && id in r.watches ==> r'.watches[id].server == r.watches[id].server)
            && (forall id :: id in r'.builds && id in r.builds ==> r'.builds[id].server == r.builds[id].server)
  {
  }

  lemma CloseMineUnfold(r: Relay, server: ServerId, entries: seq<SocketId>, reason: string)
    ensures CloseMine(r, server, entries, reason)
         == if entries == [] then r
            else if Owns(r, server, entries[0]) then
              CloseMine(CloseOn(r, entries[0], reason), server, entries[1..], reason)
            else CloseMine(r, server, entries[1..], reason)
  {
  }

  lemma OnlyFewerOwned(r: Relay, r': Relay, server: ServerId, id: SocketId)
    requires OnlyTouches(r, r', server) && !Owns(r, server, id)
    ensures !Owns(r', server, id)
  {
    assert TouchesAt(r, r', server, id);
  }

  lemma NothingTouched(r: Relay, server: ServerId)
    ensures OnlyTouches(r, r, server)
  {
  }

  lemma ClosedIsGone(r: Relay, server: ServerId, id: SocketId, reason: string)
    requires Inv(r) && id in r.tunnels
    ensures !Owns(CloseOn(r, id, reason), server, id)
  {
  }

  lemma {:induction false} CloseMineStaysHome(r: Relay, server: ServerId, entries: seq<SocketId>, reason: string)
    requires Inv(r)
    ensures OnlyTouches(r, CloseMine(r, server, entries, reason), server)
    ensures forall id :: id in entries ==> !Owns(CloseMine(r, server, entries, reason), server, id)
    decreases |entries|
  {
    hide *;
    CloseMineUnfold(r, server, entries, reason);
    var r' := CloseMine(r, server, entries, reason);
    if entries == [] {
      NothingTouched(r, server);
    } else {
      var id, rest := entries[0], entries[1..];
      assert entries == [id] + rest;
      if Owns(r, server, id) {
        OwnerOf(r, server, id);
        var next := CloseOn(r, id, reason);
        CloseOnKeeps(r, id, reason);
        CloseOnStaysHome(r, id, reason);
        JobServersStay(r, id, reason);
        CloseMineStaysHome(next, server, rest, reason);
        TouchesTwice(r, next, r', server);
        ClosedIsGone(r, server, id, reason);
        OnlyFewerOwned(next, r', server, id);
      } else {
        CloseMineStaysHome(r, server, rest, reason);
        OnlyFewerOwned(r, r', server, id);
      }
    }
  }

  /** Losing a relay closes every tunnel and ends every job of that server, and leaves every other as it was. */
  lemma LostStaysHome(events: seq<Event>, server: ServerId, entries: seq<SocketId>, reason: string)
    requires ListsTunnels(Run(NOTHING, events), entries)
    ensures var r := Run(NOTHING, events);
            var r' := Step(r, Lost(server, entries, reason));
            && OnlyTouches(r, r', server)
            && (forall id :: id in r'.tunnels ==> r'.tunnels[id].server != server)
            && (forall id :: id in r'.watches && r'.watches[id].server == server ==> r'.watches[id].done)
            && (forall id :: id in r'.builds && r'.builds[id].server == server ==> r'.builds[id].done)
  {
    EveryRun(NOTHING, events);
    var r := Run(NOTHING, events);
    CloseMineStaysHome(r, server, entries, reason);
    CloseMineKeeps(r, server, entries, reason);
    var r' := Step(r, Lost(server, entries, reason));
    forall id | id in r'.tunnels
      ensures r'.tunnels[id].server != server
    {
      assert TouchesAt(r, r', server, id) && !Owns(r', server, id);
    }
  }

  // ------------------------------------------------------------- the class

  class RelayManager {
    var tunnels: map<SocketId, Tunnel>
    var watches: map<SocketId, Watch>
    var builds: map<SocketId, Build>
    ghost var used: set<SocketId>
    ghost var calls: seq<Call>

    ghost function State(): Relay
      reads this
    {
      Relay(tunnels, watches, builds, used, calls)
    }

    constructor ()
      ensures State() == NOTHING && Inv(State())
    {
      tunnels, watches, builds, used, calls := map[], map[], map[], {}, [];
    }

    method RegisterTunnel(id: SocketId, server: ServerId, kind: Kind)
      modifies this
      ensures State() == Register(old(State()), id, Tunnel(server, kind))
    {
      tunnels := tunnels[id := Tunnel(server, kind)];
      used := used + {id};
    }

    method UnregisterTunnel(id: SocketId)
      modifies this
      ensures State() == Unregister(old(State()), id)
    {
      tunnels := tunnels - {id};
      calls := calls + [Unregistered(id)];
    }

    /** The ESPHome jobs' `start`; `sent` is what openWs answers. */
    method StartBuildJob(id: SocketId, server: ServerId, sent: bool) returns (ok: bool)
      requires Inv(State()) && id !in used
      modifies this
      ensures State() == Step(old(State()), StartBuild(id, server, sent)) && Inv(State())
      ensures ok == sent
    {
      StepKeeps(State(), StartBuild(id, server, sent));
      builds := builds[id := Build(server, false, [], 0, false, None, None)];
      RegisterTunnel(id, server, BuildKind);
      if !sent {
        UnregisterTunnel(id);
        builds := builds - {id};
      }
      return sent;
    }

    method StartWatchJob(id: SocketId, server: ServerId, sent: bool) returns (ok: bool)
      requires Inv(State()) && id !in used
      modifies this
      ensures State() == Step(old(State()), StartWatch(id, server, sent)) && Inv(State())
      ensures ok == sent
    {
      StepKeeps(State(), StartWatch(id, server, sent));
      watches := watches[id := Watch(server, false, [])];
      RegisterTunnel(id, server, WatchKind);
      if !sent {
        UnregisterTunnel(id);
        watches := watches - {id};
      }
      return sent;
    }

    method Finish(id: SocketId)
      requires id in builds
      modifies this
      ensures State() == FinishBuild(old(State()), id)
    {
      if builds[id].done {
        return;
      }
      builds := builds[id := builds[id].(done := true)];
      UnregisterTunnel(id);
    }

    /** A ws_data for a tunnel, delivered to whatever registered it. */
    method OnData(id: SocketId, text: Text)
      requires id in tunnels
      modifies this
      ensures State() == DataOn(old(State()), id, text)
    {
      calls := calls + [DataCall(id)];
      match tunnels[id].kind {
        case BridgeKind =>
        case WatchKind =>
          if id in watches && text.raw.Some? && text.raw.value != "" && !watches[id].done {
            watches := watches[id := watches[id].(frames := watches[id].frames + [text.raw.value])];
          }
        case BuildKind =>
          if id in builds && !builds[id].done && text.raw.Some? {
            match text.reading {
              case LineRead(line, size) => builds := builds[id := Append(builds[id], line, size)];
              case ExitRead(code) =>
                builds := builds[id := builds[id].(exitCode := code)];
                Finish(id);
              case OtherRead =>
            }
          }
      }
    }

    /** Forget the tunnel, then its onClose. */
    method OnClose(id: SocketId, reason: string)
      requires id in tunnels
      modifies this
      ensures State() == CloseOn(old(State()), id, reason)
    {
      var kind := tunnels[id].kind;
      tunnels := tunnels - {id};
      calls := calls + [CloseCall(id)];
      if kind == WatchKind && id in watches {
        watches := watches[id := watches[id].(done := true)];
        UnregisterTunnel(id);
      } else if kind == BuildKind && id in builds {
        if !builds[id].done && builds[id].exitCode.None? {
          builds := builds[id := builds[id].(failure := Some(reason))];
        }
        Finish(id);
      }
    }

    /** `_routeTunnel`: only if the tunnel belongs to the component the frame came from. */
    method RouteTunnel(server: ServerId, e: Event)
      requires Inv(State())
      requires e.AckFrame? || e.DataFrame? || e.CloseFrame?
      requires e.server == server
      modifies this
      ensures State() == Step(old(State()), e) && Inv(State())
    {
      StepKeeps(State(), e);
      if e.id !in tunnels || tunnels[e.id].server != server {
        return;
      }
      match e {
        case AckFrame(_, id) => calls := calls + [AckCall(id)];
        case DataFrame(_, id, text) => OnData(id, text);
        case CloseFrame(_, id, reason) => OnClose(id, reason);
      }
    }

    /** `_dropTunnelsFor`; `entries` are the tunnel map's keys in its own order. */
    method DropTunnelsFor(server: ServerId, reason: string, entries: seq<SocketId>)
      requires Inv(State()) && ListsTunnels(State(), entries)
      modifies this
      ensures State() == Step(old(State()), Lost(server, entries, reason)) && Inv(State())
    {
      CloseMineKeeps(State(), server, entries, reason);
      assert entries[0..] == entries;
      for i := 0 to |entries|
        invariant CloseMine(State(), server, entries[i..], reason) == CloseMine(old(State()), server, entries, reason)
      {
        var id := entries[i];
        assert entries[i..][0] == id && entries[i..][1..] == entries[i + 1..];
        if id in tunnels && tunnels[id].server == server {
          OnClose(id, reason);
        }
      }
    }

    /**
     * ESPHome `read`: what has arrived after the cursor. A reader that follows the
     * cursors it is given therefore holds the job's lines exactly, and a finished job
     * is dropped only once it has been read to the end.
     */
    method ReadBuild(id: SocketId, server: ServerId, cursor: int) returns (answer: Option<(seq<string>, nat)>)
      modifies this
      ensures State() == Step(old(State()), PollBuild(id, server, cursor))
      ensures answer.None? <==> id !in old(builds) || old(builds)[id].server != server
      ensures answer.Some? ==>
                var lines := old(builds)[id].lines;
                && answer.value.1 == |lines|
                && (0 <= cursor <= |lines| ==> lines[..cursor] + answer.value.0 == lines)
    {
      if id !in builds || builds[id].server != server {
        return None;
      }
      var job := builds[id];
      var from := if cursor > 0 then if cursor <= |job.lines| then cursor else |job.lines| else 0;
      var lines := job.lines[from..];
      if job.done && from + |lines| >= |job.lines| {
        builds := builds - {id};
      }
      return Some((lines, from + |lines|));
    }

    method CancelBuild(id: SocketId, server: ServerId) returns (ok: bool)
      requires Inv(State())
      modifies this
      ensures ok <==> id in old(builds) && old(builds)[id].server == server
      ensures State() == if ok then Step(old(State()), EndBuild(id)) else old(State())
      ensures Inv(State())
    {
      if id !in builds || builds[id].server != server {
        return false;
      }
      StepKeeps(State(), EndBuild(id));
      UnregisterTunnel(id);
      builds := builds - {id};
      return true;
    }
  }
}
