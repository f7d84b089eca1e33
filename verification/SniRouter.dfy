/**
 * Routing raw TLS by name without opening it (webserver/src/e2e/sniRouter.js).
 *
 * Every callback of the source is one atomic event on the router's shared state:
 * the connections, the per-home tunnel counts and the count of connections passed
 * on. `Step` says what each event does, the lemmas say what every run of events
 * keeps, and the class at the end is the source's own updates, proved equal to it.
 */
module SniRouter {
  import opened Options
  import opened Bytes
  import opened ClientHello
  import opened ProxyLine
  import Intake

  type ConnId = nat
  type ServerId = string

  /** Connections passed on to another router at once. */
  const MAX_PASSED_ON := 256
  const ACME_TLS_ALPN := "acme-tls/1"

  /**
   * `tail` is the served suffix with its leading dot. `peerOf` reads a complete PROXY
   * line (ProxyLine.PeerOf(isIP) in the source); the results below hold for any reader.
   */
  datatype Config = Config(
    tail: string, forwardTails: seq<string>, trusted: set<string>, maxTunnels: nat,
    isIP: string -> nat, peerOf: PeerReader)

  // ------------------------------------------------------------ destinations

  predicate Alnum(c: char) { '0' <= c <= '9' || 'a' <= c <= 'z' }

  /** LABEL_RE: one DNS label. */
  predicate Label(s: string) {
    && 1 <= |s| <= 63
    && Alnum(s[0]) && Alnum(s[|s| - 1])
    && forall i :: 0 <= i < |s| ==> Alnum(s[i]) || s[i] == '-'
  }

  /** `host.endsWith(tail)` and what is before it is one label. */
  predicate Under(host: string, tail: string) {
    && |tail| <= |host|
    && host[|host| - |tail|..] == tail
    && Label(host[..|host| - |tail|])
  }

  function FirstForward(tails: seq<string>, host: string): Option<nat> {
    if tails == [] then None
    else if Under(host, tails[0]) then Some(0)
    else
      match FirstForward(tails[1..], host)
      case None => None
      case Some(i) => Some(i + 1)
  }

  datatype Target = Browser | Acme
  datatype Destination = PassOn(index: nat) | Serve(host: string, target: Target) | Nowhere

  function Destine(cfg: Config, hello: Hello): Destination {
    match hello.sni
    case None => Nowhere
    case Some(host) =>
      if host == "" then Nowhere
      else
        match FirstForward(cfg.forwardTails, host)
        case Some(i) => PassOn(i)
        case None =>
          if Under(host, cfg.tail) then Serve(host, if ACME_TLS_ALPN in hello.alpn then Acme else Browser)
          else Nowhere
  }

  lemma {:induction false} FirstForwardIsFirst(tails: seq<string>, host: string)
    ensures FirstForward(tails, host).None? <==> forall i :: 0 <= i < |tails| ==> !Under(host, tails[i])
    ensures FirstForward(tails, host).Some? ==>
              var i := FirstForward(tails, host).value;
              i < |tails| && Under(host, tails[i]) && forall j :: 0 <= j < i ==> !Under(host, tails[j])
  {
    if tails != [] {
      FirstForwardIsFirst(tails[1..], host);
      assert forall i :: 1 <= i < |tails| ==> tails[i] == tails[1..][i - 1];
    }
  }

  lemma UnderIsLabelPlusTail(host: string, tail: string)
    ensures Under(host, tail) <==> exists name :: Label(name) && host == name + tail
  {
    if Under(host, tail) {
      assert host == host[..|host| - |tail|] + tail;
    }
    forall name | Label(name) && host == name + tail
      ensures Under(host, tail)
    {
      assert host[..|name|] == name && host[|name|..] == tail;
    }
  }

  /**
   * A name is served exactly when it is one DNS label under our suffix and under no
   * forwarded suffix; the home's challenge responder gets it when acme-tls/1 is offered.
   */
  lemma ServedExactly(cfg: Config, hello: Hello, host: string, target: Target)
    ensures Destine(cfg, hello) == Serve(host, target)
      <==> && hello.sni == Some(host)
           && (exists name :: Label(name) && host == name + cfg.tail)
           && (forall i :: 0 <= i < |cfg.forwardTails| ==>
                 !exists name :: Label(name) && host == name + cfg.forwardTails[i])
           && (target == Acme <==> ACME_TLS_ALPN in hello.alpn)
  {
    FirstForwardIsFirst(cfg.forwardTails, host);
    UnderIsLabelPlusTail(host, cfg.tail);
    forall i | 0 <= i < |cfg.forwardTails|
      ensures Under(host, cfg.forwardTails[i]) <==>
                exists name :: Label(name) && host == name + cfg.forwardTails[i]
    {
      UnderIsLabelPlusTail(host, cfg.forwardTails[i]);
    }
  }

  // ------------------------------------------------------------------- state

  datatype Sock = Sock(remote: string, local: string, remotePort: nat, localPort: nat)

  /** Where a connection has got to. Frames handed to sendWs are kept in `sent`, in order. */
  datatype Stage =
    | Reading(intake: Intake.State)
    | Resolving(host: string, target: Target, buf: seq<byte>, peer: Option<string>)
    | Bridged(server: ServerId, host: string, target: Target, peer: Option<string>, acked: bool,
              queue: seq<seq<byte>>, sent: seq<seq<byte>>)
    | PassingOn(index: nat, line: Option<string>, buf: seq<byte>, written: seq<byte>)
    | Ended

  /** `received` is everything the visitor sent; `skipped` counts the PROXY line at its front. */
  datatype Conn = Conn(sock: Sock, received: seq<byte>, skipped: nat, destroyed: bool, stage: Stage)

  datatype Router = Router(conns: map<ConnId, Conn>, open: map<ServerId, nat>, passedOn: nat)

  datatype Event =
    | Accept(id: ConnId, sock: Sock)
    | Data(id: ConnId, chunk: seq<byte>)
    | Resolved(id: ConnId, server: Option<ServerId>, connected: bool, accepted: bool)
    | Acked(id: ConnId)
    | UpstreamConnected(id: ConnId)
    | Destroy(id: ConnId)   // hello timeout, an error, the home's ws_close or the upstream's close
    | Closed(id: ConnId)    // the socket's own close event: once, and last

  predicate Trusts(cfg: Config, sock: Sock) { StripMapped(sock.remote) in cfg.trusted }

  function Stop(c: Conn): Conn { c.(destroyed := true, stage := Ended) }

  function Tunnels(open: map<ServerId, nat>, server: ServerId): nat {
    if server in open then open[server] else 0
  }

  function Release(open: map<ServerId, nat>, server: ServerId): map<ServerId, nat> {
    if Tunnels(open, server) > 1 then open[server := open[server] - 1] else open - {server}
  }

  function Put(r: Router, id: ConnId, c: Conn): Router { r.(conns := r.conns[id := c]) }

  /** What the data handler makes of a connection whose hello is still being read; `room`: one more may be passed on. */
  function ReadOn(cfg: Config, before: Conn, chunk: seq<byte>, room: bool): Conn
    requires before.stage.Reading?
  {
    var st := Intake.OnData(before.stage.intake, chunk, cfg.peerOf);
    var all := before.received + chunk;
    match st
    case Dropped => Stop(before.(received := all))
    case Waiting(_, _, _) => Placing(before, all, st, Reading(st))
    case Decided(hello, buf, peer) =>
      match Destine(cfg, hello)
      case Nowhere => Stop(Placing(before, all, st, before.stage))
      case Serve(host, target) => Placing(before, all, st, Resolving(host, target, buf, peer))
      case PassOn(i) =>
        if room then Placing(before, all, st, PassingOn(i, None, buf, []))
        else Stop(Placing(before, all, st, before.stage))
  }

  /** A connection that has read on, with what it has placed in its stream. */
  function Placing(c: Conn, all: seq<byte>, st: Intake.State, stage: Stage): Conn
    requires !st.Dropped?
  {
    c.(received := all, skipped := Sub(|all|, |st.buf|), stage := stage)
  }

  function ReadMore(cfg: Config, r: Router, id: ConnId, chunk: seq<byte>): Router
    requires id in r.conns && r.conns[id].stage.Reading?
  {
    var next := ReadOn(cfg, r.conns[id], chunk, r.passedOn < MAX_PASSED_ON);
    Put(r, id, next).(passedOn := r.passedOn + if next.stage.PassingOn? then 1 else 0)
  }

  /** The visitor's address as told to the home: from the PROXY line if there was one. */
  function PeerTold(sock: Sock, fromLine: Option<string>): Option<string> {
    if fromLine.Some? then fromLine
    else if StripMapped(sock.remote) == "" then None
    else Some(StripMapped(sock.remote))
  }

  function Sub(a: nat, b: nat): nat { if b <= a then a - b else 0 }

  /** A connection whose home is there: bridged, unless the home's tunnels are all taken or the relay refuses. */
  function Settled(cfg: Config, open: map<ServerId, nat>, c: Conn, server: ServerId, accepted: bool): Conn
    requires c.stage.Resolving?
  {
    if Tunnels(open, server) >= cfg.maxTunnels || !accepted then Stop(c)
    else
      c.(stage := Bridged(server, c.stage.host, c.stage.target,
                          PeerTold(c.sock, c.stage.peer), false, [c.stage.buf], []))
  }

  /** What happens once the name has been looked up. */
  function Settle(cfg: Config, r: Router, id: ConnId, server: Option<ServerId>, connected: bool, accepted: bool): Router
    requires id in r.conns && r.conns[id].stage.Resolving?
  {
    var c := r.conns[id];
    if server.None? || !connected || c.destroyed then Put(r, id, Stop(c))
    else
      var next := Settled(cfg, r.open, c, server.value, accepted);
      Put(r, id, next)
        .(open := if next.stage.Bridged? then r.open[server.value := Tunnels(r.open, server.value) + 1] else r.open)
  }

  /** One more chunk for a bridged connection. */
  function Enqueue(c: Conn, chunk: seq<byte>): Conn
    requires c.stage.Bridged?
  {
    c.(received := c.received + chunk,
       stage := if c.stage.acked then c.stage.(sent := c.stage.sent + [chunk])
                else c.stage.(queue := c.stage.queue + [chunk]))
  }

  function Flush(c: Conn): Conn
    requires c.stage.Bridged?
  {
    c.(stage := c.stage.(acked := true, sent := c.stage.sent + c.stage.queue, queue := []))
  }

  /** Events on a bridged or passed-on connection that keep it where it is. */
  function InPlace(cfg: Config, c: Conn, e: Event): Conn {
    match e
    case Data(_, chunk) =>
      if c.destroyed then c
      else
        (match c.stage
         case Bridged(_, _, _, _, _, _, _) => Enqueue(c, chunk)
         case PassingOn(_, line, _, written) =>
           if line.None? then c
           else c.(received := c.received + chunk, stage := c.stage.(written := written + chunk))
         case _ => c)
    case Acked(_) => if c.stage.Bridged? then Flush(c) else c
    case UpstreamConnected(_) =>
      if c.stage.PassingOn? && c.stage.line.None? && !c.destroyed then
        c.(stage := c.stage.(line := Some(SockLine(cfg, c.sock)), written := c.stage.buf))
      else c
    case Destroy(_) => c.(destroyed := true)
    case _ => c
  }

  function Step(cfg: Config, r: Router, e: Event): Router {
    if e.id !in r.conns then
      if !e.Accept? then r
      else Put(r, e.id, Conn(e.sock, [], 0, false, Reading(Intake.Start(Trusts(cfg, e.sock)))))
    else
      var c := r.conns[e.id];
      if e.Data? && !c.destroyed && c.stage.Reading? then ReadMore(cfg, r, e.id, e.chunk)
      else if e.Resolved? && c.stage.Resolving? then Settle(cfg, r, e.id, e.server, e.connected, e.accepted)
      else if e.Closed? then
        Router(
          r.conns - {e.id},
          if c.stage.Bridged? then Release(r.open, c.stage.server) else r.open,
          if c.stage.PassingOn? then Sub(r.passedOn, 1) else r.passedOn)
      else Put(r, e.id, InPlace(cfg, c, e))
  }

  function SockLine(cfg: Config, sock: Sock): string {
    ProxyV1Line(sock.remote, sock.local, sock.remotePort, sock.localPort, cfg.isIP)
  }

  const EMPTY := Router(map[], map[], 0)

  function Run(cfg: Config, r: Router, events: seq<Event>): Router
    decreases |events|
  {
    if events == [] then r else Run(cfg, Step(cfg, r, events[0]), events[1..])
  }

  // --------------------------------------------------------------- invariant

  /** The visitor's own bytes: what was received after any PROXY line. */
  function Stream(c: Conn): seq<byte>
    requires c.skipped <= |c.received|
  {
    c.received[c.skipped..]
  }

  /** What was skipped is exactly the PROXY line of a trusted router. */
  predicate LineSkipped(cfg: Config, c: Conn)
    requires c.skipped <= |c.received|
  {
    if Trusts(cfg, c.sock) && !LineAwaited(c)
    then Framed(c.received, cfg.peerOf).Read? && Framed(c.received, cfg.peerOf).rest == Stream(c)
    else c.skipped == 0
  }

  /** The hello at the front of the stream sends the connection there. */
  predicate Asked(cfg: Config, c: Conn, d: Destination)
    requires c.skipped <= |c.received|
  {
    Parse(Stream(c)).Ok? && Destine(cfg, Parse(Stream(c)).hello) == d
  }

  function LinePeerOf(cfg: Config, c: Conn): Option<string> {
    if !Trusts(cfg, c.sock) then None
    else
      match Framed(c.received, cfg.peerOf)
      case Read(peer, _) => Some(peer)
      case _ => None
  }

  /** Byte transparency, connection by connection. */
  predicate Transparent(cfg: Config, c: Conn) {
    c.stage.Ended? ||
    (&& c.skipped <= |c.received|
     && LineSkipped(cfg, c)
     && match c.stage
        case Reading(st) =>
          && st.Waiting? && st.buf == Stream(c)
          && (if st.expectProxy then Trusts(cfg, c.sock) && st.peer == None else st.peer == LinePeerOf(cfg, c))
        case Resolving(host, target, buf, peer) =>
          && buf == Stream(c) && peer == LinePeerOf(cfg, c)
          && Asked(cfg, c, Serve(host, target))
        case Bridged(_, host, target, peer, acked, queue, sent) =>
          && Flatten(sent + queue) == Stream(c)
          && peer == PeerTold(c.sock, LinePeerOf(cfg, c))
          && (!acked ==> sent == []) && (acked ==> queue == [])
          && Asked(cfg, c, Serve(host, target))
        case PassingOn(i, line, buf, written) =>
          && (if line.None? then buf == Stream(c) && written == []
              else line.value == SockLine(cfg, c.sock) && written == Stream(c))
          && Asked(cfg, c, PassOn(i)))
  }

  function Home(c: Conn): Option<ServerId> { if c.stage.Bridged? then Some(c.stage.server) else None }

  /** The bridges to a home that have not been released. */
  ghost function Held(conns: map<ConnId, Conn>, server: ServerId): set<ConnId> {
    set id | id in conns && Home(conns[id]) == Some(server)
  }

  ghost function Passing(conns: map<ConnId, Conn>): set<ConnId> {
    set id | id in conns && conns[id].stage.PassingOn?
  }

  /** Each home's count is exact, absent at zero and within the cap. */
  ghost predicate OpenExact(conns: map<ConnId, Conn>, open: map<ServerId, nat>, most: nat) {
    forall s :: OpenAt(conns, open, most, s)
  }

  ghost predicate OpenAt(conns: map<ConnId, Conn>, open: map<ServerId, nat>, most: nat, s: ServerId) {
    if s in open then open[s] == |Held(conns, s)| && 0 < open[s] <= most else Held(conns, s) == {}
  }

  ghost predicate PassedOnExact(conns: map<ConnId, Conn>, passedOn: nat) {
    passedOn == |Passing(conns)| <= MAX_PASSED_ON
  }

  ghost predicate CountsExact(cfg: Config, r: Router) {
    OpenExact(r.conns, r.open, cfg.maxTunnels) && PassedOnExact(r.conns, r.passedOn)
  }

  ghost predicate Inv(cfg: Config, r: Router) {
    && (forall id :: id in r.conns ==> Transparent(cfg, r.conns[id]))
    && CountsExact(cfg, r)
  }

  // ---------------------------------------------------- bytes, event by event

  lemma StreamGrows(cfg: Config, c: Conn, chunk: seq<byte>)
    requires c.skipped <= |c.received|
    ensures var c' := c.(received := c.received + chunk);
            && Stream(c') == Stream(c) + chunk
            && (forall d :: Asked(cfg, c, d) ==> Asked(cfg, c', d))
  {
    var c' := c.(received := c.received + chunk);
    assert Stream(c') == Stream(c) + chunk;
    if Parse(Stream(c)).Ok? {
      PrefixStable(Stream(c), chunk);
    }
  }

  /** The line is still in progress. */
  predicate LineAwaited(c: Conn) { c.stage.Reading? && c.stage.intake.Waiting? && c.stage.intake.expectProxy }

  lemma LineStays(cfg: Config, c: Conn, chunk: seq<byte>)
    requires c.skipped <= |c.received| && LineSkipped(cfg, c) && !LineAwaited(c)
    ensures var c' := c.(received := c.received + chunk);
            LineSkipped(cfg, c') && LinePeerOf(cfg, c') == LinePeerOf(cfg, c)
  {
    assert (c.received + chunk)[c.skipped..] == Stream(c) + chunk;
    if Trusts(cfg, c.sock) {
      FramedStable(c.received, chunk, cfg.peerOf);
    }
  }

  /** Where the data handler's buffer stands in everything received. */
  predicate Placed(cfg: Config, c: Conn, all: seq<byte>, st: Intake.State) {
    st.Dropped? ||
    (&& |st.buf| <= |all| && all[|all| - |st.buf|..] == st.buf
     && (if st.Waiting? && st.expectProxy then Trusts(cfg, c.sock) && st.peer == None && |st.buf| == |all|
         else
           && st.peer == LinePeerOf(cfg, c.(received := all))
           && (if Trusts(cfg, c.sock)
               then Framed(all, cfg.peerOf).Read? && Framed(all, cfg.peerOf).rest == st.buf
               else |st.buf| == |all|))
     && (st.Decided? ==> Parse(st.buf) == Ok(st.hello)))
  }

  lemma JudgePlaced(cfg: Config, c: Conn, all: seq<byte>, buf: seq<byte>)
    requires |buf| <= |all| && all[|all| - |buf|..] == buf
    requires if Trusts(cfg, c.sock)
             then Framed(all, cfg.peerOf).Read? && Framed(all, cfg.peerOf).rest == buf
             else |buf| == |all|
    ensures Placed(cfg, c, all, Intake.Judge(buf, LinePeerOf(cfg, c.(received := all))))
  {
  }

  lemma FirstLinePlaced(cfg: Config, c: Conn, chunk: seq<byte>)
    requires c.stage.Reading? && Transparent(cfg, c) && c.stage.intake.expectProxy
    ensures Placed(cfg, c, c.received + chunk, Intake.OnData(c.stage.intake, chunk, cfg.peerOf))
  {
    var all := c.received + chunk;
    assert c.received[0..] == c.received;
    assert c.stage.intake.buf + chunk == all;
    if Framed(all, cfg.peerOf).Read? {
      RestIsSuffix(all, cfg.peerOf);
      JudgePlaced(cfg, c, all, Framed(all, cfg.peerOf).rest);
    }
  }

  lemma MoreLine(cfg: Config, c: Conn, chunk: seq<byte>)
    requires c.stage.Reading? && Transparent(cfg, c) && !c.stage.intake.expectProxy
    ensures var all, buf := c.received + chunk, c.stage.intake.buf + chunk;
            && |buf| <= |all| && all[|all| - |buf|..] == buf
            && LinePeerOf(cfg, c.(received := all)) == c.stage.intake.peer
            && (if Trusts(cfg, c.sock)
                then Framed(all, cfg.peerOf).Read? && Framed(all, cfg.peerOf).rest == buf
                else |buf| == |all|)
  {
    assert (c.received + chunk)[c.skipped..] == c.stage.intake.buf + chunk;
    LineStays(cfg, c, chunk);
  }

  lemma MorePlaced(cfg: Config, c: Conn, chunk: seq<byte>)
    requires c.stage.Reading? && Transparent(cfg, c) && !c.stage.intake.expectProxy
    ensures Placed(cfg, c, c.received + chunk, Intake.OnData(c.stage.intake, chunk, cfg.peerOf))
  {
    MoreLine(cfg, c, chunk);
    JudgePlaced(cfg, c, c.received + chunk, c.stage.intake.buf + chunk);
  }

  lemma RestIsSuffix(s: seq<byte>, peerOf: PeerReader)
    requires Framed(s, peerOf).Read?
    ensures |Framed(s, peerOf).rest| <= |s|
    ensures s[|s| - |Framed(s, peerOf).rest|..] == Framed(s, peerOf).rest
  {
  }

  lemma ReadPlaced(cfg: Config, c: Conn, chunk: seq<byte>)
    requires c.stage.Reading? && Transparent(cfg, c)
    ensures Placed(cfg, c, c.received + chunk, Intake.OnData(c.stage.intake, chunk, cfg.peerOf))
  {
    if c.stage.intake.expectProxy {
      FirstLinePlaced(cfg, c, chunk);
    } else {
      MorePlaced(cfg, c, chunk);
    }
  }

  /** Whatever stage comes next, its stream is the buffer and the line is as it was. */
  lemma PlacedStream(cfg: Config, c: Conn, all: seq<byte>, st: Intake.State, stage: Stage)
    requires Placed(cfg, c, all, st) && !st.Dropped?
    requires if st.Waiting? then stage == Reading(st) else !stage.Reading?
    ensures var c' := Placing(c, all, st, stage);
            && c'.skipped <= |c'.received| && Stream(c') == st.buf && LineSkipped(cfg, c')
            && LinePeerOf(cfg, c') == LinePeerOf(cfg, c.(received := all))
  {
    assert all[Sub(|all|, |st.buf|)..] == st.buf;
  }

  lemma PlacedReading(cfg: Config, c: Conn, all: seq<byte>, st: Intake.State)
    requires Placed(cfg, c, all, st) && st.Waiting?
    ensures Transparent(cfg, Placing(c, all, st, Reading(st)))
  {
    PlacedStream(cfg, c, all, st, Reading(st));
  }

  lemma PlacedResolving(cfg: Config, c: Conn, all: seq<byte>, st: Intake.State, host: string, target: Target)
    requires Placed(cfg, c, all, st) && st.Decided? && Destine(cfg, st.hello) == Serve(host, target)
    ensures Transparent(cfg, Placing(c, all, st, Resolving(host, target, st.buf, st.peer)))
  {
    PlacedStream(cfg, c, all, st, Resolving(host, target, st.buf, st.peer));
  }

  lemma PlacedPassing(cfg: Config, c: Conn, all: seq<byte>, st: Intake.State, index: nat)
    requires Placed(cfg, c, all, st) && st.Decided? && Destine(cfg, st.hello) == PassOn(index)
    ensures Transparent(cfg, Placing(c, all, st, PassingOn(index, None, st.buf, [])))
  {
    PlacedStream(cfg, c, all, st, PassingOn(index, None, st.buf, []));
  }

  lemma ReadOnTransparent(cfg: Config, c: Conn, chunk: seq<byte>, room: bool)
    requires c.stage.Reading? && Transparent(cfg, c)
    ensures Transparent(cfg, ReadOn(cfg, c, chunk, room))
  {
    var st, all := Intake.OnData(c.stage.intake, chunk, cfg.peerOf), c.received + chunk;
    ReadPlaced(cfg, c, chunk);
    if st.Waiting? {
      PlacedReading(cfg, c, all, st);
    } else if st.Decided? {
      match Destine(cfg, st.hello) {
        case Serve(host, target) => PlacedResolving(cfg, c, all, st, host, target);
        case PassOn(index) => PlacedPassing(cfg, c, all, st, index);
        case Nowhere =>
      }
    }
  }

  lemma EnqueueTransparent(cfg: Config, c: Conn, chunk: seq<byte>)
    requires c.stage.Bridged? && Transparent(cfg, c)
    ensures Transparent(cfg, Enqueue(c, chunk))
  {
    StreamGrows(cfg, c, chunk);
    LineStays(cfg, c, chunk);
    FramesGrow(c.stage.sent, c.stage.queue, chunk);
    SameButStage(cfg, c.(received := c.received + chunk), Enqueue(c, chunk));
  }

  /** Neither the line nor what the hello asks for depends on the stage, once the line is read. */
  lemma SameButStage(cfg: Config, a: Conn, b: Conn)
    requires a.(stage := b.stage) == b && a.skipped <= |a.received| && !LineAwaited(a) && !LineAwaited(b)
    ensures Stream(b) == Stream(a) && LineSkipped(cfg, b) == LineSkipped(cfg, a)
    ensures LinePeerOf(cfg, b) == LinePeerOf(cfg, a)
    ensures forall d :: Asked(cfg, b, d) == Asked(cfg, a, d)
  {
  }

  /** A chunk at the end of the frames, sent or queued, is a chunk at the end of the bytes. */
  lemma FramesGrow(sent: seq<seq<byte>>, queue: seq<seq<byte>>, chunk: seq<byte>)
    ensures Flatten(sent + (queue + [chunk])) == Flatten(sent + queue) + chunk
    ensures queue == [] ==> Flatten(sent + [chunk] + queue) == Flatten(sent + queue) + chunk
  {
    FlattenOne(sent + queue, chunk);
    assert sent + (queue + [chunk]) == sent + queue + [chunk];
    if queue == [] {
      assert sent + queue == sent;
      assert sent + [chunk] + queue == sent + [chunk];
    }
  }

  lemma FlushTransparent(cfg: Config, c: Conn)
    requires c.stage.Bridged? && Transparent(cfg, c)
    ensures Transparent(cfg, Flush(c))
  {
    assert c.stage.sent + c.stage.queue + [] == c.stage.sent + c.stage.queue;
  }

  lemma InPlaceTransparent(cfg: Config, c: Conn, e: Event)
    requires Transparent(cfg, c)
    ensures Transparent(cfg, InPlace(cfg, c, e))
  {
    if e.Data? && c.stage.Bridged? {
      EnqueueTransparent(cfg, c, e.chunk);
    } else if e.Data? && c.stage.PassingOn? {
      StreamGrows(cfg, c, e.chunk);
      LineStays(cfg, c, e.chunk);
    } else if e.Acked? && c.stage.Bridged? {
      FlushTransparent(cfg, c);
    }
  }

  lemma SettleTransparent(cfg: Config, r: Router, id: ConnId, server: Option<ServerId>, connected: bool, accepted: bool)
    requires id in r.conns && r.conns[id].stage.Resolving? && Transparent(cfg, r.conns[id])
    ensures Transparent(cfg, Settle(cfg, r, id, server, connected, accepted).conns[id])
  {
    var buf := r.conns[id].stage.buf;
    FlattenOne([], buf);
    assert [] + [buf] == [buf];
  }

  lemma StepTransparentAt(cfg: Config, r: Router, e: Event)
    requires e.id in r.conns ==> Transparent(cfg, r.conns[e.id])
    ensures e.id in Step(cfg, r, e).conns ==> Transparent(cfg, Step(cfg, r, e).conns[e.id])
  {
    if e.id in r.conns {
      var c := r.conns[e.id];
      if e.Data? && !c.destroyed && c.stage.Reading? {
        ReadOnTransparent(cfg, c, e.chunk, r.passedOn < MAX_PASSED_ON);
      } else if e.Resolved? && c.stage.Resolving? {
        SettleTransparent(cfg, r, e.id, e.server, e.connected, e.accepted);
      } else {
        InPlaceTransparent(cfg, c, e);
      }
    }
  }

  /** An event changes its own connection and no other. */
  lemma StepLocal(cfg: Config, r: Router, e: Event, other: ConnId)
    requires other != e.id
    ensures other in Step(cfg, r, e).conns <==> other in r.conns
    ensures other in r.conns ==> Step(cfg, r, e).conns[other] == r.conns[other]
  {
  }

  lemma StepTransparent(cfg: Config, r: Router, e: Event)
    requires forall id :: id in r.conns ==> Transparent(cfg, r.conns[id])
    ensures forall id :: id in Step(cfg, r, e).conns ==> Transparent(cfg, Step(cfg, r, e).conns[id])
  {
    forall id | id in Step(cfg, r, e).conns
      ensures Transparent(cfg, Step(cfg, r, e).conns[id])
    {
      if id == e.id {
        StepTransparentAt(cfg, r, e);
      } else {
        StepLocal(cfg, r, e, id);
      }
    }
  }

  // --------------------------------------------------- counters, event by event

  function HomeOf(conns: map<ConnId, Conn>, id: ConnId): Option<ServerId> {
    if id in conns then Home(conns[id]) else None
  }

  lemma HeldAfterPut(conns: map<ConnId, Conn>, id: ConnId, c: Conn, s: ServerId)
    ensures Held(conns[id := c], s) == if Home(c) == Some(s) then Held(conns, s) + {id} else Held(conns, s) - {id}
    ensures Held(conns - {id}, s) == Held(conns, s) - {id}
    ensures id in Held(conns, s) <==> HomeOf(conns, id) == Some(s)
  {
  }

  lemma OpenSame(conns: map<ConnId, Conn>, open: map<ServerId, nat>, most: nat, id: ConnId, c: Conn)
    requires OpenExact(conns, open, most) && HomeOf(conns, id) == Home(c)
    ensures OpenExact(conns[id := c], open, most)
  {
    var conns' := conns[id := c];
    forall s ensures OpenAt(conns', open, most, s) {
      HeldAfterPut(conns, id, c, s);
      assert OpenAt(conns, open, most, s);
      assert Held(conns[id := c], s) == Held(conns, s);
    }
  }

  /** The count of a home whose bridges and entry stay as they were. */
  lemma OpenAtStays(conns: map<ConnId, Conn>, conns': map<ConnId, Conn>, open: map<ServerId, nat>,
                    open': map<ServerId, nat>, most: nat, t: ServerId)
    requires OpenAt(conns, open, most, t) && Held(conns', t) == Held(conns, t)
    requires t in open' <==> t in open
    requires t in open ==> open'[t] == open[t]
    ensures OpenAt(conns', open', most, t)
  {
  }

  lemma OneMore(held: set<ConnId>, id: ConnId)
    requires id !in held
    ensures |held + {id}| == |held| + 1
  {
  }

  lemma OneFewer(held: set<ConnId>, id: ConnId)
    requires id in held
    ensures |held - {id}| == |held| - 1
    ensures |held| == 1 ==> held - {id} == {}
  {
  }

  lemma OpenGainAt(conns: map<ConnId, Conn>, open: map<ServerId, nat>, most: nat, id: ConnId, c: Conn, s: ServerId)
    requires OpenAt(conns, open, most, s) && HomeOf(conns, id) == None && Home(c) == Some(s)
    requires Tunnels(open, s) < most
    ensures OpenAt(conns[id := c], open[s := Tunnels(open, s) + 1], most, s)
  {
    HeldAfterPut(conns, id, c, s);
    OneMore(Held(conns, s), id);
  }

  lemma OpenLoseAt(conns: map<ConnId, Conn>, open: map<ServerId, nat>, most: nat, id: ConnId, s: ServerId)
    requires OpenAt(conns, open, most, s) && HomeOf(conns, id) == Some(s)
    ensures OpenAt(conns - {id}, Release(open, s), most, s)
  {
    HeldAfterPut(conns, id, conns[id], s);
    OneFewer(Held(conns, s), id);
  }

  lemma OpenGain(conns: map<ConnId, Conn>, open: map<ServerId, nat>, most: nat, id: ConnId, c: Conn, s: ServerId)
    requires OpenExact(conns, open, most) && HomeOf(conns, id) == None && Home(c) == Some(s)
    requires Tunnels(open, s) < most
    ensures OpenExact(conns[id := c], open[s := Tunnels(open, s) + 1], most)
  {
    var conns', open' := conns[id := c], open[s := Tunnels(open, s) + 1];
    forall t ensures OpenAt(conns', open', most, t) {
      assert OpenAt(conns, open, most, t);
      hide *;
      if t == s {
        OpenGainAt(conns, open, most, id, c, s);
      } else {
        HeldAfterPut(conns, id, c, t);
        assert Held(conns', t) == Held(conns, t);
        OpenAtStays(conns, conns', open, open', most, t);
      }
    }
  }

  lemma OpenLose(conns: map<ConnId, Conn>, open: map<ServerId, nat>, most: nat, id: ConnId, s: ServerId)
    requires OpenExact(conns, open, most) && HomeOf(conns, id) == Some(s)
    ensures OpenExact(conns - {id}, Release(open, s), most)
  {
    var conns', open' := conns - {id}, Release(open, s);
    forall t ensures OpenAt(conns', open', most, t) {
      assert OpenAt(conns, open, most, t);
      if t == s {
        OpenLoseAt(conns, open, most, id, s);
      } else {
        HeldAfterPut(conns, id, conns[id], t);
        hide *;
        assert Held(conns', t) == Held(conns, t);
        OpenAtStays(conns, conns', open, open', most, t);
      }
    }
  }

  lemma OpenKeep(conns: map<ConnId, Conn>, open: map<ServerId, nat>, most: nat, id: ConnId)
    requires OpenExact(conns, open, most) && id in conns && HomeOf(conns, id) == None
    ensures OpenExact(conns - {id}, open, most)
  {
    forall t ensures OpenAt(conns - {id}, open, most, t) {
      HeldAfterPut(conns, id, conns[id], t);
      assert OpenAt(conns, open, most, t);
      assert Held(conns - {id}, t) == Held(conns, t);
    }
  }

  /** Counting a tunnel and giving it back leaves the map as it was, absent at zero. */
  lemma GivenBack(open: map<ServerId, nat>, s: ServerId)
    requires s in open ==> open[s] > 0
    ensures Release(open[s := Tunnels(open, s) + 1], s) == open
  {
  }

  lemma PassingAfter(conns: map<ConnId, Conn>, id: ConnId, c: Conn)
    ensures Passing(conns[id := c]) == if c.stage.PassingOn? then Passing(conns) + {id} else Passing(conns) - {id}
    ensures Passing(conns - {id}) == Passing(conns) - {id}
  {
  }

  predicate PassingAt(conns: map<ConnId, Conn>, id: ConnId) { id in conns && conns[id].stage.PassingOn? }

  /** A change that leaves the connection on the same side of every count leaves the counts exact. */
  lemma SameCounts(cfg: Config, r: Router, id: ConnId, c: Conn)
    requires CountsExact(cfg, r)
    requires HomeOf(r.conns, id) == Home(c)
    requires c.stage.PassingOn? <==> PassingAt(r.conns, id)
    ensures CountsExact(cfg, Put(r, id, c))
  {
    OpenSame(r.conns, r.open, cfg.maxTunnels, id, c);
    PassingAfter(r.conns, id, c);
    assert id in Passing(r.conns) <==> PassingAt(r.conns, id);
    assert Passing(r.conns[id := c]) == Passing(r.conns);
  }

  lemma PassCounts(cfg: Config, r: Router, id: ConnId, c: Conn)
    requires CountsExact(cfg, r) && r.passedOn < MAX_PASSED_ON
    requires HomeOf(r.conns, id) == None && !PassingAt(r.conns, id) && c.stage.PassingOn?
    ensures CountsExact(cfg, Put(r, id, c).(passedOn := r.passedOn + 1))
  {
    OpenSame(r.conns, r.open, cfg.maxTunnels, id, c);
    PassingAfter(r.conns, id, c);
    assert id !in Passing(r.conns);
  }

  lemma ReadMoreCounts(cfg: Config, r: Router, id: ConnId, chunk: seq<byte>)
    requires CountsExact(cfg, r)
    requires id in r.conns && r.conns[id].stage.Reading?
    ensures CountsExact(cfg, ReadMore(cfg, r, id, chunk))
  {
    var r' := ReadMore(cfg, r, id, chunk);
    if r'.passedOn == r.passedOn {
      SameCounts(cfg, r, id, r'.conns[id]);
    } else {
      PassCounts(cfg, r, id, r'.conns[id]);
    }
  }

  lemma SettleCounts(cfg: Config, r: Router, id: ConnId, server: Option<ServerId>, connected: bool, accepted: bool)
    requires CountsExact(cfg, r)
    requires id in r.conns && r.conns[id].stage.Resolving?
    ensures CountsExact(cfg, Settle(cfg, r, id, server, connected, accepted))
  {
    var r' := Settle(cfg, r, id, server, connected, accepted);
    var c := r'.conns[id];
    if c.stage.Bridged? {
      OpenGain(r.conns, r.open, cfg.maxTunnels, id, c, server.value);
      PassingAfter(r.conns, id, c);
      assert id !in Passing(r.conns);
      assert Passing(r'.conns) == Passing(r.conns);
    } else {
      SameCounts(cfg, r, id, c);
    }
  }

  lemma ClosedPassing(conns: map<ConnId, Conn>, passedOn: nat, id: ConnId)
    requires PassedOnExact(conns, passedOn) && id in conns
    ensures PassedOnExact(conns - {id}, if conns[id].stage.PassingOn? then Sub(passedOn, 1) else passedOn)
  {
    PassingAfter(conns, id, conns[id]);
    if conns[id].stage.PassingOn? {
      OneFewer(Passing(conns), id);
    } else {
      assert Passing(conns) - {id} == Passing(conns);
    }
  }

  lemma ClosedCounts(cfg: Config, r: Router, id: ConnId)
    requires CountsExact(cfg, r) && id in r.conns
    ensures CountsExact(cfg, Step(cfg, r, Closed(id)))
  {
    var c := r.conns[id];
    ClosedPassing(r.conns, r.passedOn, id);
    if c.stage.Bridged? {
      OpenLose(r.conns, r.open, cfg.maxTunnels, id, c.stage.server);
    } else {
      OpenKeep(r.conns, r.open, cfg.maxTunnels, id);
    }
  }

  lemma StepCounts(cfg: Config, r: Router, e: Event)
    requires CountsExact(cfg, r)
    ensures CountsExact(cfg, Step(cfg, r, e))
  {
    if e.id !in r.conns {
      if e.Accept? {
        SameCounts(cfg, r, e.id, Step(cfg, r, e).conns[e.id]);
      }
    } else if e.Data? && !r.conns[e.id].destroyed && r.conns[e.id].stage.Reading? {
      ReadMoreCounts(cfg, r, e.id, e.chunk);
    } else if e.Resolved? && r.conns[e.id].stage.Resolving? {
      SettleCounts(cfg, r, e.id, e.server, e.connected, e.accepted);
    } else if e.Closed? {
      ClosedCounts(cfg, r, e.id);
    } else {
      SameCounts(cfg, r, e.id, InPlace(cfg, r.conns[e.id], e));
    }
  }

  lemma StepInv(cfg: Config, r: Router, e: Event)
    requires Inv(cfg, r)
    ensures Inv(cfg, Step(cfg, r, e))
  {
    StepTransparent(cfg, r, e);
    StepCounts(cfg, r, e);
  }

  /** What holds in every state the router can reach, in any order of events. */
  lemma {:induction false} EveryRun(cfg: Config, r: Router, events: seq<Event>)
    requires Inv(cfg, r)
    ensures Inv(cfg, Run(cfg, r, events))
    decreases |events|
  {
    if events != [] {
      StepInv(cfg, r, events[0]);
      EveryRun(cfg, Step(cfg, r, events[0]), events[1..]);
    }
  }

  /**
   * In every run from the start: what was handed to sendWs for a bridged connection,
   * followed by what is queued, is exactly what the visitor sent after any PROXY
   * line; nothing is sent before the ack and nothing stays queued after it.
   */
  lemma ByteTransparency(cfg: Config, events: seq<Event>, id: ConnId)
    requires id in Run(cfg, EMPTY, events).conns && Run(cfg, EMPTY, events).conns[id].stage.Bridged?
    ensures var c := Run(cfg, EMPTY, events).conns[id];
            && c.skipped <= |c.received|
            && Flatten(c.stage.sent) + Flatten(c.stage.queue) == c.received[c.skipped..]
            && (!c.stage.acked ==> c.stage.sent == [])
            && (c.stage.acked ==> Flatten(c.stage.sent) == c.received[c.skipped..])
            && (if Trusts(cfg, c.sock)
                then Framed(c.received, cfg.peerOf).Read?
                     && Framed(c.received, cfg.peerOf).rest == c.received[c.skipped..]
                else c.skipped == 0)
            && c.stage.peer == PeerTold(c.sock, LinePeerOf(cfg, c))
            && Parse(c.received[c.skipped..]).Ok?
            && Destine(cfg, Parse(c.received[c.skipped..]).hello) == Serve(c.stage.host, c.stage.target)
  {
    EmptyInv(cfg);
    EveryRun(cfg, EMPTY, events);
    var c := Run(cfg, EMPTY, events).conns[id];
    FlattenAppend(c.stage.sent, c.stage.queue);
  }

  /**
   * In every run: a connection passed on gives the other router, once it is
   * reached, our own PROXY line and then exactly what the visitor sent, and
   * before that nothing; the name it asked for is under the suffix passed on.
   */
  lemma PassedOnTransparency(cfg: Config, events: seq<Event>, id: ConnId)
    requires id in Run(cfg, EMPTY, events).conns && Run(cfg, EMPTY, events).conns[id].stage.PassingOn?
    ensures var c := Run(cfg, EMPTY, events).conns[id];
            && c.skipped <= |c.received|
            && (if c.stage.line.Some?
                then c.stage.line.value == SockLine(cfg, c.sock) && c.stage.written == c.received[c.skipped..]
                else c.stage.buf == c.received[c.skipped..] && c.stage.written == [])
            && Parse(c.received[c.skipped..]).Ok?
            && Destine(cfg, Parse(c.received[c.skipped..]).hello) == PassOn(c.stage.index)
  {
    EmptyInv(cfg);
    EveryRun(cfg, EMPTY, events);
  }

  /** In every run from the start, the counters are exact and within their caps. */
  lemma CountersExact(cfg: Config, events: seq<Event>)
    ensures CountsExact(cfg, Run(cfg, EMPTY, events))
  {
    EmptyInv(cfg);
    EveryRun(cfg, EMPTY, events);
  }

  lemma EmptyInv(cfg: Config)
    ensures Inv(cfg, EMPTY)
  {
    assert Passing(map[]) == {};
    assert forall s :: Held(map[], s) == {};
  }

  lemma OpenIsPositive(cfg: Config, r: Router, server: Option<ServerId>)
    requires Inv(cfg, r)
    ensures server.Some? && server.value in r.open ==> r.open[server.value] > 0
  {
    assert server.Some? ==> OpenAt(r.conns, r.open, cfg.maxTunnels, server.value);
  }

  /** What a chunk does, field by field. */
  lemma DataStep(cfg: Config, r: Router, id: ConnId, chunk: seq<byte>)
    requires id in r.conns && !r.conns[id].destroyed
    ensures var c := r.conns[id];
            Step(cfg, r, Data(id, chunk))
            == match c.stage
               case Reading(_) => ReadMore(cfg, r, id, chunk)
               case Bridged(_, _, _, _, acked, queue, sent) =>
                 var stage := if acked then c.stage.(sent := sent + [chunk]) else c.stage.(queue := queue + [chunk]);
                 Router(r.conns[id := c.(stage := stage, received := c.received + chunk)], r.open, r.passedOn)
               case PassingOn(_, line, _, written) =>
                 if line.None? then r
                 else
                   var stage := c.stage.(written := written + chunk);
                   Router(r.conns[id := c.(received := c.received + chunk, stage := stage)], r.open, r.passedOn)
               case _ => r
  {
    assert r.conns[id := r.conns[id]] == r.conns;
  }

  // ---------------------------------------------------------------- the router

  class Live {
    const cfg: Config
    var conns: map<ConnId, Conn>
    var open: map<ServerId, nat>
    var passedOn: nat

    ghost function State(): Router
      reads this
    {
      Router(conns, open, passedOn)
    }

    constructor (cfg: Config)
      ensures this.cfg == cfg && State() == EMPTY && Inv(cfg, State())
    {
      this.cfg := cfg;
      conns, open, passedOn := map[], map[], 0;
      new;
      EmptyInv(cfg);
    }

    method OnAccept(id: ConnId, sock: Sock)
      requires Inv(cfg, State()) && id !in conns
      modifies this
      ensures State() == Step(cfg, old(State()), Accept(id, sock)) && Inv(cfg, State())
    {
      StepInv(cfg, State(), Accept(id, sock));
      hide Inv;
      var expectProxy := StripMapped(sock.remote) in cfg.trusted;
      conns := conns[id := Conn(sock, [], 0, false, Reading(Intake.Waiting([], expectProxy, None)))];
    }

    /** `passOnTo`. */
    method PassOnTo(id: ConnId, c: Conn, index: nat, buf: seq<byte>)
      modifies this
      ensures open == old(open)
      ensures if old(passedOn) >= MAX_PASSED_ON
              then conns == old(conns)[id := Stop(c)] && passedOn == old(passedOn)
              else conns == old(conns)[id := c.(stage := PassingOn(index, None, buf, []))]
                   && passedOn == old(passedOn) + 1
    {
      if passedOn >= MAX_PASSED_ON {
        conns := conns[id := Stop(c)];
        return;
      }
      passedOn := passedOn + 1;
      conns := conns[id := c.(stage := PassingOn(index, None, buf, []))];
    }

    /** The data handler until the connection is decided. */
    method OnHello(id: ConnId, chunk: seq<byte>)
      requires id in conns && conns[id].stage.Reading?
      modifies this
      ensures State() == ReadMore(cfg, old(State()), id, chunk)
    {
      var c := conns[id];
      var st := Intake.OnData(c.stage.intake, chunk, cfg.peerOf);
      c := c.(received := c.received + chunk);
      if st.Dropped? {
        conns := conns[id := Stop(c)];
        return;
      }
      c := c.(skipped := Sub(|c.received|, |st.buf|));
      if st.Waiting? {
        conns := conns[id := c.(stage := Reading(st))];
        return;
      }
      match Destine(cfg, st.hello) {
        case PassOn(index) => PassOnTo(id, c, index, st.buf);
        case Nowhere => conns := conns[id := Stop(c)];
        case Serve(host, target) => conns := conns[id := c.(stage := Resolving(host, target, st.buf, st.peer))];
      }
    }

    method OnData(id: ConnId, chunk: seq<byte>)
      requires Inv(cfg, State()) && id in conns && !conns[id].destroyed
      modifies this
      ensures State() == Step(cfg, old(State()), Data(id, chunk)) && Inv(cfg, State())
    {
      StepInv(cfg, State(), Data(id, chunk));
      DataStep(cfg, State(), id, chunk);
      hide *;
      var c := conns[id];
      match c.stage {
        case Reading(_) => OnHello(id, chunk);
        case Bridged(_, _, _, _, acked, queue, sent) =>
          if acked {
            c := c.(stage := c.stage.(sent := sent + [chunk]));
          } else {
            c := c.(stage := c.stage.(queue := queue + [chunk]));
          }
          conns := conns[id := c.(received := c.received + chunk)];
        case PassingOn(_, line, _, written) =>
          if line.Some? {
            conns := conns[id := c.(received := c.received + chunk, stage := c.stage.(written := written + chunk))];
          }
        case _ =>
      }
    }

    /** The counting in `bridge`: count the tunnel before opening it, give the count back if that fails. */
    method CountTunnel(server: ServerId, accepted: bool) returns (ok: bool)
      requires server in open ==> open[server] > 0
      modifies this`open
      ensures ok <==> Tunnels(old(open), server) < cfg.maxTunnels && accepted
      ensures open == if ok then old(open)[server := Tunnels(old(open), server) + 1] else old(open)
    {
      var count := Tunnels(open, server);
      if count >= cfg.maxTunnels {
        return false;
      }
      GivenBack(open, server);
      open := open[server := count + 1];
      if !accepted {
        open := Release(open, server);
        return false;
      }
      return true;
    }

    /** `bridge`. */
    method Bridge(id: ConnId, c: Conn, server: ServerId, accepted: bool)
      requires c.stage.Resolving? && (server in open ==> open[server] > 0)
      modifies this
      ensures passedOn == old(passedOn)
      ensures conns == old(conns)[id := Settled(cfg, old(open), c, server, accepted)]
      ensures open == if Settled(cfg, old(open), c, server, accepted).stage.Bridged?
                      then old(open)[server := Tunnels(old(open), server) + 1] else old(open)
    {
      var ok := CountTunnel(server, accepted);
      if !ok {
        conns := conns[id := Stop(c)];
        return;
      }
      conns := conns[id := c.(stage := Bridged(server, c.stage.host, c.stage.target,
                                               PeerTold(c.sock, c.stage.peer), false, [c.stage.buf], []))];
    }

    /** The part of the hello handling after its lookup. */
    method AfterLookup(id: ConnId, server: Option<ServerId>, connected: bool, accepted: bool)
      requires id in conns && conns[id].stage.Resolving?
      requires server.Some? && server.value in open ==> open[server.value] > 0
      modifies this
      ensures State() == Settle(cfg, old(State()), id, server, connected, accepted)
    {
      var c := conns[id];
      if server.None? || !connected || c.destroyed {
        conns := conns[id := Stop(c)];
        return;
      }
      Bridge(id, c, server.value, accepted);
    }

    method OnResolved(id: ConnId, server: Option<ServerId>, connected: bool, accepted: bool)
      requires Inv(cfg, State()) && id in conns && conns[id].stage.Resolving?
      modifies this
      ensures State() == Step(cfg, old(State()), Resolved(id, server, connected, accepted)) && Inv(cfg, State())
    {
      StepInv(cfg, State(), Resolved(id, server, connected, accepted));
      hide Inv;
      OpenIsPositive(cfg, State(), server);
      AfterLookup(id, server, connected, accepted);
    }

    /** Hand every queued frame to sendWs, in order. */
    static method SendAll(queue: seq<seq<byte>>, before: seq<seq<byte>>) returns (sent: seq<seq<byte>>)
      ensures sent == before + queue
    {
      sent := before;
      for i := 0 to |queue|
        invariant sent == before + queue[..i]
      {
        sent := sent + [queue[i]];
      }
    }

    /** `onAck`. */
    method OnAck(id: ConnId)
      requires Inv(cfg, State()) && id in conns && conns[id].stage.Bridged?
      modifies this
      ensures State() == Step(cfg, old(State()), Acked(id)) && Inv(cfg, State())
    {
      StepInv(cfg, State(), Acked(id));
      hide Inv;
      var c := conns[id];
      var sent := SendAll(c.stage.queue, c.stage.sent);
      conns := conns[id := c.(stage := c.stage.(acked := true, sent := sent, queue := []))];
    }

    method OnUpstreamConnected(id: ConnId)
      requires Inv(cfg, State()) && id in conns && conns[id].stage.PassingOn?
      requires conns[id].stage.line.None? && !conns[id].destroyed
      modifies this
      ensures State() == Step(cfg, old(State()), UpstreamConnected(id)) && Inv(cfg, State())
    {
      StepInv(cfg, State(), UpstreamConnected(id));
      hide Inv;
      var c := conns[id];
      conns := conns[id := c.(stage := c.stage.(line := Some(SockLine(cfg, c.sock)), written := c.stage.buf))];
    }

    method OnDestroy(id: ConnId)
      requires Inv(cfg, State()) && id in conns
      modifies this
      ensures State() == Step(cfg, old(State()), Destroy(id)) && Inv(cfg, State())
    {
      StepInv(cfg, State(), Destroy(id));
      hide Inv;
      conns := conns[id := conns[id].(destroyed := true)];
    }

    method OnClosed(id: ConnId)
      requires Inv(cfg, State()) && id in conns
      modifies this
      ensures State() == Step(cfg, old(State()), Closed(id)) && Inv(cfg, State())
    {
      StepInv(cfg, State(), Closed(id));
      var c := conns[id];
      if c.stage.Bridged? {
        open := Release(open, c.stage.server);
      } else if c.stage.PassingOn? {
        assert id in Passing(conns);
        passedOn := passedOn - 1;
      }
      conns := conns - {id};
    }
  }
}
