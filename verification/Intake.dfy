/**
 * Deciding what to do with a raw connection from the bytes received so far
 * (webserver/src/e2e/sniRouter.js:204-243): the data handler re-parses a growing
 * buffer, first for a trusted router's PROXY line and then for the ClientHello.
 */
module Intake {
  import opened Options
  import opened Bytes
  import opened ClientHello
  import opened ProxyLine

  /** An incomplete hello is given up on once the buffer is longer than this. */
  const HELLO_LIMIT := MAX_HELLO_BYTES + 1024

  datatype State =
    | Waiting(buf: seq<byte>, expectProxy: bool, peer: Option<string>)
    | Dropped
    | Decided(hello: Hello, buf: seq<byte>, peer: Option<string>)

  function Start(trusted: bool): State { Waiting([], trusted, None) }

  function Judge(buf: seq<byte>, peer: Option<string>): State {
    match Parse(buf)
    case Incomplete => if |buf| <= HELLO_LIMIT then Waiting(buf, false, peer) else Dropped
    case Invalid(_) => Dropped
    case Ok(hello) => Decided(hello, buf, peer)
  }

  /** One run of the data handler; it is removed once the connection is decided. */
  function OnData(st: State, chunk: seq<byte>, peerOf: PeerReader): State {
    match st
    case Waiting(before, expectProxy, peer) =>
      var buf := before + chunk;
      if !expectProxy then Judge(buf, peer)
      else
        (match Framed(buf, peerOf)
         case Short => Waiting(buf, true, peer)
         case Bad => Dropped
         case Read(p, rest) => if rest == [] then Waiting([], false, Some(p)) else Judge(rest, Some(p)))
    case _ => st
  }

  function Feed(st: State, chunks: seq<seq<byte>>, peerOf: PeerReader): State
    decreases |chunks|
  {
    if chunks == [] then st else Feed(OnData(st, chunks[0], peerOf), chunks[1..], peerOf)
  }

  /** What is decided about the connection, apart from how many bytes are buffered with it. */
  datatype Verdict = Undecided | Refused | Route(hello: Hello, peer: Option<string>)

  function VerdictOf(st: State): Verdict {
    match st
    case Waiting(_, _, _) => Undecided
    case Dropped => Refused
    case Decided(hello, _, peer) => Route(hello, peer)
  }

  // ------------------------------------------------------ from the hello on

  /** The judgement of a whole stream, when the chunks cannot change it. */
  function StreamVerdict(s: seq<byte>, peer: Option<string>): Verdict {
    match Parse(Take(s, HELLO_LIMIT + 1))
    case Incomplete => if |s| <= HELLO_LIMIT then Undecided else Refused
    case Invalid(_) => Refused
    case Ok(hello) => Route(hello, peer)
  }

  /** A hello that only completes after the buffer may already have been given up on. */
  predicate LateHello(s: seq<byte>) {
    |s| > HELLO_LIMIT && Parse(Take(s, HELLO_LIMIT + 1)) == Incomplete && Parse(s).Ok?
  }

  lemma SettledPrefix(p: seq<byte>, s: seq<byte>)
    requires p <= s && Parse(p) != Incomplete
    ensures Parse(s) == Parse(p)
  {
    assert s == p + s[|p|..];
    PrefixStable(p, s[|p|..]);
  }

  lemma {:induction false} FeedDone(st: State, chunks: seq<seq<byte>>, peerOf: PeerReader)
    requires !st.Waiting?
    ensures Feed(st, chunks, peerOf) == st
    decreases |chunks|
  {
    if chunks != [] {
      FeedDone(st, chunks[1..], peerOf);
    }
  }

  lemma JudgeSettles(buf: seq<byte>, s: seq<byte>, peer: Option<string>)
    requires buf <= s && !LateHello(s) && !Judge(buf, peer).Waiting?
    ensures VerdictOf(Judge(buf, peer)) == StreamVerdict(s, peer)
  {
    var head := Take(s, HELLO_LIMIT + 1);
    if Parse(buf) != Incomplete {
      SettledPrefix(buf, s);
    }
    if Parse(head) != Incomplete {
      SettledPrefix(head, s);
    }
    if Parse(buf) == Incomplete {
      assert head == Take(buf, HELLO_LIMIT + 1);
      if Parse(head) != Incomplete {
        SettledPrefix(head, buf);
      }
    } else if |buf| <= |head| {
      SettledPrefix(buf, head);
    }
  }

  /** From any undecided buffer, the chunks that are still to come do not matter. */
  lemma {:induction false} FeedFrom(buf: seq<byte>, chunks: seq<seq<byte>>, peer: Option<string>, peerOf: PeerReader)
    requires Judge(buf, peer) == Waiting(buf, false, peer)
    requires !LateHello(buf + Flatten(chunks))
    ensures VerdictOf(Feed(Waiting(buf, false, peer), chunks, peerOf)) == StreamVerdict(buf + Flatten(chunks), peer)
    ensures Feed(Waiting(buf, false, peer), chunks, peerOf).Waiting? ==>
              Feed(Waiting(buf, false, peer), chunks, peerOf) == Waiting(buf + Flatten(chunks), false, peer)
    decreases |chunks|
  {
    var s := buf + Flatten(chunks);
    if chunks == [] {
      assert s == buf;
    } else {
      var next := buf + chunks[0];
      assert s == next + Flatten(chunks[1..]);
      if Judge(next, peer).Waiting? {
        FeedFrom(next, chunks[1..], peer, peerOf);
      } else {
        FeedDone(Judge(next, peer), chunks[1..], peerOf);
        JudgeSettles(next, s, peer);
      }
    }
  }

  /** However a stream is cut into chunks, the verdict is the same, unless its hello is late. */
  lemma ChunksDoNotMatter(chunks: seq<seq<byte>>, peer: Option<string>, peerOf: PeerReader)
    requires !LateHello(Flatten(chunks))
    ensures VerdictOf(Feed(Waiting([], false, peer), chunks, peerOf)) == StreamVerdict(Flatten(chunks), peer)
  {
    assert [] + Flatten(chunks) == Flatten(chunks);
    FeedFrom([], chunks, peer, peerOf);
  }

  lemma FeedTwo(a: seq<byte>, b: seq<byte>, st: State, peerOf: PeerReader)
    ensures Flatten([a, b]) == a + b
    ensures Feed(st, [a, b], peerOf) == OnData(OnData(st, a, peerOf), b, peerOf)
  {
    assert [a, b][1..] == [b] && [b][1..] == [];
    assert Flatten([b]) == b;
    var st' := OnData(st, a, peerOf);
    assert Feed(st', [b], peerOf) == Feed(OnData(st', b, peerOf), [], peerOf);
  }

  /** A late hello is routed when it comes at once and dropped when it stops just past the limit. */
  lemma LateHelloDepends(s: seq<byte>, peer: Option<string>, peerOf: PeerReader)
    requires LateHello(s)
    ensures var cut := [s[..HELLO_LIMIT + 1], s[HELLO_LIMIT + 1..]];
            && Flatten([s]) == s && Flatten(cut) == s
            && VerdictOf(Feed(Waiting([], false, peer), [s], peerOf)).Route?
            && VerdictOf(Feed(Waiting([], false, peer), cut, peerOf)) == Refused
  {
    assert [s][1..] == [];
    assert [] + s == s;
    var a, b := s[..HELLO_LIMIT + 1], s[HELLO_LIMIT + 1..];
    FeedTwo(a, b, Waiting([], false, peer), peerOf);
    assert [] + a == a && a == Take(s, HELLO_LIMIT + 1);
  }

  /** Every two ways of cutting `s` lead to the same verdict. */
  ghost predicate ChunkingFree(s: seq<byte>, st: State, peerOf: PeerReader) {
    forall a: seq<seq<byte>>, b: seq<seq<byte>> | Flatten(a) == s && Flatten(b) == s ::
      VerdictOf(Feed(st, a, peerOf)) == VerdictOf(Feed(st, b, peerOf))
  }

  /**
   * The routing decision is independent of the chunking for exactly the streams
   * without a late hello: one that is complete, but not within the first
   * HELLO_LIMIT + 1 bytes.
   */
  lemma ChunkingFreeIff(s: seq<byte>, peer: Option<string>, peerOf: PeerReader)
    ensures ChunkingFree(s, Waiting([], false, peer), peerOf) <==> !LateHello(s)
  {
    var st := Waiting([], false, peer);
    if LateHello(s) {
      LateHelloDepends(s, peer, peerOf);
    } else {
      forall a: seq<seq<byte>> | Flatten(a) == s
        ensures VerdictOf(Feed(st, a, peerOf)) == StreamVerdict(s, peer)
      {
        ChunksDoNotMatter(a, peer, peerOf);
      }
    }
  }

  // A hello that is late: small, but in one-byte records of six wire bytes each.

  function Zeros(n: nat): seq<byte> { seq(n, _ => 0) }

  const SLOW_MESSAGE := Message(Zeros(34), [], [], [], Some([OtherExt(1, Zeros(12000))]))

  function OneByteRecords(s: seq<byte>): (rs: seq<Record>)
    ensures |rs| == |s| && forall i :: 0 <= i < |rs| ==> rs[i] == Record(3, 1, [s[i]])
  {
    seq(|s|, i requires 0 <= i < |s| => Record(3, 1, [s[i]]))
  }

  lemma {:induction false} OneByteRecordsJoin(s: seq<byte>)
    ensures Joined(OneByteRecords(s)) == s
    ensures |Wire(OneByteRecords(s))| == 6 * |s|
  {
    if s != [] {
      OneByteRecordsJoin(s[1..]);
      assert OneByteRecords(s)[1..] == OneByteRecords(s[1..]);
    }
  }

  lemma SlowMessageSize()
    ensures ValidMessage(SLOW_MESSAGE)
    ensures 12000 < |PutMessage(SLOW_MESSAGE)| < 12100
  {
    var e := OtherExt(1, Zeros(12000));
    assert [e][1..] == [];
    assert |PutOffers([e])| == 12004;
  }

  /** Such a stream exists: a well-formed hello of about 12 000 bytes whose records make it late. */
  lemma SlowHelloIsLate() returns (s: seq<byte>)
    ensures LateHello(s)
  {
    SlowMessageSize();
    var msg := PutMessage(SLOW_MESSAGE);
    var rs := OneByteRecords(msg);
    OneByteRecordsJoin(msg);
    s := Wire(rs);
    MessageHead(SLOW_MESSAGE);
    RoundTrip(SLOW_MESSAGE, rs, []);
    assert Wire(rs) + [] == s;
    assert rs[..|rs| - 1] == OneByteRecords(msg[..|msg| - 1]);
    OneByteRecordsJoin(msg[..|msg| - 1]);
    NotWholeWithoutLast(msg);
    ShorterIsIncomplete(rs, HELLO_LIMIT + 1);
  }

  lemma NotWholeWithoutLast(msg: seq<byte>)
    requires GoodHead(msg) && Need(msg) == |msg|
    ensures !Whole(msg[..|msg| - 1])
  {
    if |msg| > 4 {
      assert Need(msg[..|msg| - 1]) == Need(msg);
    }
  }

  // ------------------------------------------------------ behind a PROXY line

  /** A well-formed line longer than the protocol allows. */
  predicate LongLine(s: seq<byte>, peerOf: PeerReader) {
    Framed(s, peerOf).Read? && |s| - |Framed(s, peerOf).rest| > PROXY_V1_MAX
  }

  function ProxiedVerdict(s: seq<byte>, peerOf: PeerReader): Verdict {
    match Framed(s, peerOf)
    case Short => Undecided
    case Bad => Refused
    case Read(peer, rest) => StreamVerdict(rest, Some(peer))
  }

  /** What a prefix of the stream reads as: its line if it is there, and bad for a longer line than allowed. */
  lemma LinePrefix(p: seq<byte>, s: seq<byte>, peerOf: PeerReader)
    requires p <= s
    ensures Framed(p, peerOf).Read? ==>
              Framed(s, peerOf) == Read(Framed(p, peerOf).peer, Framed(p, peerOf).rest + s[|p|..])
    ensures Framed(p, peerOf).Bad? ==> Framed(s, peerOf).Bad? || LongLine(s, peerOf)
  {
    FramedPrefix(p, s, peerOf);
  }

  lemma FramedPrefix(p: seq<byte>, s: seq<byte>, peerOf: PeerReader)
    requires p <= s
    ensures Framed(p, peerOf).Read? ==>
              Framed(s, peerOf) == Read(Framed(p, peerOf).peer, Framed(p, peerOf).rest + s[|p|..])
    ensures Framed(p, peerOf).Bad? ==>
              Framed(s, peerOf).Bad?
              || (Framed(s, peerOf).Read? && |s| - |Framed(s, peerOf).rest| > PROXY_V1_MAX)
  {
    CrlfOfPrefix(s, p);
    if IndexOfCrlf(p).Some? {
      assert s == p + s[|p|..];
      CrlfStays(p, s[|p|..]);
    }
  }

  /** The streams behind a PROXY line whose verdict the chunks cannot change. */
  predicate ProxiedFree(s: seq<byte>, peerOf: PeerReader) {
    match Framed(s, peerOf)
    case Read(peer, rest) => !LateHello(rest) && (LongLine(s, peerOf) ==> StreamVerdict(rest, Some(peer)) == Refused)
    case _ => true
  }

  lemma {:induction false} FeedLine(buf: seq<byte>, chunks: seq<seq<byte>>, peerOf: PeerReader)
    requires Framed(buf, peerOf) == Short
    requires ProxiedFree(buf + Flatten(chunks), peerOf)
    ensures VerdictOf(Feed(Waiting(buf, true, None), chunks, peerOf)) == ProxiedVerdict(buf + Flatten(chunks), peerOf)
    decreases |chunks|
  {
    var s := buf + Flatten(chunks);
    if chunks == [] {
      assert s == buf;
    } else {
      var next := buf + chunks[0];
      assert s == next + Flatten(chunks[1..]);
      assert s[|next|..] == Flatten(chunks[1..]);
      LinePrefix(next, s, peerOf);
      match Framed(next, peerOf)
      case Short =>
        FeedLine(next, chunks[1..], peerOf);
      case Bad =>
        FeedDone(Dropped, chunks[1..], peerOf);
      case Read(peer, rest) =>
        if Judge(rest, Some(peer)).Waiting? {
          FeedFrom(rest, chunks[1..], Some(peer), peerOf);
        } else {
          FeedDone(Judge(rest, Some(peer)), chunks[1..], peerOf);
          JudgeSettles(rest, rest + Flatten(chunks[1..]), Some(peer));
        }
    }
  }

  /** From a trusted router, too, the verdict follows from the stream alone. */
  lemma ProxiedChunksDoNotMatter(chunks: seq<seq<byte>>, peerOf: PeerReader)
    requires ProxiedFree(Flatten(chunks), peerOf)
    ensures VerdictOf(Feed(Start(true), chunks, peerOf)) == ProxiedVerdict(Flatten(chunks), peerOf)
  {
    assert [] + Flatten(chunks) == Flatten(chunks);
    FeedLine([], chunks, peerOf);
  }

  lemma WholeAtOnce(s: seq<byte>, peerOf: PeerReader)
    requires Framed(s, peerOf).Read?
    ensures Flatten([s]) == s
    ensures VerdictOf(Feed(Start(true), [s], peerOf))
         == VerdictOf(Judge(Framed(s, peerOf).rest, Some(Framed(s, peerOf).peer)))
  {
    assert [s][1..] == [];
    assert [] + s == s;
  }

  /** A line past the limit is refused when a chunk ends inside it at the limit. */
  lemma LongLineRefused(s: seq<byte>, peerOf: PeerReader) returns (cut: seq<seq<byte>>)
    requires LongLine(s, peerOf)
    ensures Flatten(cut) == s && VerdictOf(Feed(Start(true), cut, peerOf)) == Refused
  {
    LongLineCut(s, peerOf);
    FirstChunk(s[..PROXY_V1_MAX], peerOf);
    DroppedFirst(s, PROXY_V1_MAX, peerOf);
    cut := [s[..PROXY_V1_MAX], s[PROXY_V1_MAX..]];
  }

  lemma LongLineCut(s: seq<byte>, peerOf: PeerReader)
    requires Framed(s, peerOf).Read? && |s| - |Framed(s, peerOf).rest| > PROXY_V1_MAX
    ensures Framed(s[..PROXY_V1_MAX], peerOf) == Bad
  {
    CrlfOfPrefix(s, s[..PROXY_V1_MAX]);
  }

  /** The first chunk from a trusted router. */
  lemma FirstChunk(a: seq<byte>, peerOf: PeerReader)
    ensures var p := Framed(a, peerOf);
            OnData(Start(true), a, peerOf)
            == if p.Short? then Waiting(a, true, None)
               else if p.Bad? then Dropped
               else Judge(p.rest, Some(p.peer))
  {
    assert [] + a == a;
  }

  lemma DroppedFirst(s: seq<byte>, n: nat, peerOf: PeerReader)
    requires n <= |s| && OnData(Start(true), s[..n], peerOf) == Dropped
    ensures Flatten([s[..n], s[n..]]) == s
    ensures VerdictOf(Feed(Start(true), [s[..n], s[n..]], peerOf)) == Refused
  {
    FeedTwo(s[..n], s[n..], Start(true), peerOf);
  }

  lemma LateFirstChunk(a: seq<byte>, peerOf: PeerReader)
    requires Framed(a, peerOf).Read?
    requires Parse(Framed(a, peerOf).rest) == Incomplete && |Framed(a, peerOf).rest| > HELLO_LIMIT
    ensures OnData(Start(true), a, peerOf) == Dropped
  {
    FirstChunk(a, peerOf);
  }

  lemma LateCutPoint(s: seq<byte>, peerOf: PeerReader) returns (n: nat)
    requires Framed(s, peerOf).Read? && LateHello(Framed(s, peerOf).rest)
    ensures n <= |s| && OnData(Start(true), s[..n], peerOf) == Dropped
  {
    n := LateLineCut(s, peerOf);
    LateFirstChunk(s[..n], peerOf);
  }

  lemma LateHelloCut(s: seq<byte>, peerOf: PeerReader) returns (cut: seq<seq<byte>>)
    requires Framed(s, peerOf).Read? && LateHello(Framed(s, peerOf).rest)
    ensures Flatten(cut) == s && VerdictOf(Feed(Start(true), cut, peerOf)) == Refused
  {
    var n := LateCutPoint(s, peerOf);
    cut := [s[..n], s[n..]];
    DroppedFirst(s, n, peerOf);
  }

  lemma LateLineCut(s: seq<byte>, peerOf: PeerReader) returns (n: nat)
    requires Framed(s, peerOf).Read? && LateHello(Framed(s, peerOf).rest)
    ensures n <= |s| && Framed(s[..n], peerOf).Read?
    ensures Parse(Framed(s[..n], peerOf).rest) == Incomplete && |Framed(s[..n], peerOf).rest| > HELLO_LIMIT
  {
    var rest := Framed(s, peerOf).rest;
    LineFramed(s, peerOf);
    n := |s| - |rest| + HELLO_LIMIT + 1;
    LineCut(s, n, peerOf);
    assert rest[..HELLO_LIMIT + 1] == Take(rest, HELLO_LIMIT + 1);
  }

  lemma LineFramed(s: seq<byte>, peerOf: PeerReader)
    requires Framed(s, peerOf).Read?
    ensures |Framed(s, peerOf).rest| <= |s|
  {
  }

  lemma LineCut(s: seq<byte>, cut: nat, peerOf: PeerReader)
    requires Framed(s, peerOf).Read? && |s| - |Framed(s, peerOf).rest| <= cut <= |s|
    ensures var n := |s| - |Framed(s, peerOf).rest|;
            Framed(s[..cut], peerOf) == Read(Framed(s, peerOf).peer, Framed(s, peerOf).rest[..cut - n])
  {
    CrlfOfPrefix(s, s[..cut]);
    var n := IndexOfCrlf(s).value + 2;
    assert s[..cut][..n] == s[..n];
    assert s[..cut][n..] == s[n..][..cut - n];
  }

  /** Otherwise the whole stream at once is not refused, and some way of cutting it is. */
  lemma ProxiedNotFree(s: seq<byte>, peerOf: PeerReader) returns (cut: seq<seq<byte>>)
    requires !ProxiedFree(s, peerOf)
    ensures Flatten([s]) == s && VerdictOf(Feed(Start(true), [s], peerOf)) != Refused
    ensures Flatten(cut) == s && VerdictOf(Feed(Start(true), cut, peerOf)) == Refused
  {
    NotRefusedAtOnce(Framed(s, peerOf).rest, Some(Framed(s, peerOf).peer));
    WholeAtOnce(s, peerOf);
    if LateHello(Framed(s, peerOf).rest) {
      cut := LateHelloCut(s, peerOf);
    } else {
      cut := LongLineRefused(s, peerOf);
    }
  }

  lemma NotRefusedAtOnce(s: seq<byte>, peer: Option<string>)
    requires LateHello(s) || StreamVerdict(s, peer) != Refused
    ensures VerdictOf(Judge(s, peer)) != Refused
  {
    if !LateHello(s) && !Judge(s, peer).Waiting? {
      JudgeSettles(s, s, peer);
    }
  }

  /**
   * Behind a PROXY line the decision is independent of the chunking for exactly the
   * streams whose hello is not late and whose line is within the protocol's limit
   * (or is followed by something that is refused anyway).
   */
  lemma ProxiedChunkingFreeIff(s: seq<byte>, peerOf: PeerReader)
    ensures ChunkingFree(s, Start(true), peerOf) <==> ProxiedFree(s, peerOf)
  {
    if ProxiedFree(s, peerOf) {
      forall a: seq<seq<byte>> | Flatten(a) == s
        ensures VerdictOf(Feed(Start(true), a, peerOf)) == ProxiedVerdict(s, peerOf)
      {
        ProxiedChunksDoNotMatter(a, peerOf);
      }
    } else {
      var cut := ProxiedNotFree(s, peerOf);
    }
  }

  /** Lines past the limit are possible: nothing bounds the second address. */
  lemma LongLineExists(isIP: string -> nat) returns (s: seq<byte>)
    requires isIP("1.2.3.4") != 0
    ensures LongLine(s, PeerOf(isIP))
  {
    var dst := seq(200, _ => '1');
    LineIsRead("1.2.3.4", dst, 1, 1, isIP, []);
    s := ToBytes(ProxyV1Line("1.2.3.4", dst, 1, 1, isIP));
    assert s + [] == s;
    assert "1.2.3.4"[0] == '1' && dst[0] == '1';
  }
}
