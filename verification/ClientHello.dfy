/**
 * Reading the server name and the ALPN offer out of a TLS ClientHello
 * (webserver/src/e2e/clientHello.js; RFC 8446 sections 4.1.2 and 5.1,
 * RFC 6066 section 3, RFC 7301 section 3.1).
 *
 * The methods at the end are the source's cursor loops. They are proved equal to
 * the functions here, which read the message as nested length-prefixed fields,
 * and the lemmas about those functions are the parser's promises.
 */
module ClientHello {
  import opened Options
  import opened Bytes

  const RECORD_HANDSHAKE: byte := 0x16
  const HANDSHAKE_CLIENT_HELLO: byte := 0x01
  const EXT_SERVER_NAME := 0x0000
  const EXT_ALPN := 0x0010
  const NAME_TYPE_HOST: byte := 0x00
  const MAX_HELLO_BYTES := 64 * 1024
  const MAX_RECORD_BYTES := 16384 + 256

  datatype Reason = NotHandshake | BadRecordLength | NotClientHello | TooLarge | Malformed

  datatype Hello = Hello(sni: Option<string>, alpn: seq<string>)

  datatype Outcome = Incomplete | Invalid(reason: Reason) | Ok(hello: Hello)

  // ---------------------------------------------------------------- text

  /** Node's 'ascii' decoding clears the top bit of every byte. */
  function AsciiChar(b: byte): char { (b % 128) as char }

  function Ascii(s: seq<byte>): (r: string)
    ensures |r| == |s|
    ensures forall i :: 0 <= i < |s| ==> r[i] == AsciiChar(s[i])
  {
    seq(|s|, i requires 0 <= i < |s| => AsciiChar(s[i]))
  }

  function LowerChar(c: char): char {
    if 'A' <= c <= 'Z' then (c as int + 32) as char else c
  }

  function Lower(s: string): (r: string)
    ensures |r| == |s|
    ensures forall i :: 0 <= i < |s| ==> r[i] == LowerChar(s[i])
  {
    seq(|s|, i requires 0 <= i < |s| => LowerChar(s[i]))
  }

  // ------------------------------------------------- the message as fields

  datatype Field = Field(data: seq<byte>, rest: seq<byte>)

  /** A field behind a one-byte length, and what follows it. */
  function Vec8(s: seq<byte>): Option<Field> {
    if |s| < 1 || |s| < 1 + U8(s, 0) then None
    else Some(Field(s[1..1 + U8(s, 0)], s[1 + U8(s, 0)..]))
  }

  /** A field behind a two-byte length, and what follows it. */
  function Vec16(s: seq<byte>): Option<Field> {
    if |s| < 2 || |s| < 2 + U16(s, 0) then None
    else Some(Field(s[2..2 + U16(s, 0)], s[2 + U16(s, 0)..]))
  }

  datatype Ext = Ext(kind: nat, data: seq<byte>)
  datatype Name = Name(kind: byte, bytes: seq<byte>)

  /** The extension list; None when an extension claims more bytes than there are. */
  function Exts(s: seq<byte>): Option<seq<Ext>> {
    if |s| < 4 then Some([])
    else if |s| < 4 + U16(s, 2) then None
    else
      match Exts(s[4 + U16(s, 2)..])
      case None => None
      case Some(tail) => Some([Ext(U16(s, 0), s[4..4 + U16(s, 2)])] + tail)
  }

  /** The list inside a server_name or ALPN extension, cut at the end of the extension. */
  function InnerList(data: seq<byte>): seq<byte> {
    if |data| < 2 then [] else Take(data[2..], U16(data, 0))
  }

  /** The entries of a server name list; the last may be cut short. */
  function Names(s: seq<byte>): seq<Name> {
    if |s| < 3 then []
    else
      var n := U16(s, 1);
      [Name(s[0], Take(s[3..], n))] + (if 3 + n <= |s| then Names(s[3 + n..]) else [])
  }

  /** The protocols of an ALPN list; the last may be cut short. */
  function Protocols(s: seq<byte>): seq<seq<byte>> {
    if |s| < 1 then []
    else [Take(s[1..], U8(s, 0))] + (if 1 + U8(s, 0) <= |s| then Protocols(s[1 + U8(s, 0)..]) else [])
  }

  /** What every extension contributes, in order. */
  function Gather<T>(exts: seq<Ext>, each: Ext -> seq<T>): seq<T> {
    if exts == [] then [] else each(exts[0]) + Gather(exts[1..], each)
  }

  function NamesIn(e: Ext): seq<Name> { if e.kind == EXT_SERVER_NAME then Names(InnerList(e.data)) else [] }

  function ProtocolsIn(e: Ext): seq<seq<byte>> {
    if e.kind == EXT_ALPN then Protocols(InnerList(e.data)) else []
  }

  function AllNames(exts: seq<Ext>): seq<Name> { Gather(exts, NamesIn) }

  function AllProtocols(exts: seq<Ext>): seq<seq<byte>> { Gather(exts, ProtocolsIn) }

  function FirstHost(names: seq<Name>): Option<string> {
    if names == [] then None
    else if names[0].kind == NAME_TYPE_HOST then Some(Lower(Ascii(names[0].bytes)))
    else FirstHost(names[1..])
  }

  function AsciiAll(protocols: seq<seq<byte>>): (r: seq<string>)
    ensures |r| == |protocols|
    ensures forall i :: 0 <= i < |r| ==> r[i] == Ascii(protocols[i])
  {
    seq(|protocols|, i requires 0 <= i < |protocols| => Ascii(protocols[i]))
  }

  function HelloOf(exts: seq<Ext>): Hello {
    Hello(FirstHost(AllNames(exts)), AsciiAll(AllProtocols(exts)))
  }

  function HelloFrom(exts: Option<seq<Ext>>): Option<Hello> {
    if exts.None? then None else Some(HelloOf(exts.value))
  }

  /** The three fields every ClientHello has after its version and random. */
  function SkipFixed(body: seq<byte>): Option<seq<byte>> {
    if |body| < 34 then None
    else
      match Vec8(body[34..])
      case None => None
      case Some(session) =>
        match Vec16(session.rest)
        case None => None
        case Some(suites) =>
          match Vec8(suites.rest)
          case None => None
          case Some(methods) => Some(methods.rest)
  }

  /** What a ClientHello body offers; None when it is malformed. */
  function BodyHello(body: seq<byte>): Option<Hello> {
    match SkipFixed(body)
    case None => None
    case Some(rest) =>
      if rest == [] then Some(HelloOf([]))
      else
        match Vec16(rest)
        case None => None
        case Some(list) =>
          HelloFrom(Exts(list.data))
  }

  // ------------------------------------------------------ record reassembly

  /** The length of the whole handshake message, once its head has arrived. */
  function Need(hs: seq<byte>): (n: nat)
    requires |hs| >= 4
    ensures n >= 4
  {
    4 + U24(hs, 1)
  }

  predicate Whole(hs: seq<byte>) { |hs| >= 4 && |hs| >= Need(hs) }

  function HeadFault(hs: seq<byte>): Option<Reason> {
    if |hs| < 4 then None
    else if hs[0] != HANDSHAKE_CLIENT_HELLO then Some(NotClientHello)
    else if Need(hs) > MAX_HELLO_BYTES then Some(TooLarge)
    else None
  }

  /** The answer for a complete handshake message (bytes after it are ignored). */
  function Answer(hs: seq<byte>): Outcome {
    if !Whole(hs) then Incomplete
    else
      match BodyHello(hs[4..Need(hs)])
      case None => Invalid(Malformed)
      case Some(hello) => Ok(hello)
  }

  /** What is wrong with the record at the front, or how it is still short. */
  function RecordFault(s: seq<byte>): Option<Outcome> {
    if |s| < 5 then Some(Incomplete)
    else if s[0] != RECORD_HANDSHAKE then Some(Invalid(NotHandshake))
    else if U16(s, 3) == 0 || U16(s, 3) > MAX_RECORD_BYTES then Some(Invalid(BadRecordLength))
    else if |s| < 5 + U16(s, 3) then Some(Incomplete)
    else None
  }

  /** Join records from `s` onto the fragments already joined in `hs`; then `finish` the message. */
  function Scan(s: seq<byte>, hs: seq<byte>, finish: seq<byte> -> Outcome): Outcome
    decreases |s|
  {
    if Whole(hs) then finish(hs)
    else
      match RecordFault(s)
      case Some(outcome) => outcome
      case None =>
        var joined := hs + s[5..5 + U16(s, 3)];
        match HeadFault(joined)
        case Some(reason) => Invalid(reason)
        case None => Scan(s[5 + U16(s, 3)..], joined, finish)
  }

  function Parse(buf: seq<byte>): Outcome { Scan(buf, [], Answer) }

  // ------------------------------------------------------ prefix stability

  lemma FaultKept(s: seq<byte>, more: seq<byte>)
    requires RecordFault(s) != Some(Incomplete)
    ensures RecordFault(s + more) == RecordFault(s)
    ensures RecordFault(s) == None ==>
              var n := U16(s, 3);
              && U16(s + more, 3) == n
              && (s + more)[5..5 + n] == s[5..5 + n]
              && (s + more)[5 + n..] == s[5 + n..] + more
  {
    assert U16(s + more, 3) == U16(s, 3);
  }

  lemma {:induction false} ScanStable(s: seq<byte>, hs: seq<byte>, more: seq<byte>, finish: seq<byte> -> Outcome)
    requires Scan(s, hs, finish) != Incomplete
    ensures Scan(s + more, hs, finish) == Scan(s, hs, finish)
    decreases |s|
  {
    if !Whole(hs) {
      FaultKept(s, more);
      if RecordFault(s) == None {
        var joined := hs + s[5..5 + U16(s, 3)];
        if HeadFault(joined) == None {
          ScanStable(s[5 + U16(s, 3)..], joined, more, finish);
        }
      }
    }
  }

  /** A final answer does not change when more bytes arrive. */
  lemma PrefixStable(buf: seq<byte>, more: seq<byte>)
    requires Parse(buf) != Incomplete
    ensures Parse(buf + more) == Parse(buf)
  {
    ScanStable(buf, [], more, Answer);
  }

  // ------------------------------------------- fragmentation independence

  /** One handshake record: its two version bytes (never read) and its fragment. */
  datatype Record = Record(major: byte, minor: byte, fragment: seq<byte>)

  predicate ValidRecord(r: Record) { 0 < |r.fragment| <= MAX_RECORD_BYTES }

  function RecordBytes(r: Record): (s: seq<byte>)
    requires ValidRecord(r)
    ensures |s| == 5 + |r.fragment|
  {
    [RECORD_HANDSHAKE, r.major, r.minor] + Put16(|r.fragment|) + r.fragment
  }

  function Wire(rs: seq<Record>): seq<byte>
    requires forall i :: 0 <= i < |rs| ==> ValidRecord(rs[i])
  {
    if rs == [] then [] else RecordBytes(rs[0]) + Wire(rs[1..])
  }

  function Joined(rs: seq<Record>): seq<byte> {
    if rs == [] then [] else rs[0].fragment + Joined(rs[1..])
  }

  lemma FrontRecord(r: Record, tail: seq<byte>)
    requires ValidRecord(r)
    ensures var s := RecordBytes(r) + tail;
            && RecordFault(s) == None
            && U16(s, 3) == |r.fragment|
            && s[5..5 + |r.fragment|] == r.fragment
            && s[5 + |r.fragment|..] == tail
  {
    var s := RecordBytes(r) + tail;
    assert s[3] == Put16(|r.fragment|)[0] && s[4] == Put16(|r.fragment|)[1];
    assert s[5..5 + |r.fragment|] == r.fragment;
    assert s[5 + |r.fragment|..] == tail;
  }

  /** Every proper stage of the reassembly leaves the head acceptable. */
  predicate GoodHead(msg: seq<byte>) { Whole(msg) && HeadFault(msg) == None }

  lemma HeadIsInFirstFour(a: seq<byte>, b: seq<byte>)
    requires GoodHead(a + b)
    ensures HeadFault(a) == None
  {
    if |a| >= 4 {
      assert forall i :: 0 <= i < 4 ==> (a + b)[i] == a[i];
      assert Need(a) == Need(a + b);
    }
  }

  /** An answer that does not read past the end of the message. */
  ghost predicate ReadsOnlyMessage(finish: seq<byte> -> Outcome) {
    forall a: seq<byte>, b: seq<byte> | Whole(a) :: finish(a + b) == finish(a)
  }

  lemma AnswerReadsOnlyMessage()
    ensures ReadsOnlyMessage(Answer)
  {
    forall a: seq<byte>, b: seq<byte> | Whole(a)
      ensures Answer(a + b) == Answer(a)
    {
      AnswerOfMore(a, b);
    }
  }

  lemma AnswerOfMore(a: seq<byte>, b: seq<byte>)
    requires Whole(a)
    ensures Answer(a + b) == Answer(a)
  {
    WholeGrows(a, b);
    assert forall i :: 0 <= i < 4 ==> (a + b)[i] == a[i];
    assert Need(a + b) == Need(a);
    assert (a + b)[4..Need(a)] == a[4..Need(a)];
  }

  lemma {:induction false} ScanJoins(rs: seq<Record>, hs: seq<byte>, tail: seq<byte>, finish: seq<byte> -> Outcome)
    requires ReadsOnlyMessage(finish)
    requires forall i :: 0 <= i < |rs| ==> ValidRecord(rs[i])
    requires GoodHead(hs + Joined(rs))
    ensures Scan(Wire(rs) + tail, hs, finish) == finish(hs + Joined(rs))
    decreases |rs|
  {
    HeadIsInFirstFour(hs, Joined(rs));
    assert hs + [] == hs;
    if !Whole(hs) {
      var r := rs[0];
      var rest := Wire(rs[1..]) + tail;
      assert Wire(rs) + tail == RecordBytes(r) + rest;
      FrontRecord(r, rest);
      var joined := hs + r.fragment;
      assert hs + Joined(rs) == joined + Joined(rs[1..]);
      HeadIsInFirstFour(joined, Joined(rs[1..]));
      ScanJoins(rs[1..], joined, tail, finish);
    }
  }

  /**
   * However a complete ClientHello is cut into non-empty handshake records, and
   * whatever follows it, the answer depends on the joined message alone.
   */
  lemma FragmentationIndependent(rs: seq<Record>, tail: seq<byte>)
    requires forall i :: 0 <= i < |rs| ==> ValidRecord(rs[i])
    requires GoodHead(Joined(rs))
    ensures Parse(Wire(rs) + tail) == Answer(Joined(rs))
  {
    assert [] + Joined(rs) == Joined(rs);
    AnswerReadsOnlyMessage();
    ScanJoins(rs, [], tail, Answer);
  }

  lemma CutRecord(r: Record, k: nat)
    requires ValidRecord(r) && k < |RecordBytes(r)|
    ensures RecordFault(RecordBytes(r)[..k]) == Some(Incomplete)
  {
    var s := RecordBytes(r);
    if k >= 5 {
      assert s[3] == Put16(|r.fragment|)[0] && s[4] == Put16(|r.fragment|)[1];
      assert U16(s[..k], 3) == |r.fragment|;
    }
  }

  lemma JoinedSplit(r: Record, rs: seq<Record>, hs: seq<byte>)
    requires rs != []
    ensures var all := [r] + rs;
            hs + Joined(all[..|all| - 1]) == (hs + r.fragment) + Joined(rs[..|rs| - 1])
  {
    var all := [r] + rs;
    assert all[..|all| - 1] == [r] + rs[..|rs| - 1];
    assert all[..|all| - 1][1..] == rs[..|rs| - 1];
  }

  lemma WholeGrows(a: seq<byte>, b: seq<byte>)
    requires Whole(a)
    ensures Whole(a + b)
  {
    assert forall i :: 0 <= i < 4 ==> (a + b)[i] == a[i];
  }

  lemma WirePrefix(rs: seq<Record>, k: nat)
    requires rs != [] && (forall i :: 0 <= i < |rs| ==> ValidRecord(rs[i])) && k < |Wire(rs)|
    ensures var first := RecordBytes(rs[0]);
            && |Wire(rs)| == |first| + |Wire(rs[1..])| && (rs[1..] == [] ==> Wire(rs[1..]) == [])
            && Wire(rs)[..k] == if k < |first| then first[..k] else first + Wire(rs[1..])[..k - |first|]
  {
  }

  /** A whole record whose head is acceptable is joined on. */
  lemma ScanPastRecord(r: Record, tail: seq<byte>, hs: seq<byte>, finish: seq<byte> -> Outcome)
    requires ValidRecord(r) && !Whole(hs) && HeadFault(hs + r.fragment) == None
    ensures Scan(RecordBytes(r) + tail, hs, finish) == Scan(tail, hs + r.fragment, finish)
  {
    FrontRecord(r, tail);
  }

  lemma ScanFaults(s: seq<byte>, hs: seq<byte>, finish: seq<byte> -> Outcome)
    requires !Whole(hs) && RecordFault(s).Some?
    ensures Scan(s, hs, finish) == RecordFault(s).value
  {
  }

  lemma JoinedFirst(r: Record, rest: seq<Record>, hs: seq<byte>)
    ensures hs + Joined([r] + rest) == (hs + r.fragment) + Joined(rest)
  {
    assert ([r] + rest)[1..] == rest;
  }

  lemma {:induction false} ScanWaits(rs: seq<Record>, hs: seq<byte>, k: nat, finish: seq<byte> -> Outcome)
    requires rs != [] && forall i :: 0 <= i < |rs| ==> ValidRecord(rs[i])
    requires k < |Wire(rs)|
    requires GoodHead(hs + Joined(rs)) && !Whole(hs + Joined(rs[..|rs| - 1]))
    ensures Scan(Wire(rs)[..k], hs, finish) == Incomplete
    decreases |rs|
  {
    hide *;
    var r, rest := rs[0], rs[1..];
    if Whole(hs) {
      WholeGrows(hs, Joined(rs[..|rs| - 1]));
    }
    var n := |RecordBytes(r)|;
    WirePrefix(rs, k);
    if k < n {
      CutRecord(r, k);
      ScanFaults(Wire(rs)[..k], hs, finish);
    } else {
      var tail := Wire(rest)[..k - n];
      assert rs == [r] + rest;
      JoinedFirst(r, rest, hs);
      HeadIsInFirstFour(hs + r.fragment, Joined(rest));
      ScanPastRecord(r, tail, hs, finish);
      JoinedSplit(r, rest, hs);
      ScanWaits(rest, hs + r.fragment, k - n, finish);
    }
  }

  /** Every prefix short of the record that completes the hello is incomplete. */
  lemma ShorterIsIncomplete(rs: seq<Record>, k: nat)
    requires rs != [] && forall i :: 0 <= i < |rs| ==> ValidRecord(rs[i])
    requires GoodHead(Joined(rs)) && !Whole(Joined(rs[..|rs| - 1]))
    requires k < |Wire(rs)|
    ensures Parse(Wire(rs)[..k]) == Incomplete
  {
    assert [] + Joined(rs) == Joined(rs) && [] + Joined(rs[..|rs| - 1]) == Joined(rs[..|rs| - 1]);
    ScanWaits(rs, [], k, Answer);
  }

  lemma RecordSplits(s: seq<byte>)
    requires RecordFault(s) == None
    ensures var r := Record(s[1], s[2], s[5..5 + U16(s, 3)]);
            ValidRecord(r) && s == RecordBytes(r) + s[5 + U16(s, 3)..]
  {
    var n := U16(s, 3);
    var r := Record(s[1], s[2], s[5..5 + n]);
    assert Put16(n)[0] == s[3] && Put16(n)[1] == s[4];
    var front := [RECORD_HANDSHAKE, r.major, r.minor] + Put16(n);
    assert front == s[..5];
    assert s == s[..5] + r.fragment + s[5 + n..];
  }

  /** The converse: a hello is only ever read out of joined records that carry it. */
  lemma {:induction false} ScanExplained(s: seq<byte>, hs: seq<byte>, finish: seq<byte> -> Outcome)
    returns (rs: seq<Record>, tail: seq<byte>)
    requires Scan(s, hs, finish).Ok?
    requires HeadFault(hs) == None
    ensures forall i :: 0 <= i < |rs| ==> ValidRecord(rs[i])
    ensures s == Wire(rs) + tail
    ensures GoodHead(hs + Joined(rs)) && Scan(s, hs, finish) == finish(hs + Joined(rs))
    decreases |s|
  {
    if Whole(hs) {
      rs, tail := [], s;
      assert hs + Joined(rs) == hs;
    } else {
      var more;
      RecordSplits(s);
      var r := Record(s[1], s[2], s[5..5 + U16(s, 3)]);
      more, tail := ScanExplained(s[5 + U16(s, 3)..], hs + r.fragment, finish);
      rs := [r] + more;
      ConsRecord(r, more, hs, tail);
    }
  }

  lemma ConsRecord(r: Record, more: seq<Record>, hs: seq<byte>, tail: seq<byte>)
    requires ValidRecord(r) && forall i :: 0 <= i < |more| ==> ValidRecord(more[i])
    ensures forall i :: 0 <= i < |[r] + more| ==> ValidRecord(([r] + more)[i])
    ensures Wire([r] + more) + tail == RecordBytes(r) + (Wire(more) + tail)
    ensures hs + Joined([r] + more) == (hs + r.fragment) + Joined(more)
  {
    assert ([r] + more)[1..] == more;
  }

  ghost predicate Carries(buf: seq<byte>, rs: seq<Record>, tail: seq<byte>, hello: Hello) {
    && (forall i :: 0 <= i < |rs| ==> ValidRecord(rs[i]))
    && buf == Wire(rs) + tail
    && GoodHead(Joined(rs))
    && Answer(Joined(rs)) == Ok(hello)
  }

  /** Exactly which byte strings are read as which hello. */
  lemma ParsesIffCarried(buf: seq<byte>, hello: Hello)
    ensures Parse(buf) == Ok(hello) <==> exists rs, tail :: Carries(buf, rs, tail, hello)
  {
    if Parse(buf) == Ok(hello) {
      var rs, tail := ScanExplained(buf, [], Answer);
      assert [] + Joined(rs) == Joined(rs);
      assert Carries(buf, rs, tail, hello);
    }
    forall rs, tail | Carries(buf, rs, tail, hello)
      ensures Parse(buf) == Ok(hello)
    {
      FragmentationIndependent(rs, tail);
    }
  }

  // ------------------------------------------------------------ round trip

  datatype Offer =
    | ServerNames(names: seq<Name>)
    | AlpnProtocols(protocols: seq<seq<byte>>)
    | OtherExt(kind: nat, data: seq<byte>)

  /** A ClientHello as its fields; `extensions` is None in the pre-extension form. */
  datatype Message = Message(
    versionAndRandom: seq<byte>, session: seq<byte>, suites: seq<byte>, methods: seq<byte>,
    extensions: Option<seq<Offer>>)

  function PutNames(names: seq<Name>): seq<byte>
    requires forall i :: 0 <= i < |names| ==> |names[i].bytes| < 65536
  {
    if names == [] then []
    else [names[0].kind] + Put16(|names[0].bytes|) + names[0].bytes + PutNames(names[1..])
  }

  function PutProtocols(protocols: seq<seq<byte>>): seq<byte>
    requires forall i :: 0 <= i < |protocols| ==> |protocols[i]| < 256
  {
    if protocols == [] then []
    else [|protocols[0]| as byte] + protocols[0] + PutProtocols(protocols[1..])
  }

  predicate ValidOffer(o: Offer) {
    match o
    case ServerNames(names) =>
      (forall i :: 0 <= i < |names| ==> |names[i].bytes| < 65536) && |PutNames(names)| < 65534
    case AlpnProtocols(protocols) =>
      (forall i :: 0 <= i < |protocols| ==> |protocols[i]| < 256) && |PutProtocols(protocols)| < 65534
    case OtherExt(kind, data) =>
      kind < 65536 && kind != EXT_SERVER_NAME && kind != EXT_ALPN && |data| < 65536
  }

  function OfferExt(o: Offer): (e: Ext)
    requires ValidOffer(o)
    ensures e.kind < 65536 && |e.data| < 65536
  {
    match o
    case ServerNames(names) => Ext(EXT_SERVER_NAME, Put16(|PutNames(names)|) + PutNames(names))
    case AlpnProtocols(protocols) => Ext(EXT_ALPN, Put16(|PutProtocols(protocols)|) + PutProtocols(protocols))
    case OtherExt(kind, data) => Ext(kind, data)
  }

  predicate ValidOffers(os: seq<Offer>) { forall i :: 0 <= i < |os| ==> ValidOffer(os[i]) }

  function PutOffers(os: seq<Offer>): seq<byte>
    requires ValidOffers(os)
  {
    if os == [] then []
    else
      var e := OfferExt(os[0]);
      Put16(e.kind) + Put16(|e.data|) + e.data + PutOffers(os[1..])
  }

  predicate ValidMessage(m: Message) {
    && |m.versionAndRandom| == 34
    && |m.session| < 256 && |m.suites| < 65536 && |m.methods| < 256
    && (m.extensions.Some? ==> ValidOffers(m.extensions.value) && |PutOffers(m.extensions.value)| < 65536)
  }

  function PutBody(m: Message): (s: seq<byte>)
    requires ValidMessage(m)
    ensures |s| < 16777216
  {
    m.versionAndRandom
    + ([|m.session| as byte] + m.session
       + (Put16(|m.suites|) + m.suites
          + ([|m.methods| as byte] + m.methods + PutExtensions(m))))
  }

  function PutExtensions(m: Message): (s: seq<byte>)
    requires ValidMessage(m)
    ensures |s| < 65538
  {
    match m.extensions
    case None => []
    case Some(os) => Put16(|PutOffers(os)|) + PutOffers(os)
  }

  function PutMessage(m: Message): seq<byte>
    requires ValidMessage(m)
  {
    [HANDSHAKE_CLIENT_HELLO] + Put24(|PutBody(m)|) + PutBody(m)
  }

  /** Every name offered, across all server_name extensions, in order. */
  function OfferedNames(os: seq<Offer>): seq<Name> {
    if os == [] then []
    else (if os[0].ServerNames? then os[0].names else []) + OfferedNames(os[1..])
  }

  function OfferedProtocols(os: seq<Offer>): seq<seq<byte>> {
    if os == [] then []
    else (if os[0].AlpnProtocols? then os[0].protocols else []) + OfferedProtocols(os[1..])
  }

  function Offers(m: Message): seq<Offer> {
    match m.extensions
    case None => []
    case Some(os) => os
  }

  lemma Vec8Reads(data: seq<byte>, rest: seq<byte>)
    requires |data| < 256
    ensures Vec8([|data| as byte] + data + rest) == Some(Field(data, rest))
  {
    var s := [|data| as byte] + data + rest;
    assert s[1..1 + |data|] == data;
    assert s[1 + |data|..] == rest;
  }

  lemma Vec16Reads(data: seq<byte>, rest: seq<byte>)
    requires |data| < 65536
    ensures Vec16(Put16(|data|) + data + rest) == Some(Field(data, rest))
  {
    var s := Put16(|data|) + data + rest;
    assert s[0] == Put16(|data|)[0] && s[1] == Put16(|data|)[1];
    assert s[2..2 + |data|] == data;
    assert s[2 + |data|..] == rest;
  }

  lemma {:induction false} NamesRead(names: seq<Name>)
    requires forall i :: 0 <= i < |names| ==> |names[i].bytes| < 65536
    ensures Names(PutNames(names)) == names
  {
    if names != [] {
      var bytes := names[0].bytes;
      var s := PutNames(names);
      assert s[1] == Put16(|bytes|)[0] && s[2] == Put16(|bytes|)[1];
      assert U16(s, 1) == |bytes|;
      assert s[3..][..|bytes|] == bytes;
      assert s[3 + |bytes|..] == PutNames(names[1..]);
      NamesRead(names[1..]);
    }
  }

  lemma {:induction false} ProtocolsRead(protocols: seq<seq<byte>>)
    requires forall i :: 0 <= i < |protocols| ==> |protocols[i]| < 256
    ensures Protocols(PutProtocols(protocols)) == protocols
  {
    if protocols != [] {
      var bytes := protocols[0];
      var s := PutProtocols(protocols);
      assert s[1..][..|bytes|] == bytes;
      assert s[1 + |bytes|..] == PutProtocols(protocols[1..]);
      ProtocolsRead(protocols[1..]);
    }
  }

  lemma InnerListReads(list: seq<byte>)
    requires |list| < 65536
    ensures InnerList(Put16(|list|) + list) == list
  {
    var data := Put16(|list|) + list;
    assert data[0] == Put16(|list|)[0] && data[1] == Put16(|list|)[1];
    assert data[2..] == list;
  }

  /** What one extension contributes once printed. */
  lemma OfferReads(o: Offer)
    requires ValidOffer(o)
    ensures NamesIn(OfferExt(o)) == if o.ServerNames? then o.names else []
    ensures ProtocolsIn(OfferExt(o)) == if o.AlpnProtocols? then o.protocols else []
  {
    match o {
      case ServerNames(names) => NamesRead(names); InnerListReads(PutNames(names));
      case AlpnProtocols(protocols) => ProtocolsRead(protocols); InnerListReads(PutProtocols(protocols));
      case OtherExt(_, _) =>
    }
  }

  lemma ExtsCons(e: Ext, rest: seq<byte>, tail: seq<Ext>)
    requires e.kind < 65536 && |e.data| < 65536 && Exts(rest) == Some(tail)
    ensures Exts(Put16(e.kind) + Put16(|e.data|) + e.data + rest) == Some([e] + tail)
  {
    FirstExtReads(e, rest);
  }

  function OfferExts(os: seq<Offer>): seq<Ext>
    requires ValidOffers(os)
  {
    if os == [] then [] else [OfferExt(os[0])] + OfferExts(os[1..])
  }

  lemma {:induction false} ExtsRead(os: seq<Offer>)
    requires ValidOffers(os)
    ensures Exts(PutOffers(os)) == Some(OfferExts(os))
  {
    if os != [] {
      ExtsRead(os[1..]);
      ExtsCons(OfferExt(os[0]), PutOffers(os[1..]), OfferExts(os[1..]));
    }
  }

  lemma {:induction false} OffersGathered(os: seq<Offer>)
    requires ValidOffers(os)
    ensures AllNames(OfferExts(os)) == OfferedNames(os)
    ensures AllProtocols(OfferExts(os)) == OfferedProtocols(os)
  {
    if os != [] {
      OfferReads(os[0]);
      OffersGathered(os[1..]);
      assert OfferExts(os)[1..] == OfferExts(os[1..]);
    }
  }

  lemma FirstExtReads(e: Ext, rest: seq<byte>)
    requires e.kind < 65536 && |e.data| < 65536
    ensures var s := Put16(e.kind) + Put16(|e.data|) + e.data + rest;
            && |s| >= 4 + |e.data|
            && U16(s, 0) == e.kind && U16(s, 2) == |e.data|
            && s[4..4 + |e.data|] == e.data && s[4 + |e.data|..] == rest
  {
    var s := Put16(e.kind) + Put16(|e.data|) + e.data + rest;
    assert s[0] == Put16(e.kind)[0] && s[1] == Put16(e.kind)[1];
    assert s[2] == Put16(|e.data|)[0] && s[3] == Put16(|e.data|)[1];
    assert s[4..4 + |e.data|] == e.data;
    assert s[4 + |e.data|..] == rest;
  }

  lemma FixedFieldsSkipped(m: Message)
    requires ValidMessage(m)
    ensures SkipFixed(PutBody(m)) == Some(PutExtensions(m))
  {
    var methods := [|m.methods| as byte] + m.methods + PutExtensions(m);
    var suites := Put16(|m.suites|) + m.suites + methods;
    var session := [|m.session| as byte] + m.session + suites;
    assert PutBody(m)[34..] == session;
    Vec8Reads(m.session, suites);
    Vec16Reads(m.suites, methods);
    Vec8Reads(m.methods, PutExtensions(m));
  }

  lemma BodyReads(m: Message)
    requires ValidMessage(m)
    ensures BodyHello(PutBody(m))
         == Some(Hello(FirstHost(OfferedNames(Offers(m))), AsciiAll(OfferedProtocols(Offers(m)))))
  {
    FixedFieldsSkipped(m);
    if m.extensions.Some? {
      var os := m.extensions.value;
      Vec16Reads(PutOffers(os), []);
      assert PutExtensions(m) == Put16(|PutOffers(os)|) + PutOffers(os) + [];
      ExtsRead(os);
      OffersGathered(os);
    }
  }

  lemma MessageHead(m: Message)
    requires ValidMessage(m)
    requires |PutMessage(m)| <= MAX_HELLO_BYTES
    ensures GoodHead(PutMessage(m)) && Need(PutMessage(m)) == |PutMessage(m)|
    ensures PutMessage(m)[4..Need(PutMessage(m))] == PutBody(m)
  {
    var s := PutMessage(m);
    var size := Put24(|PutBody(m)|);
    assert s[1] == size[0] && s[2] == size[1] && s[3] == size[2];
    assert s[4..] == PutBody(m);
  }

  /**
   * Print a ClientHello of at most MAX_HELLO_BYTES, cut it into any handshake
   * records and append anything: the first host name (lower-cased) and every ALPN
   * protocol, in order, are read back.
   */
  lemma RoundTrip(m: Message, rs: seq<Record>, tail: seq<byte>)
    requires ValidMessage(m) && |PutMessage(m)| <= MAX_HELLO_BYTES
    requires forall i :: 0 <= i < |rs| ==> ValidRecord(rs[i])
    requires Joined(rs) == PutMessage(m)
    ensures Parse(Wire(rs) + tail)
         == Ok(Hello(FirstHost(OfferedNames(Offers(m))), AsciiAll(OfferedProtocols(Offers(m)))))
  {
    MessageHead(m);
    BodyReads(m);
    FragmentationIndependent(rs, tail);
  }

  /** The host name read is that of the first host entry: everything before it is of another type. */
  lemma {:induction false} FirstHostIsFirst(names: seq<Name>, i: nat)
    requires i < |names| && names[i].kind == NAME_TYPE_HOST
    requires forall j :: 0 <= j < i ==> names[j].kind != NAME_TYPE_HOST
    ensures FirstHost(names) == Some(Lower(Ascii(names[i].bytes)))
  {
    if i > 0 {
      FirstHostIsFirst(names[1..], i - 1);
    }
  }

  // --------------------------------------------------------- the cursor loops

  lemma {:induction false} GatherAppend<T>(a: seq<Ext>, e: Ext, each: Ext -> seq<T>)
    ensures Gather(a + [e], each) == Gather(a, each) + each(e)
  {
    if a == [] {
      assert a + [e] == [e] && [e][1..] == [];
    } else {
      GatherAppend(a[1..], e, each);
      assert (a + [e])[1..] == a[1..] + [e];
    }
  }

  lemma {:induction false} FirstHostAppend(a: seq<Name>, b: seq<Name>)
    ensures FirstHost(a + b) == if FirstHost(a).Some? then FirstHost(a) else FirstHost(b)
  {
    if a == [] {
      assert a + b == b;
    } else {
      FirstHostAppend(a[1..], b);
      assert (a + b)[1..] == a[1..] + b;
    }
  }

  function OrElse(a: Option<string>, b: Option<string>): Option<string> { if a.Some? then a else b }

  function HostAt(list: seq<byte>, n: nat): string
    requires n + 3 <= |list|
  {
    Lower(Ascii(Take(list[n + 3..], U16(list, n + 1))))
  }

  function ProtocolAt(list: seq<byte>, n: nat): seq<byte>
    requires n < |list|
  {
    Take(list[n + 1..], U8(list, n))
  }

  /** The first host name at or after the cursor. */
  function HostFrom(list: seq<byte>, n: nat): Option<string>
    decreases |list| - n
  {
    if n + 3 > |list| then None
    else if list[n] == NAME_TYPE_HOST then Some(HostAt(list, n))
    else HostFrom(list, n + 3 + U16(list, n + 1))
  }

  /** The protocols at or after the cursor. */
  function ProtocolsFrom(list: seq<byte>, n: nat): seq<seq<byte>>
    decreases |list| - n
  {
    if n >= |list| then [] else [ProtocolAt(list, n)] + ProtocolsFrom(list, n + 1 + U8(list, n))
  }

  /** The extensions at or after the cursor. */
  function ExtsFrom(s: seq<byte>, e: nat): Option<seq<Ext>>
    requires e <= |s|
    decreases |s| - e
  {
    if e + 4 > |s| then Some([])
    else if e + 4 + U16(s, e + 2) > |s| then None
    else Prepend([ExtAt(s, e)], ExtsFrom(s, e + 4 + U16(s, e + 2)))
  }

  function ExtAt(s: seq<byte>, e: nat): Ext
    requires e + 4 <= |s| && e + 4 + U16(s, e + 2) <= |s|
  {
    Ext(U16(s, e), s[e + 4..e + 4 + U16(s, e + 2)])
  }

  function Prepend(done: seq<Ext>, rest: Option<seq<Ext>>): Option<seq<Ext>> {
    match rest
    case None => None
    case Some(exts) => Some(done + exts)
  }

  function NameAt(list: seq<byte>, n: nat): Name
    requires n + 3 <= |list|
  {
    Name(list[n], Take(list[n + 3..], U16(list, n + 1)))
  }

  /** The name entries at or after the cursor. */
  function NamesFrom(list: seq<byte>, n: nat): seq<Name>
    decreases |list| - n
  {
    if n + 3 > |list| then [] else [NameAt(list, n)] + NamesFrom(list, n + 3 + U16(list, n + 1))
  }

  /** The first entry of what is left at the cursor, and what is left after it. */
  lemma NamesAt(list: seq<byte>, n: nat, t: seq<byte>)
    requires n + 3 <= |list| && t == list[n..]
    ensures var len := U16(list, n + 1);
            && U16(t, 1) == len && Name(t[0], Take(t[3..], len)) == NameAt(list, n)
            && (3 + len <= |t| <==> n + 3 + len <= |list|)
            && (3 + len <= |t| ==> t[3 + len..] == list[n + 3 + len..])
  {
  }

  lemma NamesUnfold(t: seq<byte>, first: Name, len: nat, rest: seq<Name>)
    requires |t| >= 3 && U16(t, 1) == len && first == Name(t[0], Take(t[3..], len))
    requires rest == if 3 + len <= |t| then Names(t[3 + len..]) else []
    ensures Names(t) == [first] + rest
  {
  }

  lemma NamesEnd(t: seq<byte>)
    requires |t| < 3
    ensures Names(t) == []
  {
  }

  lemma NamesFromUnfold(list: seq<byte>, n: nat)
    ensures NamesFrom(list, n)
         == if n + 3 > |list| then [] else [NameAt(list, n)] + NamesFrom(list, n + 3 + U16(list, n + 1))
  {
  }

  lemma {:induction false} NamesFromReads(list: seq<byte>, n: nat, t: seq<byte>)
    requires n <= |list| && t == list[n..]
    ensures NamesFrom(list, n) == Names(t)
    decreases |list| - n
  {
    hide *;
    NamesFromUnfold(list, n);
    if n + 3 > |list| {
      NamesEnd(t);
    } else {
      NamesAt(list, n, t);
      var len := U16(list, n + 1);
      if n + 3 + len <= |list| {
        NamesFromReads(list, n + 3 + len, t[3 + len..]);
      }
      NamesFromUnfold(list, n + 3 + len);
      NamesUnfold(t, NameAt(list, n), len, NamesFrom(list, n + 3 + len));
    }
  }

  lemma {:induction false} HostIsFirst(list: seq<byte>, n: nat)
    ensures HostFrom(list, n) == FirstHost(NamesFrom(list, n))
    decreases |list| - n
  {
    if n + 3 <= |list| {
      var rest := NamesFrom(list, n + 3 + U16(list, n + 1));
      assert ([NameAt(list, n)] + rest)[1..] == rest;
      HostIsFirst(list, n + 3 + U16(list, n + 1));
    }
  }

  lemma HostFromReads(list: seq<byte>, n: nat)
    requires n <= |list|
    ensures HostFrom(list, n) == FirstHost(Names(list[n..]))
  {
    NamesFromReads(list, n, list[n..]);
    HostIsFirst(list, n);
  }

  lemma ProtocolsAt(list: seq<byte>, n: nat, t: seq<byte>)
    requires n < |list| && t == list[n..]
    ensures var len := U8(list, n);
            && U8(t, 0) == len && Take(t[1..], len) == ProtocolAt(list, n)
            && (1 + len <= |t| <==> n + 1 + len <= |list|)
            && (1 + len <= |t| ==> t[1 + len..] == list[n + 1 + len..])
  {
  }

  lemma ProtocolsUnfold(t: seq<byte>, first: seq<byte>, len: nat, rest: seq<seq<byte>>)
    requires |t| >= 1 && U8(t, 0) == len && first == Take(t[1..], len)
    requires rest == if 1 + len <= |t| then Protocols(t[1 + len..]) else []
    ensures Protocols(t) == [first] + rest
  {
  }

  lemma ProtocolsEnd(t: seq<byte>)
    requires t == []
    ensures Protocols(t) == []
  {
  }

  lemma ProtocolsFromUnfold(list: seq<byte>, n: nat)
    ensures ProtocolsFrom(list, n)
         == if n >= |list| then [] else [ProtocolAt(list, n)] + ProtocolsFrom(list, n + 1 + U8(list, n))
  {
  }

  lemma {:induction false} ProtocolsFromReads(list: seq<byte>, n: nat, t: seq<byte>)
    requires n <= |list| && t == list[n..]
    ensures ProtocolsFrom(list, n) == Protocols(t)
    decreases |list| - n
  {
    hide *;
    ProtocolsFromUnfold(list, n);
    if n >= |list| {
      ProtocolsEnd(t);
    } else {
      ProtocolsAt(list, n, t);
      var len := U8(list, n);
      if n + 1 + len <= |list| {
        ProtocolsFromReads(list, n + 1 + len, t[1 + len..]);
      }
      ProtocolsFromUnfold(list, n + 1 + len);
      ProtocolsUnfold(t, ProtocolAt(list, n), len, ProtocolsFrom(list, n + 1 + len));
    }
  }

  lemma ExtsAt(s: seq<byte>, e: nat, t: seq<byte>)
    requires e + 4 <= |s| && t == s[e..]
    ensures var len := U16(s, e + 2);
            && U16(t, 2) == len
            && (4 + len <= |t| <==> e + 4 + len <= |s|)
            && (4 + len <= |t| ==> Ext(U16(t, 0), t[4..4 + len]) == ExtAt(s, e) && t[4 + len..] == s[e + 4 + len..])
  {
  }

  lemma ExtsUnfold(t: seq<byte>, len: nat, rest: Option<seq<Ext>>)
    requires |t| >= 4 + len && U16(t, 2) == len && rest == Exts(t[4 + len..])
    ensures Exts(t) == Prepend([Ext(U16(t, 0), t[4..4 + len])], rest)
  {
  }

  lemma ExtsCut(t: seq<byte>)
    ensures |t| < 4 ==> Exts(t) == Some([])
    ensures 4 <= |t| < 4 + U16(t, 2) ==> Exts(t) == None
  {
  }

  lemma ExtsFromUnfold(s: seq<byte>, e: nat)
    requires e <= |s|
    ensures ExtsFrom(s, e)
         == if e + 4 > |s| then Some([])
            else if e + 4 + U16(s, e + 2) > |s| then None
            else Prepend([ExtAt(s, e)], ExtsFrom(s, e + 4 + U16(s, e + 2)))
  {
  }

  lemma {:induction false} ExtsFromReads(s: seq<byte>, e: nat, t: seq<byte>)
    requires e <= |s| && t == s[e..]
    ensures ExtsFrom(s, e) == Exts(t)
    decreases |s| - e
  {
    hide *;
    ExtsFromUnfold(s, e);
    if e + 4 > |s| {
      ExtsCut(t);
    } else {
      ExtsAt(s, e, t);
      var len := U16(s, e + 2);
      if e + 4 + len > |s| {
        ExtsCut(t);
      } else {
        ExtsFromReads(s, e + 4 + len, t[4 + len..]);
        ExtsUnfold(t, len, ExtsFrom(s, e + 4 + len));
      }
    }
  }

  /** The server_name loop: the first host entry, unless one was already found. */
  method ReadNames(list: seq<byte>, found: Option<string>) returns (sni: Option<string>)
    ensures sni == OrElse(found, HostFrom(list, 0))
  {
    sni := found;
    var n := 0;
    while n + 3 <= |list|
      invariant OrElse(sni, HostFrom(list, n)) == OrElse(found, HostFrom(list, 0))
      decreases |list| - n
    {
      var nameLen := U16(list, n + 1);
      if list[n] == NAME_TYPE_HOST && sni.None? {
        sni := Some(HostAt(list, n));
      }
      n := n + 3 + nameLen;
    }
  }

  /** The ALPN loop. */
  method ReadProtocols(list: seq<byte>, before: seq<string>) returns (alpn: seq<string>)
    ensures alpn == before + AsciiAll(ProtocolsFrom(list, 0))
  {
    alpn := before;
    var n := 0;
    while n < |list|
      invariant alpn + AsciiAll(ProtocolsFrom(list, n)) == before + AsciiAll(ProtocolsFrom(list, 0))
      decreases |list| - n
    {
      var protoLen := U8(list, n);
      AsciiCons(ProtocolAt(list, n), ProtocolsFrom(list, n + 1 + protoLen));
      alpn := alpn + [Ascii(ProtocolAt(list, n))];
      n := n + 1 + protoLen;
    }
  }

  lemma AsciiCons(first: seq<byte>, rest: seq<seq<byte>>)
    ensures AsciiAll([first] + rest) == [Ascii(first)] + AsciiAll(rest)
  {
  }

  lemma PrependNone(done: seq<Ext>)
    ensures HelloFrom(Prepend(done, Some([]))) == Some(HelloOf(done))
  {
    assert done + [] == done;
  }

  lemma PrependTwice(done: seq<Ext>, e: Ext, rest: Option<seq<Ext>>)
    ensures Prepend(done, Prepend([e], rest)) == Prepend(done + [e], rest)
  {
    if rest.Some? {
      assert done + ([e] + rest.value) == done + [e] + rest.value;
    }
  }

  /** The bytes of the extension at the cursor, or as many as there are. */
  function DataAt(s: seq<byte>, e: nat): (data: seq<byte>)
    requires e + 4 <= |s|
    ensures |data| == U16(s, e + 2) <==> e + 4 + U16(s, e + 2) <= |s|
  {
    Take(s[e + 4..], U16(s, e + 2))
  }

  lemma ExtsAdvance(done: seq<Ext>, s: seq<byte>, e: nat)
    requires e + 4 <= |s| && e + 4 + U16(s, e + 2) <= |s|
    ensures ExtAt(s, e) == Ext(U16(s, e), DataAt(s, e))
    ensures Prepend(done, ExtsFrom(s, e)) == Prepend(done + [ExtAt(s, e)], ExtsFrom(s, e + 4 + U16(s, e + 2)))
  {
    assert s[e + 4..][..U16(s, e + 2)] == s[e + 4..e + 4 + U16(s, e + 2)];
    PrependTwice(done, ExtAt(s, e), ExtsFrom(s, e + 4 + U16(s, e + 2)));
  }

  lemma ExtsEnd(done: seq<Ext>, s: seq<byte>, e: nat)
    requires e + 4 <= |s| < e + 4 + U16(s, e + 2)
    ensures Prepend(done, ExtsFrom(s, e)) == None
  {
  }

  lemma HelloAppend(done: seq<Ext>, e: Ext)
    ensures FirstHost(AllNames(done + [e]))
         == if e.kind == EXT_SERVER_NAME
            then OrElse(FirstHost(AllNames(done)), FirstHost(Names(InnerList(e.data))))
            else FirstHost(AllNames(done))
    ensures AsciiAll(AllProtocols(done + [e]))
         == AsciiAll(AllProtocols(done))
            + (if e.kind == EXT_ALPN then AsciiAll(Protocols(InnerList(e.data))) else [])
  {
    GatherAppend(done, e, NamesIn);
    GatherAppend(done, e, ProtocolsIn);
    FirstHostAppend(AllNames(done), NamesIn(e));
  }

  /** One extension read by the loop: what it adds to the name and the protocols found so far. */
  method ReadExtension(ghost done: seq<Ext>, kind: nat, data: seq<byte>, sni: Option<string>, alpn: seq<string>)
    returns (sni': Option<string>, alpn': seq<string>)
    requires Hello(sni, alpn) == HelloOf(done)
    ensures Hello(sni', alpn') == HelloOf(done + [Ext(kind, data)])
  {
    sni', alpn' := sni, alpn;
    HelloAppend(done, Ext(kind, data));
    ghost var list := InnerList(data);
    assert list[0..] == list;
    if kind == EXT_SERVER_NAME && |data| >= 2 {
      HostFromReads(list, 0);
      sni' := ReadNames(Take(data[2..], U16(data, 0)), sni);
    } else if kind == EXT_ALPN && |data| >= 2 {
      ProtocolsFromReads(list, 0, list);
      alpn' := ReadProtocols(Take(data[2..], U16(data, 0)), alpn);
    }
  }

  /** The extension loop; None is the thrown RangeError. */
  method ReadExtensions(extensions: seq<byte>) returns (r: Option<Hello>)
    ensures r == HelloFrom(ExtsFrom(extensions, 0))
  {
    var sni: Option<string>, alpn: seq<string> := None, [];
    var e := 0;
    ghost var done: seq<Ext> := [];
    ghost var all := ExtsFrom(extensions, 0);
    assert all.Some? ==> [] + all.value == all.value;
    hide *;
    while e + 4 <= |extensions|
      invariant e <= |extensions|
      invariant Hello(sni, alpn) == HelloOf(done)
      invariant all == Prepend(done, ExtsFrom(extensions, e))
      decreases |extensions| - e
    {
      var kind, len := U16(extensions, e), U16(extensions, e + 2);
      var data := DataAt(extensions, e);
      if |data| != len {
        ExtsEnd(done, extensions, e);
        return None;
      }
      ExtsAdvance(done, extensions, e);
      sni, alpn := ReadExtension(done, kind, data, sni, alpn);
      done := done + [Ext(kind, data)];
      e := e + 4 + len;
    }
    ExtsFromUnfold(extensions, e);
    PrependNone(done);
    return Some(Hello(sni, alpn));
  }

  /** `take`: the cursor after `n` more bytes, or None for the thrown RangeError. */
  function TakeTo(body: seq<byte>, p: nat, n: nat): (q: Option<nat>)
    ensures q.Some? <==> p + n <= |body|
    ensures q.Some? ==> q.value == p + n
  {
    if p + n > |body| then None else Some(p + n)
  }

  /** Skip a field behind a one-byte length; a missing length byte also ends in the caught error. */
  method Skip8(body: seq<byte>, p: nat) returns (q: Option<nat>)
    ensures q.None? <==> p > |body| || Vec8(body[p..]).None?
    ensures q.Some? ==> p <= q.value <= |body| && Vec8(body[p..]).value.rest == body[q.value..]
  {
    if p >= |body| {
      return None;
    }
    q := TakeTo(body, p, U8(body, p) + 1);
  }

  method Skip16(body: seq<byte>, p: nat) returns (q: Option<nat>)
    ensures q.None? <==> p > |body| || Vec16(body[p..]).None?
    ensures q.Some? ==> p + 2 <= q.value <= |body| && q.value == p + 2 + U16(body, p)
    ensures q.Some? ==> Vec16(body[p..]).value == Field(body[p + 2..q.value], body[q.value..])
  {
    if p + 2 > |body| {
      return None;
    }
    assert U16(body[p..], 0) == U16(body, p);
    q := TakeTo(body, p, U16(body, p) + 2);
    if q.Some? {
      assert body[p..][2..2 + U16(body, p)] == body[p + 2..q.value];
      assert body[p..][2 + U16(body, p)..] == body[q.value..];
    }
  }

  method ParseBody(body: seq<byte>) returns (r: Option<Hello>)
    ensures r == BodyHello(body)
  {
    var p := 2 + 32;
    var session := Skip8(body, p);
    if session.None? { return None; }
    var suites := Skip16(body, session.value);
    if suites.None? { return None; }
    var methods := Skip8(body, suites.value);
    if methods.None? { return None; }
    p := methods.value;
    if p == |body| {
      return Some(Hello(None, []));
    }
    var end := Skip16(body, p);
    if end.None? { return None; }
    ghost var list := body[p + 2..end.value];
    assert list[0..] == list;
    ExtsFromReads(list, 0, list);
    r := ReadExtensions(body[p + 2..end.value]);
  }

  /** What is left of the scan after `offset` bytes of records. */
  function ScanFrom(buf: seq<byte>, offset: nat, hs: seq<byte>): Outcome
    requires offset <= |buf|
  {
    Scan(buf[offset..], hs, Answer)
  }

  lemma RecordShort(buf: seq<byte>, offset: nat, hs: seq<byte>)
    requires offset <= |buf| < offset + 5 && !Whole(hs)
    ensures ScanFrom(buf, offset, hs) == Incomplete
  {
  }

  /** A record that cannot be taken ends the scan with its fault. */
  lemma RecordFails(buf: seq<byte>, offset: nat, hs: seq<byte>)
    requires offset + 5 <= |buf| && !Whole(hs)
    ensures var n := U16(buf, offset + 3);
            && (buf[offset] != RECORD_HANDSHAKE ==> ScanFrom(buf, offset, hs) == Invalid(NotHandshake))
            && (buf[offset] == RECORD_HANDSHAKE && (n == 0 || n > MAX_RECORD_BYTES) ==>
                  ScanFrom(buf, offset, hs) == Invalid(BadRecordLength))
            && (buf[offset] == RECORD_HANDSHAKE && 0 < n <= MAX_RECORD_BYTES && |buf| < offset + 5 + n ==>
                  ScanFrom(buf, offset, hs) == Incomplete)
  {
    assert U16(buf[offset..], 3) == U16(buf, offset + 3);
  }

  /** The record at `offset` is whole. */
  predicate RecordAt(buf: seq<byte>, offset: nat) {
    && offset + 5 <= |buf| && buf[offset] == RECORD_HANDSHAKE
    && 0 < U16(buf, offset + 3) <= MAX_RECORD_BYTES && offset + 5 + U16(buf, offset + 3) <= |buf|
  }

  lemma ScanUnfold(s: seq<byte>, hs: seq<byte>, n: nat, fragment: seq<byte>, rest: seq<byte>)
    requires !Whole(hs) && RecordFault(s) == None
    requires U16(s, 3) == n && fragment == s[5..5 + n] && rest == s[5 + n..]
    ensures var joined := hs + fragment;
            Scan(s, hs, Answer)
            == if HeadFault(joined).Some? then Invalid(HeadFault(joined).value) else Scan(rest, joined, Answer)
  {
  }

  lemma RecordParts(buf: seq<byte>, offset: nat, s: seq<byte>)
    requires RecordAt(buf, offset) && s == buf[offset..]
    ensures var n := U16(buf, offset + 3);
            && RecordFault(s) == None && U16(s, 3) == n
            && s[5..5 + n] == buf[offset + 5..offset + 5 + n] && s[5 + n..] == buf[offset + 5 + n..]
  {
  }

  /** A whole record is joined on, unless the head that it completes is unacceptable. */
  lemma RecordJoins(buf: seq<byte>, offset: nat, hs: seq<byte>)
    requires RecordAt(buf, offset) && !Whole(hs)
    ensures var n := U16(buf, offset + 3);
            var joined := hs + buf[offset + 5..offset + 5 + n];
            ScanFrom(buf, offset, hs)
            == if HeadFault(joined).Some? then Invalid(HeadFault(joined).value)
               else ScanFrom(buf, offset + 5 + n, joined)
  {
    RecordParts(buf, offset, buf[offset..]);
    var n := U16(buf, offset + 3);
    ScanUnfold(buf[offset..], hs, n, buf[offset + 5..offset + 5 + n], buf[offset + 5 + n..]);
  }

  lemma WholeAnswers(buf: seq<byte>, offset: nat, hs: seq<byte>)
    requires offset <= |buf| && Whole(hs)
    ensures ScanFrom(buf, offset, hs) == Answer(hs)
  {
  }

  /** The fragment of the record at `offset`, or what the scan ends with there. */
  method ReadRecord(buf: seq<byte>, offset: nat, ghost hs: seq<byte>)
    returns (fragment: seq<byte>, fault: Option<Outcome>)
    requires offset <= |buf| && !Whole(hs)
    ensures fault.Some? ==> ScanFrom(buf, offset, hs) == fault.value
    ensures fault.None? ==> RecordAt(buf, offset) && fragment == buf[offset + 5..offset + 5 + U16(buf, offset + 3)]
  {
    fragment := [];
    if |buf| < offset + 5 {
      RecordShort(buf, offset, hs);
      return fragment, Some(Incomplete);
    }
    RecordFails(buf, offset, hs);
    if buf[offset] != RECORD_HANDSHAKE {
      return fragment, Some(Invalid(NotHandshake));
    }
    var recordLen := U16(buf, offset + 3);
    if recordLen == 0 || recordLen > MAX_RECORD_BYTES {
      return fragment, Some(Invalid(BadRecordLength));
    }
    if |buf| < offset + 5 + recordLen {
      return fragment, Some(Incomplete);
    }
    return buf[offset + 5..offset + 5 + recordLen], None;
  }

  /** The head of the message as the loop knows it: nothing before four bytes, then its length, acceptable. */
  predicate HeadKnown(handshake: seq<byte>, need: Option<nat>) {
    if |handshake| >= 4 then need == Some(Need(handshake)) && HeadFault(handshake) == None else need == None
  }

  /** The message length once the head is there, or why the head is refused. */
  method ReadHead(handshake: seq<byte>, known: Option<nat>) returns (need: Option<nat>, fault: Option<Reason>)
    requires known.Some? ==> HeadKnown(handshake, known)
    ensures fault == HeadFault(handshake)
    ensures fault.None? ==> HeadKnown(handshake, need)
  {
    need, fault := known, None;
    if known.None? && |handshake| >= 4 {
      if handshake[0] != HANDSHAKE_CLIENT_HELLO {
        return need, Some(NotClientHello);
      }
      need := Some(4 + U24(handshake, 1));
      if need.value > MAX_HELLO_BYTES {
        return need, Some(TooLarge);
      }
    }
  }

  /** More bytes do not change a head that is there. */
  lemma HeadKept(hs: seq<byte>, fragment: seq<byte>, need: Option<nat>)
    requires HeadKnown(hs, need)
    ensures need.Some? ==> HeadKnown(hs + fragment, need)
  {
    if |hs| >= 4 {
      assert forall i :: 0 <= i < 4 ==> (hs + fragment)[i] == hs[i];
    }
  }

  /** The record loop over everything received so far. */
  method ParseClientHello(buf: seq<byte>) returns (r: Outcome)
    ensures r == Parse(buf)
  {
    var handshake: seq<byte> := [];
    var need: Option<nat> := None;
    var offset := 0;
    assert ScanFrom(buf, 0, []) == Parse(buf) by { assert buf[0..] == buf; }
    while need.None? || |handshake| < need.value
      invariant offset <= |buf| && HeadKnown(handshake, need)
      invariant Parse(buf) == ScanFrom(buf, offset, handshake)
      decreases |buf| - offset
    {
      var fragment, fault := ReadRecord(buf, offset, handshake);
      if fault.Some? {
        return fault.value;
      }
      RecordJoins(buf, offset, handshake);
      HeadKept(handshake, fragment, need);
      handshake := handshake + fragment;
      offset := offset + 5 + |fragment|;
      var refused;
      need, refused := ReadHead(handshake, need);
      if refused.Some? {
        return Invalid(refused.value);
      }
    }
    WholeAnswers(buf, offset, handshake);
    var hello := ParseBody(handshake[4..need.value]);
    return if hello.None? then Invalid(Malformed) else Ok(hello.value);
  }
}
