/**
 * The PROXY protocol version 1 line (webserver/src/e2e/sniRouter.js:31-60;
 * section 2.1 of the PROXY protocol specification).
 */
module ProxyLine {
  import opened Options
  import opened Bytes
  import opened ClientHello

  /** The longest line the protocol allows, CRLF included. */
  const PROXY_V1_MAX := 107

  datatype Proxied = Short | Bad | Read(peer: string, rest: seq<byte>)

  predicate CrlfAt(s: seq<byte>, i: nat) { i + 2 <= |s| && s[i] == 13 && s[i + 1] == 10 }

  /** `indexOf('\r\n')`. */
  function IndexOfCrlf(s: seq<byte>): (r: Option<nat>)
    ensures r.Some? ==> CrlfAt(s, r.value) && forall j :: 0 <= j < r.value ==> !CrlfAt(s, j)
    ensures r.None? ==> forall j :: 0 <= j ==> !CrlfAt(s, j)
  {
    CrlfFrom(s, 0)
  }

  function CrlfFrom(s: seq<byte>, i: nat): (r: Option<nat>)
    requires forall j :: 0 <= j < i ==> !CrlfAt(s, j)
    ensures r.Some? ==> CrlfAt(s, r.value) && forall j :: 0 <= j < r.value ==> !CrlfAt(s, j)
    ensures r.None? ==> forall j :: 0 <= j ==> !CrlfAt(s, j)
    decreases |s| - i
  {
    if |s| < i + 2 then None
    else if CrlfAt(s, i) then Some(i)
    else CrlfFrom(s, i + 1)
  }

  predicate AddressChar(c: char) {
    '0' <= c <= '9' || 'a' <= c <= 'f' || 'A' <= c <= 'F' || c == '.' || c == ':'
  }

  predicate Digit(c: char) { '0' <= c <= '9' }

  predicate All(s: string, ok: char -> bool) { forall i :: 0 <= i < |s| ==> ok(s[i]) }

  /** How many leading characters are acceptable. */
  function Run(s: string, ok: char -> bool): (n: nat)
    ensures n <= |s| && All(s[..n], ok)
    ensures n < |s| ==> !ok(s[n])
  {
    if s == [] || !ok(s[0]) then 0 else 1 + Run(s[1..], ok)
  }

  /** What is left after a literal. */
  function After(s: string, literal: string): Option<string> {
    if literal <= s then Some(s[|literal|..]) else None
  }

  datatype Word = Word(text: string, rest: string)

  /** The longest run of at least one and at most `most` acceptable characters, then the literal. */
  function WordThen(s: string, ok: char -> bool, most: nat, literal: string): Option<Word> {
    var n := Run(s, ok);
    if n == 0 || n > most then None
    else
      match After(s[n..], literal)
      case None => None
      case Some(rest) => Some(Word(s[..n], rest))
  }

  /** The address group of PROXY_V1_RE, matched from the front of the line. */
  function MatchLine(line: string): Option<string> {
    match After(line, "PROXY TCP4 ")
    case Some(rest) => MatchAddresses(rest)
    case None =>
      match After(line, "PROXY TCP6 ")
      case Some(rest) => MatchAddresses(rest)
      case None => None
  }

  function MatchAddresses(s: string): Option<string> {
    match WordThen(s, AddressChar, |s|, " ")
    case None => None
    case Some(src) =>
      match WordThen(src.rest, AddressChar, |s|, " ")
      case None => None
      case Some(dst) =>
        match WordThen(dst.rest, Digit, 5, " ")
        case None => None
        case Some(sport) =>
          match WordThen(sport.rest, Digit, 5, "\r\n")
          case None => None
          case Some(_) => Some(src.text)
  }

  function ParseProxyV1(buf: seq<byte>, isIP: string -> nat): Proxied {
    Framed(buf, PeerOf(isIP))
  }

  /** Wait for the end of the line, but not forever; then read it and leave the rest. */
  function Framed(buf: seq<byte>, peerOf: PeerReader): Proxied {
    match IndexOfCrlf(buf)
    case None => if |buf| < PROXY_V1_MAX then Short else Bad
    case Some(end) =>
      match peerOf(buf[..end + 2])
      case None => Bad
      case Some(peer) => Read(peer, buf[end + 2..])
  }

  /** Reads a complete line: the visitor's address, or None for a line that is refused. */
  type PeerReader = seq<byte> -> Option<string>

  function PeerOf(isIP: string -> nat): PeerReader { line => LinePeer(line, isIP) }

  /** The visitor's address in a complete line, if the line is well formed. */
  function LinePeer(line: seq<byte>, isIP: string -> nat): Option<string> {
    match MatchLine(Ascii(line))
    case None => None
    case Some(peer) => if isIP(peer) == 0 then None else Some(peer)
  }

  // ----------------------------------------------------------- the sender's side

  function StripMapped(address: string): string {
    if "::ffff:" <= address then address[7..] else address
  }

  function Decimal(n: nat): (s: string)
    ensures 0 < |s| && All(s, Digit)
    ensures n < 10 ==> |s| == 1
    ensures n < 100 ==> |s| <= 2
    ensures n < 1000 ==> |s| <= 3
    ensures n < 10000 ==> |s| <= 4
    ensures n < 100000 ==> |s| <= 5
  {
    if n < 10 then [('0' as int + n) as char]
    else Decimal(n / 10) + [('0' as int + n % 10) as char]
  }

  function Family(src: string, dst: string, isIP: string -> nat): string {
    if isIP(src) == 6 || isIP(dst) == 6 then "PROXY TCP6 " else "PROXY TCP4 "
  }

  /** The line without its CRLF. */
  function LineText(family: string, src: string, dst: string, remotePort: nat, localPort: nat): string {
    family + (src + (" " + (dst + (" " + (Decimal(remotePort) + (" " + Decimal(localPort)))))))
  }

  function ProxyV1Line(remote: string, local: string, remotePort: nat, localPort: nat, isIP: string -> nat): string {
    var src, dst := StripMapped(remote), StripMapped(local);
    LineText(Family(src, dst, isIP), src, dst, remotePort, localPort) + "\r\n"
  }

  predicate AsciiOnly(s: string) { All(s, c => c < 128 as char) }

  function ToBytes(s: string): (r: seq<byte>)
    requires AsciiOnly(s)
    ensures |r| == |s| && forall i :: 0 <= i < |s| ==> r[i] == s[i] as int
  {
    seq(|s|, i requires 0 <= i < |s| => s[i] as int as byte)
  }

  /** What a socket address looks like: ASCII with no blanks or line ends. */
  predicate AddressText(s: string) {
    All(s, c => c < 128 as char && c != ' ' && c != '\r' && c != '\n')
  }

  lemma {:induction false} RunOver(a: string, b: string, ok: char -> bool)
    requires All(a, ok) && (b == [] || !ok(b[0]))
    ensures Run(a + b, ok) == |a|
  {
    if a == [] {
      assert a + b == b;
    } else {
      assert (a + b)[1..] == a[1..] + b;
      RunOver(a[1..], b, ok);
    }
  }

  lemma WordReads(word: string, literal: string, rest: string, ok: char -> bool, most: nat)
    requires All(word, ok) && 0 < |word| <= most && literal != [] && !ok(literal[0])
    ensures WordThen(word + literal + rest, ok, most, literal) == Some(Word(word, rest))
  {
    var s := word + literal + rest;
    assert s == word + (literal + rest);
    RunOver(word, literal + rest, ok);
    assert s[..|word|] == word;
    assert s[|word|..] == literal + rest;
    assert (literal + rest)[|literal|..] == rest;
  }

  /** A word holding an unacceptable character, or nothing, does not match up to its blank. */
  lemma {:induction false} WordRefused(word: string, rest: string, ok: char -> bool, most: nat)
    requires !ok(' ') && (word == [] || !All(word, ok))
    requires forall i :: 0 <= i < |word| ==> word[i] != ' '
    ensures WordThen(word + " " + rest, ok, most, " ") == None
  {
    var s := word + " " + rest;
    var n := Run(s, ok);
    if n >= |word| {
      assert word == s[..n][..|word|];
      assert word == [];
      assert s[0] == ' ';
    } else {
      assert s[n..][0] == word[n];
    }
  }

  function Ports(remotePort: nat, localPort: nat): string {
    Decimal(remotePort) + " " + (Decimal(localPort) + "\r\n")
  }

  lemma PortsRead(remotePort: nat, localPort: nat)
    requires remotePort < 65536 && localPort < 65536
    ensures var sport := WordThen(Ports(remotePort, localPort), Digit, 5, " ");
            sport.Some? && WordThen(sport.value.rest, Digit, 5, "\r\n").Some?
  {
    WordReads(Decimal(remotePort), " ", Decimal(localPort) + "\r\n", Digit, 5);
    WordReads(Decimal(localPort), "\r\n", "", Digit, 5);
    assert Decimal(localPort) + "\r\n" + "" == Decimal(localPort) + "\r\n";
  }

  lemma AddressesRead(src: string, dst: string, remotePort: nat, localPort: nat)
    requires AddressText(src) && AddressText(dst)
    requires remotePort < 65536 && localPort < 65536
    ensures MatchAddresses(src + " " + (dst + " " + Ports(remotePort, localPort)))
         == if All(src, AddressChar) && All(dst, AddressChar) && src != "" && dst != "" then Some(src) else None
  {
    var tail := Ports(remotePort, localPort);
    var s := src + " " + (dst + " " + tail);
    if All(src, AddressChar) && src != "" {
      WordReads(src, " ", dst + " " + tail, AddressChar, |s|);
      if All(dst, AddressChar) && dst != "" {
        WordReads(dst, " ", tail, AddressChar, |s|);
        PortsRead(remotePort, localPort);
      } else {
        WordRefused(dst, tail, AddressChar, |s|);
      }
    } else {
      WordRefused(src, dst + " " + tail, AddressChar, |s|);
    }
  }

  /** ASCII without a carriage return. */
  predicate Plain(s: string) { All(s, c => c < 128 as char && c != '\r') }

  lemma PlainJoin(a: string, b: string)
    requires Plain(a) && Plain(b)
    ensures Plain(a + b)
  {
  }

  lemma LineTextPlain(family: string, src: string, dst: string, remotePort: nat, localPort: nat)
    requires Plain(family) && AddressText(src) && AddressText(dst)
    ensures Plain(LineText(family, src, dst, remotePort, localPort))
  {
    var ports := Decimal(remotePort) + (" " + Decimal(localPort));
    PlainJoin(" ", Decimal(localPort));
    PlainJoin(Decimal(remotePort), " " + Decimal(localPort));
    PlainJoin(" ", ports);
    PlainJoin(dst, " " + ports);
    PlainJoin(" ", dst + (" " + ports));
    PlainJoin(src, " " + (dst + (" " + ports)));
    PlainJoin(family, src + (" " + (dst + (" " + ports))));
  }

  lemma LineMatches(family: string, src: string, dst: string, remotePort: nat, localPort: nat)
    requires family == "PROXY TCP4 " || family == "PROXY TCP6 "
    ensures MatchLine(LineText(family, src, dst, remotePort, localPort) + "\r\n")
         == MatchAddresses(src + " " + (dst + " " + Ports(remotePort, localPort)))
  {
    var rest := src + " " + (dst + " " + Ports(remotePort, localPort));
    assert LineText(family, src, dst, remotePort, localPort) + "\r\n" == family + rest;
    FamilyMatches(family, rest);
  }

  lemma FamilyMatches(family: string, rest: string)
    requires family == "PROXY TCP4 " || family == "PROXY TCP6 "
    ensures MatchLine(family + rest) == MatchAddresses(rest)
  {
    assert (family + rest)[9] == family[9] && "PROXY TCP4 "[9] == '4' && "PROXY TCP6 "[9] == '6';
    assert (family + rest)[11..] == rest;
  }

  lemma TextIsOneLine(text: string, rest: seq<byte>)
    requires Plain(text)
    ensures AsciiOnly(text + "\r\n")
    ensures IndexOfCrlf(ToBytes(text + "\r\n") + rest) == Some(|text|)
    ensures Ascii((ToBytes(text + "\r\n") + rest)[..|text| + 2]) == text + "\r\n"
    ensures (ToBytes(text + "\r\n") + rest)[|text| + 2..] == rest
  {
    var line := text + "\r\n";
    var buf := ToBytes(line) + rest;
    assert forall i :: 0 <= i < |line| ==> buf[i] == line[i] as int;
    assert CrlfAt(buf, |text|);
    assert forall j :: 0 <= j < |text| ==> !CrlfAt(buf, j);
    assert buf[..|line|] == ToBytes(line);
  }

  /**
   * The router this line is sent to learns the visitor's address and gets every
   * byte after the line: exactly when both addresses are written in the line's own
   * alphabet (no IPv6 zone, both ends known) and the visitor's is an IP address.
   */
  lemma LineIsRead(remote: string, local: string, remotePort: nat, localPort: nat, isIP: string -> nat, rest: seq<byte>)
    requires AddressText(remote) && AddressText(local)
    requires remotePort < 65536 && localPort < 65536
    ensures AsciiOnly(ProxyV1Line(remote, local, remotePort, localPort, isIP))
    ensures var src, dst := StripMapped(remote), StripMapped(local);
            ParseProxyV1(ToBytes(ProxyV1Line(remote, local, remotePort, localPort, isIP)) + rest, isIP)
            == if && All(src, AddressChar) && All(dst, AddressChar)
                  && src != "" && dst != "" && isIP(src) != 0
               then Read(src, rest) else Bad
  {
    var src, dst := StripMapped(remote), StripMapped(local);
    var family := Family(src, dst, isIP);
    LineTextPlain(family, src, dst, remotePort, localPort);
    TextIsOneLine(LineText(family, src, dst, remotePort, localPort), rest);
    LineMatches(family, src, dst, remotePort, localPort);
    AddressesRead(src, dst, remotePort, localPort);
  }

  /** Addresses of the standard's longest form keep the line within its limit. */
  lemma LineFits(remote: string, local: string, remotePort: nat, localPort: nat, isIP: string -> nat)
    requires |StripMapped(remote)| <= 39 && |StripMapped(local)| <= 39
    requires remotePort < 65536 && localPort < 65536
    ensures |ProxyV1Line(remote, local, remotePort, localPort, isIP)| <= PROXY_V1_MAX
  {
  }

  // ------------------------------------------------------ growing the buffer

  lemma CrlfOfPrefix(s: seq<byte>, p: seq<byte>)
    requires p <= s
    ensures IndexOfCrlf(s).Some? ==>
              IndexOfCrlf(p) == if IndexOfCrlf(s).value + 2 <= |p| then IndexOfCrlf(s) else None
    ensures IndexOfCrlf(s).None? ==> IndexOfCrlf(p).None?
  {
    assert forall i | 0 <= i && i + 2 <= |p| :: CrlfAt(p, i) == CrlfAt(s, i);
    if IndexOfCrlf(s).Some? && IndexOfCrlf(s).value + 2 <= |p| {
      assert CrlfAt(p, IndexOfCrlf(s).value);
    }
  }

  lemma CrlfStays(buf: seq<byte>, more: seq<byte>)
    requires IndexOfCrlf(buf).Some?
    ensures IndexOfCrlf(buf + more) == IndexOfCrlf(buf)
    ensures var n := IndexOfCrlf(buf).value + 2;
            (buf + more)[..n] == buf[..n] && (buf + more)[n..] == buf[n..] + more
  {
    CrlfOfPrefix(buf + more, buf);
  }

  /** A line once read stays read, and every later byte is after it. */
  lemma FramedStable(buf: seq<byte>, more: seq<byte>, peerOf: PeerReader)
    requires Framed(buf, peerOf).Read?
    ensures Framed(buf + more, peerOf) == Read(Framed(buf, peerOf).peer, Framed(buf, peerOf).rest + more)
  {
    CrlfStays(buf, more);
  }
}
