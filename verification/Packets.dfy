/** IPv4 packets with TCP and UDP payloads: building, parsing, and their checksums. */
module Packets {
  import opened Common
  import opened Bytes
  import opened Checksums

  const TCP: Byte := 6
  const UDP: Byte := 17
  const U16: nat := 0x1_0000
  const U32: nat := 0x1_0000_0000

  type Address = a: Text | |a| == 4 witness [0, 0, 0, 0]

  type Word16 = n: nat | n < U16
  type Word32 = n: nat | n < U32

  /** Protocol numbers the parser knows. */
  predicate KnownProtocol(p: Byte) {
    p <= 142 || p >= 253
  }

  datatype Ipv4 = Ipv4(dscp: Byte, payloadLen: Word16, id: Word16, fragment: Word16, ttl: Byte, protocol: Byte,
    src: Address, dst: Address)

  datatype Tcp = Tcp(srcPort: Word16, dstPort: Word16, sequence: Word32, ack: Word32, offset: nat, flags: nat,
    window: Word16)

  datatype Udp = Udp(srcPort: Word16, dstPort: Word16, length: Word16)

  // ----- IPv4 headers -----

  /** The header before the checksum field, and after it. */
  function Ipv4Front(h: Ipv4, len: nat): (s: Text)
    ensures |s| == 10
  {
    [0x45, h.dscp] + Be((20 + len) % U16, 2) + Be(h.id, 2) + Be(h.fragment, 2) + [h.ttl, h.protocol]
  }

  function Ipv4Bytes(h: Ipv4, len: nat, checksum: nat): (s: Text)
    ensures |s| == 20
  {
    Ipv4Front(h, len) + Be(checksum, 2) + (h.src + h.dst)
  }

  function Ipv4Built(h: Ipv4, len: nat): (s: Text)
    ensures |s| == 20
  {
    Ipv4Bytes(h, len, Checksum(Ipv4Bytes(h, len, 0)))
  }

  /** A built header sums up to zero. */
  lemma Ipv4Verifies(h: Ipv4, len: nat)
    ensures Checksum(Ipv4Built(h, len)) == 0
  {
    hide Checksum, Be;
    ChecksumVerifies(Ipv4Front(h, len), h.src + h.dst);
  }

  /** `None` where the original panics. */
  function Ipv4Parsed(s: Text): Option<Ipv4> {
    if |s| < 20 || s[0] != 0x45 || FromBe(s[2..4]) < 20 || !KnownProtocol(s[9]) then None
    else
      BeBounded(s[2..4]); BeBounded(s[4..6]); BeBounded(s[6..8]); Powers();
      Some(Ipv4(s[1], FromBe(s[2..4]) - 20, FromBe(s[4..6]), FromBe(s[6..8]), s[8], s[9], s[12..16], s[16..20]))
  }

  lemma BeAt(s: Text, at: nat, v: nat, k: nat)
    requires at + k <= |s| && s[at..at + k] == Be(v, k) && v < Power(k)
    ensures FromBe(s[at..at + k]) == v
  {
    BeRoundTrip(v, k);
  }

  /** Parsing a built header gives it back, with the payload length filled in. */
  lemma Ipv4RoundTrip(h: Ipv4, len: nat, checksum: nat, rest: Text)
    requires 20 + len < U16 && KnownProtocol(h.protocol)
    ensures Ipv4Parsed(Ipv4Bytes(h, len, checksum) + rest) == Some(h.(payloadLen := len))
  {
    Powers();
    hide Be, FromBe, Power;
    var s := Ipv4Bytes(h, len, checksum) + rest;
    assert s[2..4] == Be(20 + len, 2) && s[4..6] == Be(h.id, 2) && s[6..8] == Be(h.fragment, 2);
    BeAt(s, 2, 20 + len, 2);
    BeAt(s, 4, h.id, 2);
    BeAt(s, 6, h.fragment, 2);
    assert s[12..16] == h.src && s[16..20] == h.dst;
  }

  /** Header and payload; the payload ends where the header says, whatever follows. */
  function PacketParsed(s: Text): Option<(Ipv4, Text)> {
    match Ipv4Parsed(s)
    case None => None
    case Some(h) => if |s| < 20 + h.payloadLen then None else Some((h, s[20..20 + h.payloadLen]))
  }

  // ----- TCP segments -----

  function TcpFront(h: Tcp): (s: Text)
    ensures |s| == 16
  {
    Be(h.srcPort, 2) + Be(h.dstPort, 2) + Be(h.sequence, 4) + Be(h.ack, 4)
      + Be((h.offset / 4 * 0x1000 + h.flags) % U16, 2) + Be(h.window, 2)
  }

  /** Offset nibble and flags share a word; the urgent field is zero. */
  function TcpBytes(h: Tcp, checksum: nat): (s: Text)
    ensures |s| == 20
  {
    TcpFront(h) + Be(checksum, 2) + Be(0, 2)
  }

  /** The addresses, protocol and length that the checksum covers beside the segment. */
  function Pseudo(h: Ipv4, protocol: Byte, len: nat): (s: Text)
    ensures |s| == 12
  {
    h.src + h.dst + [0, protocol] + Be(len % U16, 2)
  }

  function TcpChecksum(ip: Ipv4, h: Tcp, payload: Text): nat {
    Checksum(Pseudo(ip, TCP, 20 + |payload|) + TcpBytes(h, 0) + payload)
  }

  function TcpBuilt(ip: Ipv4, h: Tcp, payload: Text): Text {
    Ipv4Built(ip, 20 + |payload|) + TcpBytes(h, TcpChecksum(ip, h, payload)) + payload
  }

  /** Pseudo header and built segment sum up to zero, for payloads of even and odd length. */
  lemma TcpVerifies(ip: Ipv4, h: Tcp, payload: Text)
    ensures Checksum(Pseudo(ip, TCP, 20 + |payload|) + TcpBytes(h, TcpChecksum(ip, h, payload)) + payload) == 0
  {
    hide Checksum, Be;
    var front := Pseudo(ip, TCP, 20 + |payload|) + TcpFront(h);
    var back := Be(0, 2) + payload;
    forall c ensures Pseudo(ip, TCP, 20 + |payload|) + TcpBytes(h, c) + payload == front + Be(c, 2) + back {}
    ChecksumVerifies(front, back);
  }

  /** The value of the maximum segment size option, if any; `None` outside where the original panics. */
  function OptionsParsed(s: Text, mss: Option<Word16>): Option<Option<Word16>> {
    if s == [] || s[0] == 0 then Some(mss)
    else if s[0] == 1 then OptionsParsed(s[1..], mss)
    else if s[0] == 2 && |s| >= 4 && s[1] == 4 then
      BeBounded(s[2..4]); Powers();
      OptionsParsed(s[4..], Some(FromBe(s[2..4])))
    else None
  }

  /** The options of a segment that the parser knows: one byte of padding, or a maximum segment size. */
  datatype TcpOption = Padding | MaxSegment(size: Word16)

  function Encoded(option: TcpOption): Text {
    match option case Padding => [1] case MaxSegment(size) => [2, 4, size / 256, size % 256]
  }

  function Noted(option: TcpOption, mss: Option<Word16>): Option<Word16> {
    if option.MaxSegment? then Some(option.size) else mss
  }

  function Wire(options: seq<TcpOption>): Text {
    if options == [] then []
    else Encoded(options[0]) + Wire(options[1..])
  }

  /** The last size given, or what was known before. */
  function LastSize(options: seq<TcpOption>, mss: Option<Word16>): Option<Word16> {
    if options == [] then mss
    else if options[|options| - 1].MaxSegment? then Some(options[|options| - 1].size)
    else LastSize(options[..|options| - 1], mss)
  }

  lemma {:induction false} LastSizeFirst(first: TcpOption, rest: seq<TcpOption>, mss: Option<Word16>)
    ensures LastSize([first] + rest, mss) == LastSize(rest, Noted(first, mss))
    decreases |rest|
  {
    var all := [first] + rest;
    if rest == [] { assert all[..0] == []; }
    else {
      assert all[..|all| - 1] == [first] + rest[..|rest| - 1];
      LastSizeFirst(first, rest[..|rest| - 1], mss);
    }
  }

  /** Nothing more, or the mark that ends the list. */
  predicate Over(tail: Text) {
    tail == [] || tail[0] == 0
  }

  lemma OptionStep(option: TcpOption, rest: Text, mss: Option<Word16>)
    ensures OptionsParsed(Encoded(option) + rest, mss) == OptionsParsed(rest, Noted(option, mss))
  {
    var s := Encoded(option) + rest;
    if option.MaxSegment? {
      WordBytes(option.size);
      BeRoundTrip(option.size, 2);
      Powers();
      assert s[2..4] == Be(option.size, 2) && s[4..] == rest;
    } else {
      assert s[1..] == rest;
    }
  }

  lemma {:induction false} OptionsRead(options: seq<TcpOption>, tail: Text, mss: Option<Word16>)
    requires Over(tail)
    ensures OptionsParsed(Wire(options) + tail, mss) == Some(LastSize(options, mss))
    decreases |options|
  {
    hide OptionsParsed, Encoded;
    if options == [] {
      assert Wire(options) + tail == tail;
      NothingMore(tail, mss);
    } else {
      var first, rest := options[0], options[1..];
      assert options == [first] + rest;
      LastSizeFirst(first, rest, mss);
      OptionsRead(rest, tail, Noted(first, mss));
      OptionStep(first, Wire(rest) + tail, mss);
      assert Wire(options) + tail == Encoded(first) + (Wire(rest) + tail);
    }
  }

  lemma NothingMore(tail: Text, mss: Option<Word16>)
    requires Over(tail)
    ensures OptionsParsed(tail, mss) == Some(mss)
  {
  }

  /** Options are read exactly when they are a list of known ones up to the end or its mark; the last size counts. */
  lemma {:induction false} OptionsReadIff(s: Text, mss: Option<Word16>, found: Option<Word16>)
    ensures OptionsParsed(s, mss) == Some(found) <==>
      exists options, tail :: s == Wire(options) + tail && Over(tail) && found == LastSize(options, mss)
    decreases |s|
  {
    forall options, tail | s == Wire(options) + tail && Over(tail)
      ensures OptionsParsed(s, mss) == Some(LastSize(options, mss)) { OptionsRead(options, tail, mss); }
    if OptionsParsed(s, mss) == Some(found) { var options, tail := OptionsOf(s, mss, found); }
  }

  lemma {:induction false} OptionsOf(s: Text, mss: Option<Word16>, found: Option<Word16>)
      returns (options: seq<TcpOption>, tail: Text)
    requires OptionsParsed(s, mss) == Some(found)
    ensures s == Wire(options) + tail && Over(tail) && found == LastSize(options, mss)
    decreases |s|
  {
    if Over(s) {
      options, tail := [], s;
      NothingMore(s, mss);
    } else {
      var first, rest := FirstOption(s, mss);
      options, tail := OptionsOf(rest, Noted(first, mss), found);
      hide OptionsParsed, Encoded;
      LastSizeFirst(first, options, mss);
      assert ([first] + options)[1..] == options;
      assert s == Encoded(first) + Wire(options) + tail;
      options := [first] + options;
    }
  }

  lemma FirstOption(s: Text, mss: Option<Word16>) returns (first: TcpOption, rest: Text)
    requires !Over(s) && OptionsParsed(s, mss).Some?
    ensures s == Encoded(first) + rest && |rest| < |s|
    ensures OptionsParsed(rest, Noted(first, mss)) == OptionsParsed(s, mss)
  {
    if s[0] == 1 {
      first, rest := Padding, s[1..];
    } else {
      BeBounded(s[2..4]);
      Powers();
      first, rest := MaxSegment(FromBe(s[2..4])), s[4..];
      WordBytes(first.size);
      BeInverse(s[2..4]);
    }
    assert s == Encoded(first) + rest;
    OptionStep(first, rest, mss);
  }

  /** The loop of the original over what is left of the options. */
  method ReadOptions(bytes: Text) returns (r: Option<Option<Word16>>)
    ensures r == OptionsParsed(bytes, None)
  {
    var input, mss := bytes, Option<Word16>.None;
    while input != []
      invariant OptionsParsed(input, mss) == OptionsParsed(bytes, None)
      decreases |input|
    {
      if input[0] == 0 { break; }
      else if input[0] == 1 { input := input[1..]; }
      else if input[0] == 2 && |input| >= 4 && input[1] == 4 {
        BeBounded(input[2..4]); Powers();
        mss := Some(FromBe(input[2..4]));
        input := input[4..];
      } else { return None; }
    }
    r := Some(mss);
  }

  datatype Segment = Segment(header: Tcp, mss: Option<Word16>, payload: Text)

  function SegmentParsed(s: Text): Option<Segment> {
    if |s| < 20 then None
    else
      BeBounded(s[0..2]); BeBounded(s[2..4]); BeBounded(s[4..8]); BeBounded(s[8..12]);
      BeBounded(s[12..14]); BeBounded(s[14..16]); Powers();
      var word := FromBe(s[12..14]);
      var offset := word / 0x1000 * 4;
      if offset < 20 || offset > |s| then None
      else
        match OptionsParsed(s[20..offset], None)
        case None => None
        case Some(mss) =>
          Some(Segment(Tcp(FromBe(s[0..2]), FromBe(s[2..4]), FromBe(s[4..8]), FromBe(s[8..12]), offset, word % 32,
            FromBe(s[14..16])),
                       mss, s[offset..]))
  }

  /** Parsing a segment gives its fields back, with the low five flag bits, what its options say, and the payload. */
  lemma SegmentRoundTrip(h: Tcp, checksum: nat, options: Text, payload: Text)
    requires h.offset == 20 + |options| <= 60 && |options| % 4 == 0 && h.flags < 0x1000
    ensures SegmentParsed(TcpBytes(h, checksum) + options + payload) ==
      match OptionsParsed(options, None)
      case None => None
      case Some(mss) => Some(Segment(h.(flags := h.flags % 32), mss, payload))
  {
    Powers();
    hide Be, FromBe, Power, TcpBytes, OptionsParsed, SegmentParsed;
    var word := (h.offset / 4 * 0x1000 + h.flags) % U16;
    FlagWord(h.offset, h.flags);
    var s := TcpBytes(h, checksum) + options + payload;
    Behind(TcpBytes(h, checksum), options, payload);
    SegmentFields(h, checksum, options + payload);
    BeAt(s, 0, h.srcPort, 2);
    BeAt(s, 2, h.dstPort, 2);
    BeAt(s, 4, h.sequence, 4);
    BeAt(s, 8, h.ack, 4);
    BeAt(s, 12, word, 2);
    BeAt(s, 14, h.window, 2);
    SegmentOf(s, h.(flags := h.flags % 32), word);
  }

  /** The segment these bytes stand for, field by field. */
  lemma SegmentOf(s: Text, h: Tcp, word: nat)
    requires |s| >= 20 && FromBe(s[12..14]) == word && word / 0x1000 * 4 == h.offset && word % 32 == h.flags
    requires FromBe(s[0..2]) == h.srcPort && FromBe(s[2..4]) == h.dstPort && FromBe(s[4..8]) == h.sequence
    requires FromBe(s[8..12]) == h.ack && FromBe(s[14..16]) == h.window && 20 <= h.offset <= |s|
    ensures SegmentParsed(s) ==
      match OptionsParsed(s[20..h.offset], None)
      case None => None
      case Some(mss) => Some(Segment(h, mss, s[h.offset..]))
  {
    hide FromBe, OptionsParsed;
  }

  lemma Behind(head: Text, options: Text, payload: Text)
    requires |head| == 20
    ensures var s := head + options + payload; var n := 20 + |options|;
      s == head + (options + payload) && s[20..n] == options && s[n..] == payload
  {
  }

  lemma FlagWord(offset: nat, flags: nat)
    requires 20 <= offset <= 60 && offset % 4 == 0 && flags < 0x1000
    ensures var word := (offset / 4 * 0x1000 + flags) % U16; word / 0x1000 * 4 == offset && word % 32 == flags % 32
  {
    var n := offset / 4;
    assert (n * 0x1000 + flags) % U16 == n * 0x1000 + flags;
    assert n * 0x1000 == 32 * (128 * n);
  }

  lemma SegmentFields(h: Tcp, checksum: nat, payload: Text)
    ensures var s := TcpBytes(h, checksum) + payload;
      && s[0..2] == Be(h.srcPort, 2) && s[2..4] == Be(h.dstPort, 2)
      && s[4..8] == Be(h.sequence, 4) && s[8..12] == Be(h.ack, 4)
      && s[12..14] == Be((h.offset / 4 * 0x1000 + h.flags) % U16, 2) && s[14..16] == Be(h.window, 2)
  {
    hide Be;
  }

  /** Parsing a built packet recovers everything but the upper flags, even with padding behind it. */
  lemma TcpRoundTrip(ip: Ipv4, h: Tcp, payload: Text, padding: Text)
    requires 20 + 20 + |payload| < U16 && ip.protocol == TCP && h.offset == 20 && h.flags < 0x1000
    ensures var packet := PacketParsed(TcpBuilt(ip, h, payload) + padding);
      && packet.Some? && packet.value.0 == ip.(payloadLen := 20 + |payload|)
      && SegmentParsed(packet.value.1) == Some(Segment(h.(flags := h.flags % 32), None, payload))
  {
    hide Checksum, Be, Ipv4Bytes, TcpBytes;
    var c, d := Checksum(Ipv4Bytes(ip, 20 + |payload|, 0)), TcpChecksum(ip, h, payload);
    var segment := TcpBytes(h, d) + payload;
    var s := TcpBuilt(ip, h, payload) + padding;
    assert s == Ipv4Bytes(ip, 20 + |payload|, c) + (segment + padding);
    Ipv4RoundTrip(ip, 20 + |payload|, c, segment + padding);
    assert TcpBytes(h, d) + [] + payload == segment;
    SegmentRoundTrip(h, d, [], payload);
    assert s[20..20 + |segment|] == segment;
    hide Ipv4Parsed, SegmentParsed;
  }

  /** A payload too long for the 16-bit total length does not come back whole. */
  lemma TooLongIsCut(ip: Ipv4, h: Tcp, payload: Text, padding: Text)
    requires 20 + 20 + |payload| >= U16
    ensures var packet := PacketParsed(TcpBuilt(ip, h, payload) + padding);
      packet.Some? ==> |packet.value.1| < 20 + |payload|
  {
    var s := TcpBuilt(ip, h, payload) + padding;
    hide TcpBuilt, FromBe;
    if |s| >= 20 { BeBounded(s[2..4]); }
    Powers();
  }

  // ----- UDP datagrams -----

  function UdpFront(h: Udp): (s: Text)
    ensures |s| == 6
  {
    Be(h.srcPort, 2) + Be(h.dstPort, 2) + Be(h.length, 2)
  }

  function UdpBytes(h: Udp, checksum: nat): (s: Text)
    ensures |s| == 8
  {
    UdpFront(h) + Be(checksum, 2)
  }

  function UdpChecksum(ip: Ipv4, h: Udp, payload: Text): nat {
    Checksum(Pseudo(ip, UDP, h.length) + UdpBytes(h, 0) + payload)
  }

  function UdpBuilt(ip: Ipv4, h: Udp, payload: Text): Text {
    var h' := h.(length := (8 + |payload|) % U16);
    Ipv4Built(ip, 8 + |payload|) + UdpBytes(h', UdpChecksum(ip, h', payload)) + payload
  }

  lemma UdpVerifies(ip: Ipv4, h: Udp, payload: Text)
    ensures Checksum(Pseudo(ip, UDP, h.length) + UdpBytes(h, UdpChecksum(ip, h, payload)) + payload) == 0
  {
    hide Checksum, Be;
    var front := Pseudo(ip, UDP, h.length) + UdpFront(h);
    forall c ensures Pseudo(ip, UDP, h.length) + UdpBytes(h, c) + payload == front + Be(c, 2) + payload {}
    ChecksumVerifies(front, payload);
  }

  function UdpParsed(s: Text): Option<(Udp, Text)> {
    if |s| < 8 then None
    else
      BeBounded(s[0..2]); BeBounded(s[2..4]); BeBounded(s[4..6]); Powers();
      var h := Udp(FromBe(s[0..2]), FromBe(s[2..4]), FromBe(s[4..6]));
      if h.length < 8 || h.length > |s| then None else Some((h, s[8..h.length]))
  }

  lemma UdpRoundTrip(ip: Ipv4, h: Udp, payload: Text, padding: Text)
    requires 20 + 8 + |payload| < U16 && ip.protocol == UDP
    ensures var packet := PacketParsed(UdpBuilt(ip, h, payload) + padding);
      && packet.Some? && packet.value.0 == ip.(payloadLen := 8 + |payload|)
      && UdpParsed(packet.value.1) == Some((h.(length := 8 + |payload|), payload))
  {
    Powers();
    hide Checksum, Be, FromBe, Power, Ipv4Bytes;
    var h' := h.(length := 8 + |payload|);
    var c, d := Checksum(Ipv4Bytes(ip, 8 + |payload|, 0)), UdpChecksum(ip, h', payload);
    var datagram := UdpBytes(h', d) + payload;
    var s := UdpBuilt(ip, h, payload) + padding;
    assert s == Ipv4Bytes(ip, 8 + |payload|, c) + (datagram + padding);
    Ipv4RoundTrip(ip, 8 + |payload|, c, datagram + padding);
    assert s[20..20 + |datagram|] == datagram;
    assert datagram[0..2] == Be(h.srcPort, 2) && datagram[2..4] == Be(h.dstPort, 2)
      && datagram[4..6] == Be(h'.length, 2);
    BeAt(datagram, 0, h.srcPort, 2);
    BeAt(datagram, 2, h.dstPort, 2);
    BeAt(datagram, 4, h'.length, 2);
    assert datagram[8..|datagram|] == payload;
    hide Ipv4Parsed;
  }

  /** Nor does a datagram that is too long. */
  lemma DatagramTooLongIsCut(ip: Ipv4, h: Udp, payload: Text, padding: Text)
    requires 20 + 8 + |payload| >= U16
    ensures var packet := PacketParsed(UdpBuilt(ip, h, payload) + padding);
      && (packet.Some? ==> |packet.value.1| < 8 + |payload|)
      && (packet.Some? && UdpParsed(packet.value.1).Some? ==> |UdpParsed(packet.value.1).value.1| < |payload|)
  {
    var s := UdpBuilt(ip, h, payload) + padding;
    hide UdpBuilt, FromBe;
    if |s| >= 20 { BeBounded(s[2..4]); }
    Powers();
  }

  // ----- On the wire -----

  /** The IPv4 header byte by byte (section 3.1 of RFC 791). */
  lemma Ipv4OnTheWire(h: Ipv4, len: nat)
    requires 20 + len < U16
    ensures var s := Ipv4Built(h, len);
      && s[..10] == [0x45, h.dscp, (20 + len) / 256, (20 + len) % 256, h.id / 256, h.id % 256,
           h.fragment / 256, h.fragment % 256, h.ttl, h.protocol]
      && s[12..20] == h.src + h.dst
      && Checksum(s) == 0
  {
    hide Checksum, Be;
    Ipv4Verifies(h, len);
    WordBytes(20 + len);
    WordBytes(h.id);
    WordBytes(h.fragment);
  }

  /**
   * The TCP segment byte by byte (section 3.1 of RFC 793). With the pseudo header of addresses, zero,
   * protocol number and length before it, it sums up to zero.
   */
  lemma TcpOnTheWire(ip: Ipv4, h: Tcp, payload: Text)
    requires h.offset == 20 && h.flags < 0x1000
    ensures var s := TcpBuilt(ip, h, payload); var n := (20 + |payload|) % 0x1_0000;
      && s[..20] == Ipv4Built(ip, 20 + |payload|)
      && s[20..24] == [h.srcPort / 256, h.srcPort % 256, h.dstPort / 256, h.dstPort % 256]
      && s[24..28] == [h.sequence / 0x100_0000, h.sequence / 0x1_0000 % 256, h.sequence / 0x100 % 256, h.sequence % 256]
      && s[28..32] == [h.ack / 0x100_0000, h.ack / 0x1_0000 % 256, h.ack / 0x100 % 256, h.ack % 256]
      && s[32..36] == [0x50 + h.flags / 256, h.flags % 256, h.window / 256, h.window % 256]
      && s[38..] == [0, 0] + payload
      && Checksum(ip.src + ip.dst + [0, 6, n / 256, n % 256] + s[20..]) == 0
  {
    hide Checksum, Be, TcpBytes, TcpChecksum, Ipv4Built, Pseudo;
    TcpVerifies(ip, h, payload);
    TcpFields(h, TcpChecksum(ip, h, payload));
    var segment := TcpBytes(h, TcpChecksum(ip, h, payload));
    SegmentPlaces(Ipv4Built(ip, 20 + |payload|), segment, payload);
    Prefixed(ip, TCP, 20 + |payload|, segment, payload);
  }

  lemma SegmentPlaces(header: Text, segment: Text, payload: Text)
    requires |header| == 20 && |segment| == 20
    ensures var s := header + segment + payload;
      && s[..20] == header && s[20..] == segment + payload
      && s[20..24] == segment[..4] && s[24..28] == segment[4..8] && s[28..32] == segment[8..12]
      && s[32..36] == segment[12..16] && s[38..] == segment[18..] + payload
  {
  }

  lemma Prefixed(ip: Ipv4, protocol: Byte, len: nat, head: Text, payload: Text)
    ensures var n := len % U16;
      Pseudo(ip, protocol, len) + head + payload == ip.src + ip.dst + [0, protocol, n / 256, n % 256] + (head + payload)
  {
    hide Be;
    WordBytes(len % U16);
  }

  lemma TcpFields(h: Tcp, c: nat)
    requires h.offset == 20 && h.flags < 0x1000
    ensures var s := TcpBytes(h, c);
      && s[..4] == [h.srcPort / 256, h.srcPort % 256, h.dstPort / 256, h.dstPort % 256]
      && s[4..8] == [h.sequence / 0x100_0000, h.sequence / 0x1_0000 % 256, h.sequence / 0x100 % 256, h.sequence % 256]
      && s[8..12] == [h.ack / 0x100_0000, h.ack / 0x1_0000 % 256, h.ack / 0x100 % 256, h.ack % 256]
      && s[12..16] == [0x50 + h.flags / 256, h.flags % 256, h.window / 256, h.window % 256]
      && s[18..] == [0, 0]
  {
    TcpPlaces(h, c);
    hide TcpBytes, Be;
    LongBytes(h.sequence);
    LongBytes(h.ack);
    FlagBytes(h.flags);
    WordBytes(h.srcPort);
    WordBytes(h.dstPort);
    WordBytes(h.window);
    WordBytes(0);
  }

  lemma WordBytes(v: Word16)
    ensures Be(v, 2) == [v / 256, v % 256]
  {
    BeTwo(v);
  }

  lemma LongBytes(v: Word32)
    ensures Be(v, 4) == [v / 0x100_0000, v / 0x1_0000 % 256, v / 0x100 % 256, v % 256]
  {
    BeFour(v);
    hide Be;
    assert v / 0x100_0000 < 256;
  }

  lemma TcpPlaces(h: Tcp, c: nat)
    requires h.offset == 20
    ensures var s := TcpBytes(h, c);
      && s[..4] == Be(h.srcPort, 2) + Be(h.dstPort, 2)
      && s[4..8] == Be(h.sequence, 4)
      && s[8..12] == Be(h.ack, 4)
      && s[12..16] == Be((20 / 4 * 0x1000 + h.flags) % U16, 2) + Be(h.window, 2)
      && s[18..] == Be(0, 2)
  {
    hide Be;
  }

  lemma FlagBytes(flags: nat)
    requires flags < 0x1000
    ensures Be((20 / 4 * 0x1000 + flags) % U16, 2) == [0x50 + flags / 256, flags % 256]
  {
    var word := 0x5000 + flags;
    assert (20 / 4 * 0x1000 + flags) % U16 == word;
    BeTwo(word);
    assert 0x5000 == 256 * 0x50 && word / 256 == 0x50 + flags / 256;
  }

  /** The UDP datagram byte by byte (RFC 768), with the same pseudo header. */
  lemma UdpOnTheWire(ip: Ipv4, h: Udp, payload: Text)
    ensures var s := UdpBuilt(ip, h, payload); var n := (8 + |payload|) % 0x1_0000;
      && s[..20] == Ipv4Built(ip, 8 + |payload|)
      && s[20..24] == [h.srcPort / 256, h.srcPort % 256, h.dstPort / 256, h.dstPort % 256]
      && s[24..26] == [n / 256, n % 256]
      && s[28..] == payload
      && Checksum(ip.src + ip.dst + [0, 17, n / 256, n % 256] + s[20..]) == 0
  {
    var h' := h.(length := (8 + |payload|) % U16);
    hide Checksum, Be, UdpBytes, UdpChecksum, Ipv4Built, Pseudo;
    DatagramOnTheWire(ip, h', payload, Ipv4Built(ip, 8 + |payload|));
  }

  lemma DatagramOnTheWire(ip: Ipv4, h: Udp, payload: Text, header: Text)
    requires |header| == 20
    ensures var s := header + UdpBytes(h, UdpChecksum(ip, h, payload)) + payload;
      && s[..20] == header
      && s[20..24] == [h.srcPort / 256, h.srcPort % 256, h.dstPort / 256, h.dstPort % 256]
      && s[24..26] == [h.length / 256, h.length % 256]
      && s[28..] == payload
      && Checksum(ip.src + ip.dst + [0, 17, h.length / 256, h.length % 256] + s[20..]) == 0
  {
    var c := UdpChecksum(ip, h, payload);
    hide Checksum, Be, UdpBytes, UdpChecksum, Pseudo;
    UdpVerifies(ip, h, payload);
    UdpFields(h, c);
    DatagramPlaces(header, UdpBytes(h, c), payload);
    PrefixedWord(ip, UDP, h.length, UdpBytes(h, c), payload);
  }

  lemma PrefixedWord(ip: Ipv4, protocol: Byte, n: Word16, head: Text, payload: Text)
    ensures Pseudo(ip, protocol, n) + head + payload ==
      ip.src + ip.dst + [0, protocol, n / 256, n % 256] + (head + payload)
  {
    hide Be;
    WordBytes(n);
    assert n % U16 == n;
  }

  lemma DatagramPlaces(header: Text, datagram: Text, payload: Text)
    requires |header| == 20 && |datagram| == 8
    ensures var s := header + datagram + payload;
      s[..20] == header && s[20..] == datagram + payload
        && s[20..24] == datagram[..4] && s[24..26] == datagram[4..6] && s[28..] == payload
  {
  }

  lemma UdpFields(h: Udp, c: nat)
    ensures UdpBytes(h, c)[..4] == [h.srcPort / 256, h.srcPort % 256, h.dstPort / 256, h.dstPort % 256]
    ensures UdpBytes(h, c)[4..6] == [h.length / 256, h.length % 256]
  {
    hide Be;
    WordBytes(h.srcPort);
    WordBytes(h.dstPort);
    WordBytes(h.length);
  }

  // ----- From the wire -----

  lemma FromTwo(s: Text, at: nat)
    requires at + 2 <= |s|
    ensures FromBe(s[at..at + 2]) == Pair(s[at], s[at + 1]) < U16
    ensures Be(FromBe(s[at..at + 2]), 2) == s[at..at + 2]
  {
    var t := s[at..at + 2];
    assert t[..1] == [s[at]] && t[..1][..0] == [];
    assert FromBe(t[..1]) == s[at] && FromBe(t) == 256 * FromBe(t[..1]) + s[at + 1];
    BeInverse(t);
  }

  /** Which headers are read at all, and that building what was read gives the same bytes again. */
  lemma Ipv4ReadBack(s: Text)
    ensures Ipv4Parsed(s).Some? <==>
      |s| >= 20 && s[0] == 0x45 && Pair(s[2], s[3]) >= 20 && (s[9] <= 142 || 253 <= s[9])
    ensures Ipv4Parsed(s).Some? ==> var h := Ipv4Parsed(s).value;
      && h.payloadLen == Pair(s[2], s[3]) - 20
      && Ipv4Bytes(h, h.payloadLen, FromBe(s[10..12])) == s[..20]
  {
    Ipv4Says(s);
    hide Ipv4Parsed, Pair, Be, FromBe;
    if Ipv4Parsed(s).Some? {
      var h := Ipv4Parsed(s).value;
      FromTwo(s, 2);
      FromTwo(s, 4);
      FromTwo(s, 6);
      FromTwo(s, 10);
      assert (20 + h.payloadLen) % U16 == FromBe(s[2..4]);
      Ipv4Parts(s, h, h.payloadLen, FromBe(s[10..12]));
    }
  }

  lemma Ipv4Says(s: Text)
    ensures Ipv4Parsed(s).Some? <==>
      |s| >= 20 && s[0] == 0x45 && Pair(s[2], s[3]) >= 20 && (s[9] <= 142 || 253 <= s[9])
    ensures Ipv4Parsed(s).Some? ==> var h := Ipv4Parsed(s).value;
      && h.dscp == s[1] && h.payloadLen == FromBe(s[2..4]) - 20 && h.id == FromBe(s[4..6])
      && h.fragment == FromBe(s[6..8]) && h.ttl == s[8] && h.protocol == s[9]
      && h.src == s[12..16] && h.dst == s[16..20]
  {
    if |s| >= 20 { FromTwo(s, 2); }
    hide Be, FromBe, Pair;
  }

  lemma Ipv4Parts(s: Text, h: Ipv4, len: nat, c: nat)
    requires |s| >= 20 && s[0] == 0x45 && h.dscp == s[1] && h.ttl == s[8] && h.protocol == s[9]
    requires Be((20 + len) % U16, 2) == s[2..4] && Be(h.id, 2) == s[4..6] && Be(h.fragment, 2) == s[6..8]
    requires Be(c, 2) == s[10..12] && h.src == s[12..16] && h.dst == s[16..20]
    ensures Ipv4Bytes(h, len, c) == s[..20]
  {
    hide Be;
  }

  /** The same for datagrams. */
  lemma UdpReadBack(s: Text)
    ensures UdpParsed(s).Some? <==> |s| >= 8 && 8 <= Pair(s[4], s[5]) <= |s|
    ensures UdpParsed(s).Some? ==> var (h, payload) := UdpParsed(s).value;
      UdpBytes(h, FromBe(s[6..8])) + payload == s[..Pair(s[4], s[5])]
  {
    if |s| >= 8 {
      hide Be, FromBe, Pair;
      FromTwo(s, 0);
      FromTwo(s, 2);
      FromTwo(s, 4);
      FromTwo(s, 6);
      if UdpParsed(s).Some? {
        var (h, payload) := UdpParsed(s).value;
        UdpParts(s, h, FromBe(s[6..8]));
        assert s[..8] + s[8..h.length] == s[..h.length];
      }
    }
  }

  lemma UdpParts(s: Text, h: Udp, c: nat)
    requires |s| >= 8 && Be(h.srcPort, 2) == s[0..2] && Be(h.dstPort, 2) == s[2..4]
    requires Be(h.length, 2) == s[4..6] && Be(c, 2) == s[6..8]
    ensures UdpBytes(h, c) == s[..8]
  {
    hide Be;
  }

  lemma Offset(word: nat) returns (n: nat, low: nat)
    requires word < U16
    ensures n < 16 && low < 0x1000 && word == 0x1000 * n + low
    ensures word / 0x1000 == n && n * 4 / 4 == n && word % 0x1000 == low && word % 32 == low % 32
  {
    n, low := word / 0x1000, word % 0x1000;
    assert 0x1000 * n == 32 * (128 * n);
  }

  /** The word of offset and flags, when it has no other bits. */
  lemma FlagsBack(h: Tcp, word: nat)
    requires word < U16 && word / 0x1000 >= 5 && h.offset == word / 0x1000 * 4 && h.flags == word % 32
    ensures Be((h.offset / 4 * 0x1000 + h.flags) % U16, 2) == Be(word, 2) <==> word % 0x1000 < 32
  {
    hide Be;
    var n, low := Offset(word);
    var again := (h.offset / 4 * 0x1000 + h.flags) % U16;
    assert again == 0x1000 * n + low % 32;
    TwoBytes(again, word);
  }

  /** And for segments, exactly as long as they have none of the bits the parser drops. */
  lemma SegmentReadBack(s: Text)
    requires SegmentParsed(s).Some?
    ensures var h := SegmentParsed(s).value.header;
      TcpBytes(h, FromBe(s[16..18])) == s[..20] <==>
        Pair(s[12], s[13]) % 0x1000 < 32 && s[18] == 0 && s[19] == 0
  {
    hide SegmentParsed, TcpBytes, Be, FromBe, Pair;
    SegmentHeader(s);
    FieldsBack(s);
    var h, word := SegmentParsed(s).value.header, FromBe(s[12..14]);
    TcpParts(s, h, FromBe(s[16..18]));
    FlagsBack(h, word);
    ZeroBytes(s);
  }

  lemma ZeroBytes(s: Text)
    requires |s| >= 20
    ensures Be(0, 2) == s[18..20] <==> s[18] == 0 && s[19] == 0
  {
    WordBytes(0);
    hide Be;
    var t := s[18..20];
    assert t[0] == s[18] && t[1] == s[19];
  }

  lemma FieldsBack(s: Text)
    requires |s| >= 20
    ensures FromBe(s[0..2]) < U16 && FromBe(s[2..4]) < U16 && FromBe(s[14..16]) < U16
    ensures FromBe(s[12..14]) == Pair(s[12], s[13]) < U16
    ensures Be(FromBe(s[0..2]), 2) == s[0..2] && Be(FromBe(s[2..4]), 2) == s[2..4]
    ensures Be(FromBe(s[4..8]), 4) == s[4..8] && Be(FromBe(s[8..12]), 4) == s[8..12]
    ensures Be(FromBe(s[12..14]), 2) == s[12..14]
    ensures Be(FromBe(s[14..16]), 2) == s[14..16] && Be(FromBe(s[16..18]), 2) == s[16..18]
  {
    hide Be, FromBe, Pair;
    FromTwo(s, 0);
    FromTwo(s, 2);
    FromTwo(s, 12);
    FromTwo(s, 14);
    FromTwo(s, 16);
    BeInverse(s[4..8]);
    BeInverse(s[8..12]);
  }

  lemma TwoBytes(v: Word16, w: Word16)
    ensures Be(v, 2) == Be(w, 2) <==> v == w
  {
    Powers();
    BeRoundTrip(v, 2);
    BeRoundTrip(w, 2);
  }

  lemma SegmentHeader(s: Text)
    requires SegmentParsed(s).Some?
    ensures |s| >= 20 && FromBe(s[12..14]) / 0x1000 >= 5
    ensures var h, word := SegmentParsed(s).value.header, FromBe(s[12..14]);
      && h.srcPort == FromBe(s[0..2]) && h.dstPort == FromBe(s[2..4]) && h.sequence == FromBe(s[4..8])
      && h.ack == FromBe(s[8..12]) && h.offset == word / 0x1000 * 4 && h.flags == word % 32
      && h.window == FromBe(s[14..16])
  {
    hide FromBe, OptionsParsed;
  }

  lemma TcpParts(s: Text, h: Tcp, c: nat)
    requires |s| >= 20
    requires Be(h.srcPort, 2) == s[0..2] && Be(h.dstPort, 2) == s[2..4] && Be(h.sequence, 4) == s[4..8]
    requires Be(h.ack, 4) == s[8..12] && Be(h.window, 2) == s[14..16] && Be(c, 2) == s[16..18]
    ensures TcpBytes(h, c) == s[..20] <==>
      Be((h.offset / 4 * 0x1000 + h.flags) % U16, 2) == s[12..14] && Be(0, 2) == s[18..20]
  {
    hide Be;
    var t := TcpBytes(h, c);
    assert t[12..14] == Be((h.offset / 4 * 0x1000 + h.flags) % U16, 2) && t[18..20] == Be(0, 2);
    if t == s[..20] { assert s[12..14] == t[12..14] && s[18..20] == t[18..20]; }
    else { assert t[..12] == s[..12] && t[14..18] == s[14..18]; }
  }

  // ----- The builders -----

  method Ipv4ToBytes(h: Ipv4, len: nat) returns (result: Text)
    ensures result == Ipv4Built(h, len)
  {
    hide Checksum, Be;
    result := [0x45];
    result := result + [h.dscp];
    result := result + Be((20 + len) % U16, 2);
    result := result + Be(h.id, 2);
    result := result + Be(h.fragment, 2);
    result := result + [h.ttl];
    result := result + [h.protocol];
    result := result + Be(0, 2);
    result := result + h.src;
    result := result + h.dst;
    assert result == Ipv4Bytes(h, len, 0);
    var checksum := InetChecksum(result);
    result := result[..10] + Be(checksum, 2) + result[12..];
  }

  method BuildTcp(ip: Ipv4, h: Tcp, payload: Text) returns (result: Text)
    ensures result == TcpBuilt(ip, h, payload)
  {
    hide Checksum, Be, TcpBytes, Ipv4Built;
    var buf: Text := ip.src + ip.dst;
    buf := buf + [0];
    buf := buf + [TCP];
    buf := buf + Be((20 + |payload|) % U16, 2);
    buf := buf + TcpBytes(h, 0);
    buf := buf + payload;
    assert buf == Pseudo(ip, TCP, 20 + |payload|) + TcpBytes(h, 0) + payload;
    var checksum := InetChecksum(buf);
    var header := TcpBytes(h, checksum);
    result := Ipv4ToBytes(ip, |header| + |payload|);
    result := result + header;
    result := result + payload;
  }

  method BuildUdp(ip: Ipv4, h: Udp, payload: Text) returns (result: Text)
    ensures result == UdpBuilt(ip, h, payload)
  {
    hide Checksum, Be, UdpBytes, Ipv4Built;
    var filled := h.(length := (8 + |payload|) % U16);
    var buf: Text := ip.src + ip.dst;
    buf := buf + [0];
    buf := buf + [UDP];
    buf := buf + Be(filled.length, 2);
    buf := buf + UdpBytes(filled, 0);
    buf := buf + payload;
    assert buf == Pseudo(ip, UDP, filled.length) + UdpBytes(filled, 0) + payload;
    var checksum := InetChecksum(buf);
    var header := UdpBytes(filled, checksum);
    result := Ipv4ToBytes(ip, |header| + |payload|);
    result := result + header;
    result := result + payload;
  }
}
