/** The frame builders, the parser's printer, and the round trip through both. */
module FrameBuilder {
  import opened Packets
  import opened Parser

  // --- layouts ---

  /** The two bytes of a 16-bit value in network order. */
  function Be16(x: int): (r: seq<Byte>)
    requires 0 <= x < 0x1_0000
    ensures |r| == 2 && U16(r, 0) == x
  {
    [x / 0x100, x % 0x100]
  }

  function Be32(x: Ip): (r: seq<Byte>)
    ensures |r| == 4 && U32(r, 0) == x
  {
    Be16(x / 0x1_0000) + Be16(x % 0x1_0000)
  }

  function Zeros(n: nat): (r: seq<Byte>)
    ensures |r| == n && forall i | 0 <= i < n :: r[i] == 0
  {
    seq(n, _ => 0)
  }

  function Eth(ethertype: int, payload: seq<Byte>): seq<Byte>
    requires 0 <= ethertype < 0x1_0000
  {
    [0xbb, 0xbb, 0xbb, 0xbb, 0xbb, 0xbb, 0xaa, 0xaa, 0xaa, 0xaa, 0xaa, 0xaa] + Be16(ethertype) + payload
  }

  /** The length field holds the low 16 bits of the datagram's length. */
  function Ipv4(src: Ip, dst: Ip, protocol: Byte, payload: seq<Byte>, ihlWords: nat): seq<Byte>
    requires 5 <= ihlWords <= 15
  {
    [0x40 + ihlWords, 0] + Be16((ihlWords * 4 + |payload|) % 0x1_0000) + [0, 0, 0, 0, 64, protocol, 0, 0]
    + Be32(src) + Be32(dst) + Zeros(ihlWords * 4 - IPV4_BYTES) + payload
  }

  function Tcp(srcPort: Port, dstPort: Port, flags: Byte, payload: seq<Byte>, dataOffsetWords: nat): seq<Byte>
    requires 5 <= dataOffsetWords <= 15
  {
    Be16(srcPort) + Be16(dstPort) + [0, 0, 0, 0, 0, 0, 0, 0] + [dataOffsetWords * 16, flags]
    + Zeros(dataOffsetWords * 4 - 14) + payload
  }

  function Udp(srcPort: Port, dstPort: Port, payload: seq<Byte>): seq<Byte> {
    Be16(srcPort) + Be16(dstPort) + Be16((8 + |payload|) % 0x1_0000) + [0, 0] + payload
  }

  // --- the builders themselves: a zeroed header, filled in by offset, with the payload appended ---

  method BuildEth(ethertype: int, payload: seq<Byte>) returns (frame: seq<Byte>)
    requires 0 <= ethertype < 0x1_0000
    ensures frame == Eth(ethertype, payload)
  {
    frame := Zeros(14);
    for i := 0 to 6
      invariant |frame| == 14
      invariant forall k | 0 <= k < i :: frame[k] == 0xbb
      invariant forall k | 6 <= k < 6 + i :: frame[k] == 0xaa
    {
      frame := frame[i := 0xbb][6 + i := 0xaa];
    }
    frame := Put(frame, 12, Be16(ethertype));
    frame := frame + payload;
  }

  /** `memcpy` into a header. */
  function Put(header: seq<Byte>, at: nat, field: seq<Byte>): (r: seq<Byte>)
    requires at + |field| <= |header|
    ensures |r| == |header|
    ensures forall k | 0 <= k < |header| :: r[k] == if at <= k < at + |field| then field[k - at] else header[k]
  {
    header[..at] + field + header[at + |field|..]
  }

  method BuildIpv4(src: Ip, dst: Ip, protocol: Byte, payload: seq<Byte>, ihlWords: nat) returns (datagram: seq<Byte>)
    requires 5 <= ihlWords <= 15
    ensures datagram == Ipv4(src, dst, protocol, payload, ihlWords)
  {
    var headerBytes := ihlWords * 4;
    var header := Zeros(headerBytes);
    header := header[0 := 0x40 + ihlWords];
    header := Put(header, 2, Be16((headerBytes + |payload|) % 0x1_0000));
    header := header[8 := 64];
    header := header[9 := protocol];
    header := Put(header, 12, Be32(src));
    header := Put(header, 16, Be32(dst));
    datagram := header + payload;
  }

  method BuildTcp(srcPort: Port, dstPort: Port, flags: Byte, payload: seq<Byte>, dataOffsetWords: nat)
    returns (segment: seq<Byte>)
    requires 5 <= dataOffsetWords <= 15
    ensures segment == Tcp(srcPort, dstPort, flags, payload, dataOffsetWords)
  {
    var header := Zeros(dataOffsetWords * 4);
    header := Put(header, 0, Be16(srcPort));
    header := Put(header, 2, Be16(dstPort));
    header := header[12 := dataOffsetWords * 16];
    header := header[13 := flags];
    segment := header + payload;
  }

  method BuildUdp(srcPort: Port, dstPort: Port, payload: seq<Byte>) returns (datagram: seq<Byte>)
    ensures datagram == Udp(srcPort, dstPort, payload)
  {
    var header := Zeros(8);
    header := Put(header, 0, Be16(srcPort));
    header := Put(header, 2, Be16(dstPort));
    header := Put(header, 4, Be16((8 + |payload|) % 0x1_0000));
    assert header == Be16(srcPort) + Be16(dstPort) + Be16((8 + |payload|) % 0x1_0000) + [0, 0];
    datagram := header + payload;
  }

  // --- round trips ---

  /** The fixed fields of a built IPv4 frame, whatever follows the datagram. */
  lemma HeaderFound(src: Ip, dst: Ip, protocol: Byte, payload: seq<Byte>, ihlWords: nat, padding: seq<Byte>)
    requires 5 <= ihlWords <= 15
    ensures var data := Eth(0x0800, Ipv4(src, dst, protocol, payload, ihlWords)) + padding;
            && |data| == 14 + ihlWords * 4 + |payload| + |padding|
            && U16(data, 12) == ETHERTYPE_IPV4
            && data[14] == 0x40 + ihlWords && U16(data, 16) == (ihlWords * 4 + |payload|) % 0x1_0000
            && data[22] == 64 && data[23] == protocol
            && U32(data, 26) == src && U32(data, 30) == dst
  {
    var data := Eth(0x0800, Ipv4(src, dst, protocol, payload, ihlWords)) + padding;
    assert U16(data, 12) == U16(Be16(ETHERTYPE_IPV4), 0);
    assert U16(data, 16) == U16(Be16((ihlWords * 4 + |payload|) % 0x1_0000), 0);
    assert U32(data, 26) == U32(Be32(src), 0);
    assert U32(data, 30) == U32(Be32(dst), 0);
  }

  lemma BodyFound(src: Ip, dst: Ip, protocol: Byte, payload: seq<Byte>, ihlWords: nat, padding: seq<Byte>)
    requires 5 <= ihlWords <= 15
    ensures var data := Eth(0x0800, Ipv4(src, dst, protocol, payload, ihlWords)) + padding;
            14 + ihlWords * 4 <= |data| && data[14 + ihlWords * 4..] == payload + padding
  {}

  /** The datagram's bytes that its 16-bit length field still claims. */
  function Claimed(ihlWords: nat, length: nat, padding: nat): nat {
    Least(length + padding, Monus((ihlWords * 4 + length) % 0x1_0000, ihlWords * 4))
  }

  /** The length field claims the whole datagram exactly when its total length needs no more than 16 bits. */
  lemma ClaimedIffFits(ihlWords: nat, length: nat, padding: nat)
    requires 5 <= ihlWords <= 15
    ensures if ihlWords * 4 + length <= 65535 then Claimed(ihlWords, length, padding) == length
            else Claimed(ihlWords, length, padding) < length
  {
    var total := ihlWords * 4 + length;
    assert total >= 0x1_0000 ==> total % 0x1_0000 <= total - 0x1_0000;
  }

  /** What the parser finds in a built IPv4 frame. */
  lemma Ipv4Found(src: Ip, dst: Ip, protocol: Byte, payload: seq<Byte>, ihlWords: nat, padding: seq<Byte>)
    requires 5 <= ihlWords <= 15
    ensures var data := Eth(0x0800, Ipv4(src, dst, protocol, payload, ihlWords)) + padding;
            && HasIpv4(data) && Protocol(data) == protocol
            && TransportStart(data) == 14 + ihlWords * 4
            && |data| == TransportStart(data) + |payload| + |padding|
            && data[TransportStart(data)..] == payload + padding
            && IpPayloadBytes(data) == Claimed(ihlWords, |payload|, |padding|)
            && U32(data, 26) == src && U32(data, 30) == dst && data[22] == 64
  {
    hide Eth, Ipv4, U16, U32;
    HeaderFound(src, dst, protocol, payload, ihlWords, padding);
    BodyFound(src, dst, protocol, payload, ihlWords, padding);
  }

  lemma MacsFound(ethertype: int, payload: seq<Byte>, padding: seq<Byte>)
    requires 0 <= ethertype < 0x1_0000
    ensures var data := Eth(ethertype, payload) + padding;
            && |data| >= ETHERNET_BYTES
            && data[0..6] == [0xbb, 0xbb, 0xbb, 0xbb, 0xbb, 0xbb] && data[6..12] == [0xaa, 0xaa, 0xaa, 0xaa, 0xaa, 0xaa]
  {}

  /** The 16-bit fields and payload of a segment, read through the frame that carries it. */
  lemma SegmentAt(data: seq<Byte>, o: nat, segment: seq<Byte>, padding: seq<Byte>)
    requires o <= |data| && data[o..] == segment + padding
    ensures forall k | 0 <= k < |segment| :: data[o + k] == segment[k]
    ensures forall h | 0 <= h <= |segment| :: data[o + h..o + |segment|] == segment[h..]
    ensures |segment| >= 4 ==> U16(data, o) == U16(segment, 0) && U16(data, o + 2) == U16(segment, 2)
  {
    forall k | 0 <= k < |segment| ensures data[o + k] == segment[k] {
      assert data[o..][k] == segment[k];
    }
    forall h | 0 <= h <= |segment| ensures data[o + h..o + |segment|] == segment[h..] {}
    if |segment| >= 4 {
      assert data[o + 0] == segment[0] && data[o + 1] == segment[1];
      assert data[o + 2] == segment[2] && data[o + 3] == segment[3];
    }
  }

  lemma TcpLayout(srcPort: Port, dstPort: Port, flags: Byte, payload: seq<Byte>, dataOffsetWords: nat)
    requires 5 <= dataOffsetWords <= 15
    ensures var segment := Tcp(srcPort, dstPort, flags, payload, dataOffsetWords);
            && |segment| == dataOffsetWords * 4 + |payload|
            && U16(segment, 0) == srcPort && U16(segment, 2) == dstPort
            && HighNibble(segment[12]) == dataOffsetWords && segment[13] == flags
            && segment[dataOffsetWords * 4..] == payload
  {
    var segment := Tcp(srcPort, dstPort, flags, payload, dataOffsetWords);
    assert U16(segment, 0) == U16(Be16(srcPort), 0);
    assert U16(segment, 2) == U16(Be16(dstPort), 0);
  }

  lemma UdpLayout(srcPort: Port, dstPort: Port, payload: seq<Byte>)
    ensures var datagram := Udp(srcPort, dstPort, payload);
            && |datagram| == UDP_BYTES + |payload|
            && U16(datagram, 0) == srcPort && U16(datagram, 2) == dstPort
            && datagram[UDP_BYTES..] == payload
  {
    var datagram := Udp(srcPort, dstPort, payload);
    assert U16(datagram, 0) == U16(Be16(srcPort), 0);
    assert U16(datagram, 2) == U16(Be16(dstPort), 0);
  }

  /** Parsing undoes printing, for TCP, also with padding behind: every field comes back whatever the size,
      and the payload does exactly when the datagram fits its 16-bit length field. */
  lemma TcpRoundTrip(src: Ip, dst: Ip, ihlWords: nat, srcPort: Port, dstPort: Port, flags: Byte, dataOffsetWords: nat,
                     payload: seq<Byte>, padding: seq<Byte>, wireLength: nat, ts: Timeval)
    requires 5 <= ihlWords <= 15 && 5 <= dataOffsetWords <= 15
    ensures var segment := Tcp(srcPort, dstPort, flags, payload, dataOffsetWords);
            var data := Eth(0x0800, Ipv4(src, dst, 6, segment, ihlWords)) + padding;
            var r := Parse(data, wireLength, ts);
            && r.Some? && r.value.timestamp == ts && r.value.captureLength == |data| && r.value.wireLength == wireLength
            && r.value.dstMac == [0xbb, 0xbb, 0xbb, 0xbb, 0xbb, 0xbb]
            && r.value.srcMac == [0xaa, 0xaa, 0xaa, 0xaa, 0xaa, 0xaa]
            && r.value.hasIp && r.value.srcIp == src && r.value.dstIp == dst && r.value.ttl == 64
            && r.value.ipProtocol == 6 && r.value.transport == TCP
            && r.value.srcPort == srcPort && r.value.dstPort == dstPort
            && r.value.tcpFlags == flags
            && r.value.payload.Some? && r.value.payload.value + r.value.payloadLength <= |data|
            && (PayloadOf(r.value, data) == payload <==> ihlWords * 4 + dataOffsetWords * 4 + |payload| <= 65535)
  {
    hide Eth, Ipv4, Tcp, U16, U32, HasIpv4, IpPayloadBytes, TransportStart, Claimed;
    var segment := Tcp(srcPort, dstPort, flags, payload, dataOffsetWords);
    TcpLayout(srcPort, dstPort, flags, payload, dataOffsetWords);
    var data := Eth(0x0800, Ipv4(src, dst, 6, segment, ihlWords)) + padding;
    Ipv4Found(src, dst, 6, segment, ihlWords, padding);
    MacsFound(0x0800, Ipv4(src, dst, 6, segment, ihlWords), padding);
    ClaimedIffFits(ihlWords, |segment|, |padding|);
    SegmentAt(data, TransportStart(data), segment, padding);
    assert HasTcp(data) && TcpHeaderBytes(data) == dataOffsetWords * 4;
  }

  /** Parsing undoes printing, for UDP, on the same condition. */
  lemma UdpRoundTrip(src: Ip, dst: Ip, ihlWords: nat, srcPort: Port, dstPort: Port,
                     payload: seq<Byte>, padding: seq<Byte>, wireLength: nat, ts: Timeval)
    requires 5 <= ihlWords <= 15
    ensures var datagram := Udp(srcPort, dstPort, payload);
            var data := Eth(0x0800, Ipv4(src, dst, 17, datagram, ihlWords)) + padding;
            var r := Parse(data, wireLength, ts);
            && r.Some? && r.value.timestamp == ts && r.value.captureLength == |data| && r.value.wireLength == wireLength
            && r.value.dstMac == [0xbb, 0xbb, 0xbb, 0xbb, 0xbb, 0xbb]
            && r.value.srcMac == [0xaa, 0xaa, 0xaa, 0xaa, 0xaa, 0xaa]
            && r.value.hasIp && r.value.srcIp == src && r.value.dstIp == dst && r.value.ttl == 64
            && r.value.ipProtocol == 17 && r.value.transport == UDP
            && r.value.srcPort == srcPort && r.value.dstPort == dstPort
            && r.value.payload.Some? && r.value.payload.value + r.value.payloadLength <= |data|
            && (PayloadOf(r.value, data) == payload <==> ihlWords * 4 + 8 + |payload| <= 65535)
  {
    hide Eth, Ipv4, Udp, U16, U32, HasIpv4, IpPayloadBytes, TransportStart, Claimed;
    var datagram := Udp(srcPort, dstPort, payload);
    UdpLayout(srcPort, dstPort, payload);
    var data := Eth(0x0800, Ipv4(src, dst, 17, datagram, ihlWords)) + padding;
    Ipv4Found(src, dst, 17, datagram, ihlWords, padding);
    MacsFound(0x0800, Ipv4(src, dst, 17, datagram, ihlWords), padding);
    ClaimedIffFits(ihlWords, |datagram|, |padding|);
    SegmentAt(data, TransportStart(data), datagram, padding);
    assert !HasTcp(data) && HasUdp(data);
  }

  /** Parsing undoes printing, for ICMP, whose message is the payload. */
  lemma IcmpRoundTrip(src: Ip, dst: Ip, ihlWords: nat, message: seq<Byte>, padding: seq<Byte>, wireLength: nat, ts: Timeval)
    requires 5 <= ihlWords <= 15
    ensures var data := Eth(0x0800, Ipv4(src, dst, 1, message, ihlWords)) + padding;
            var r := Parse(data, wireLength, ts);
            && r.Some? && r.value.timestamp == ts && r.value.captureLength == |data| && r.value.wireLength == wireLength
            && r.value.dstMac == [0xbb, 0xbb, 0xbb, 0xbb, 0xbb, 0xbb]
            && r.value.srcMac == [0xaa, 0xaa, 0xaa, 0xaa, 0xaa, 0xaa]
            && r.value.hasIp && r.value.srcIp == src && r.value.dstIp == dst && r.value.ttl == 64
            && r.value.ipProtocol == 1 && r.value.transport == ICMP
            && r.value.srcPort == 0 && r.value.dstPort == 0 && r.value.tcpFlags == 0
            && r.value.payload == Some(14 + ihlWords * 4) && r.value.payload.value + r.value.payloadLength <= |data|
            && (PayloadOf(r.value, data) == message <==> ihlWords * 4 + |message| <= 65535)
  {
    hide Eth, Ipv4, U16, U32, HasIpv4, IpPayloadBytes, TransportStart, Claimed;
    var data := Eth(0x0800, Ipv4(src, dst, 1, message, ihlWords)) + padding;
    Ipv4Found(src, dst, 1, message, ihlWords, padding);
    MacsFound(0x0800, Ipv4(src, dst, 1, message, ihlWords), padding);
    ClaimedIffFits(ihlWords, |message|, |padding|);
    SegmentAt(data, TransportStart(data), message, padding);
    assert !HasTcp(data) && !HasUdp(data);
  }

  /** An IPv4 datagram of any other protocol is addressed but has no transport and no payload. */
  lemma OtherProtocolsHaveNoPayload(src: Ip, dst: Ip, ihlWords: nat, protocol: Byte, body: seq<Byte>, padding: seq<Byte>,
                                    wireLength: nat, ts: Timeval)
    requires 5 <= ihlWords <= 15 && protocol != 1 && protocol != 6 && protocol != 17
    ensures var r := Parse(Eth(0x0800, Ipv4(src, dst, protocol, body, ihlWords)) + padding, wireLength, ts);
            && r.Some? && r.value.hasIp && r.value.srcIp == src && r.value.dstIp == dst && r.value.ipProtocol == protocol
            && r.value.transport == Unknown && r.value.payload == None && r.value.payloadLength == 0
            && r.value.srcPort == 0 && r.value.dstPort == 0 && r.value.tcpFlags == 0
  {
    hide Eth, Ipv4, U16, U32, HasIpv4, IpPayloadBytes, TransportStart;
    Ipv4Found(src, dst, protocol, body, ihlWords, padding);
  }

  /** A frame of any other type, whatever it carries, yields its addresses and nothing else. */
  lemma OtherFramesHaveNoIp(ethertype: int, body: seq<Byte>, wireLength: nat, ts: Timeval)
    requires 0 <= ethertype < 0x1_0000 && ethertype != 0x0800
    ensures var data := Eth(ethertype, body);
            Parse(data, wireLength, ts) ==
            Some(ParsedPacket(ts, |data|, wireLength, [0xaa, 0xaa, 0xaa, 0xaa, 0xaa, 0xaa],
                              [0xbb, 0xbb, 0xbb, 0xbb, 0xbb, 0xbb], false, 0, 0, 0, 0, Unknown, 0, 0, 0, None, 0))
  {
    var data := Eth(ethertype, body);
    assert U16(data, 12) == U16(Be16(ethertype), 0);
    assert data[0..6] == [0xbb, 0xbb, 0xbb, 0xbb, 0xbb, 0xbb] && data[6..12] == [0xaa, 0xaa, 0xaa, 0xaa, 0xaa, 0xaa];
  }

  /** What the builders write and the parser does not read: everything is zero but the length of a UDP datagram,
      modulo its 16 bits. */
  lemma UnreadBytes(src: Ip, dst: Ip, protocol: Byte, ihlWords: nat, srcPort: Port, dstPort: Port, flags: Byte,
                    dataOffsetWords: nat, payload: seq<Byte>)
    requires 5 <= ihlWords <= 15 && 5 <= dataOffsetWords <= 15
    ensures var header := Ipv4(src, dst, protocol, payload, ihlWords);
            && |header| == ihlWords * 4 + |payload| && header[1] == 0
            && (forall k | 4 <= k < 8 || 10 <= k < 12 || 20 <= k < ihlWords * 4 :: header[k] == 0)
    ensures var segment := Tcp(srcPort, dstPort, flags, payload, dataOffsetWords);
            && |segment| == dataOffsetWords * 4 + |payload| && segment[12] % 16 == 0
            && (forall k | 4 <= k < 12 || 14 <= k < dataOffsetWords * 4 :: segment[k] == 0)
    ensures var datagram := Udp(srcPort, dstPort, payload);
            && |datagram| == 8 + |payload| && datagram[6] == 0 && datagram[7] == 0
            && datagram[4] as int * 0x100 + datagram[5] == (8 + |payload|) % 0x1_0000
  {}
}
