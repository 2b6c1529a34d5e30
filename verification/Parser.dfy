/** Decoding captured frames: every offset is checked against the captured length before it is used. */
module Parser {
  import opened Packets

  const ETHERNET_BYTES := 14
  const IPV4_BYTES := 20
  const TCP_BYTES := 20
  const UDP_BYTES := 8
  const ETHERTYPE_IPV4 := 0x0800
  const PROTOCOL_ICMP: Byte := 1
  const PROTOCOL_TCP: Byte := 6
  const PROTOCOL_UDP: Byte := 17

  // --- big-endian fields ---

  function U16(data: seq<Byte>, o: nat): (r: int)
    requires o + 2 <= |data|
    ensures 0 <= r < 0x1_0000
  {
    var hi: int, lo: int := data[o], data[o + 1];
    hi * 0x100 + lo
  }

  function U32(data: seq<Byte>, o: nat): (r: int)
    requires o + 4 <= |data|
    ensures 0 <= r < 0x1_0000_0000
  {
    U16(data, o) * 0x1_0000 + U16(data, o + 2)
  }

  function HighNibble(b: Byte): nat { b / 16 }

  function LowNibble(b: Byte): nat { b % 16 }

  // --- the decoded header chain, layer by layer ---

  function EmptyPacket(wireLength: nat, ts: Timeval, data: seq<Byte>): ParsedPacket
    requires ETHERNET_BYTES <= |data|
  {
    ParsedPacket(ts, |data|, wireLength, data[6..12], data[0..6], false, 0, 0, 0, 0, Unknown, 0, 0, 0, None, 0)
  }

  /** An IPv4 header starts at byte 14, claims version 4 and at least five words, and is wholly captured. */
  predicate HasIpv4(data: seq<Byte>) {
    && ETHERNET_BYTES + IPV4_BYTES <= |data|
    && U16(data, 12) == ETHERTYPE_IPV4
    && HighNibble(data[ETHERNET_BYTES]) == 4
    && IPV4_BYTES <= IpHeaderBytes(data)
    && TransportStart(data) <= |data|
  }

  function IpHeaderBytes(data: seq<Byte>): nat
    requires ETHERNET_BYTES < |data|
  {
    LowNibble(data[ETHERNET_BYTES]) * 4
  }

  function TransportStart(data: seq<Byte>): nat
    requires ETHERNET_BYTES < |data|
  {
    ETHERNET_BYTES + IpHeaderBytes(data)
  }

  function Protocol(data: seq<Byte>): Byte
    requires HasIpv4(data)
  {
    data[ETHERNET_BYTES + 9]
  }

  /** Bytes of the datagram after its header that are claimed by its length field. */
  function ClaimedBytes(data: seq<Byte>): nat
    requires HasIpv4(data)
  {
    Monus(U16(data, ETHERNET_BYTES + 2), IpHeaderBytes(data))
  }

  function Monus(a: int, b: int): nat { if a > b then a - b else 0 }

  function Least(a: nat, b: nat): nat { if a <= b then a else b }

  /** Bytes after the IPv4 header that are both claimed and captured. */
  function IpPayloadBytes(data: seq<Byte>): nat
    requires HasIpv4(data)
  {
    Least(|data| - TransportStart(data), ClaimedBytes(data))
  }

  function WithIpv4(pkt: ParsedPacket, data: seq<Byte>): ParsedPacket
    requires HasIpv4(data)
  {
    pkt.(hasIp := true, srcIp := U32(data, ETHERNET_BYTES + 12), dstIp := U32(data, ETHERNET_BYTES + 16),
         ttl := data[ETHERNET_BYTES + 8], ipProtocol := Protocol(data))
  }

  predicate HasTcp(data: seq<Byte>) {
    && HasIpv4(data) && Protocol(data) == PROTOCOL_TCP
    && TransportStart(data) + TCP_BYTES <= |data|
    && TCP_BYTES <= TcpHeaderBytes(data)
    && TransportStart(data) + TcpHeaderBytes(data) <= |data|
  }

  function TcpHeaderBytes(data: seq<Byte>): nat
    requires ETHERNET_BYTES < |data| && TransportStart(data) + TCP_BYTES <= |data|
  {
    HighNibble(data[TransportStart(data) + 12]) * 4
  }

  predicate HasUdp(data: seq<Byte>) {
    HasIpv4(data) && Protocol(data) == PROTOCOL_UDP && TransportStart(data) + UDP_BYTES <= |data|
  }

  function WithTransport(pkt: ParsedPacket, data: seq<Byte>): ParsedPacket
    requires HasIpv4(data)
  {
    var o := TransportStart(data);
    if HasTcp(data) then
      var h := TcpHeaderBytes(data);
      pkt.(transport := TCP, srcPort := U16(data, o), dstPort := U16(data, o + 2), tcpFlags := data[o + 13],
           payload := Some(o + h), payloadLength := Monus(IpPayloadBytes(data), h))
    else if HasUdp(data) then
      pkt.(transport := UDP, srcPort := U16(data, o), dstPort := U16(data, o + 2),
           payload := Some(o + UDP_BYTES), payloadLength := Monus(IpPayloadBytes(data), UDP_BYTES))
    else if Protocol(data) == PROTOCOL_ICMP then
      pkt.(transport := ICMP, payload := Some(o), payloadLength := IpPayloadBytes(data))
    else
      pkt
  }

  /** What decoding a frame yields; the payload is where the decoded headers end. */
  function Parse(data: seq<Byte>, wireLength: nat, ts: Timeval): Option<ParsedPacket> {
    if |data| < ETHERNET_BYTES then None
    else
      var pkt := EmptyPacket(wireLength, ts, data);
      Some(if HasIpv4(data) then WithTransport(WithIpv4(pkt, data), data) else pkt)
  }

  /** The parser: one pass down the headers, returning what it has at the first one it cannot read.
      A null pointer is `None`. */
  method ParsePacket(frame: Option<seq<Byte>>, wireLength: nat, ts: Timeval) returns (r: Option<ParsedPacket>)
    ensures r == if frame.None? then None else Parse(frame.value, wireLength, ts)
  {
    if frame.None? || |frame.value| < ETHERNET_BYTES {
      return None;
    }
    var data, caplen := frame.value, |frame.value|;
    var pkt := EmptyPacket(wireLength, ts, data);
    if U16(data, 12) != ETHERTYPE_IPV4 {
      return Some(pkt);
    }
    var offset := ETHERNET_BYTES;
    if caplen < offset + IPV4_BYTES {
      return Some(pkt);
    }
    if HighNibble(data[offset]) != 4 {
      return Some(pkt);
    }
    var ipHeaderBytes := LowNibble(data[offset]) * 4;
    if ipHeaderBytes < IPV4_BYTES || caplen < offset + ipHeaderBytes {
      return Some(pkt);
    }
    pkt := pkt.(hasIp := true, srcIp := U32(data, offset + 12), dstIp := U32(data, offset + 16));
    pkt := pkt.(ttl := data[offset + 8], ipProtocol := data[offset + 9]);

    var totalLength := U16(data, offset + 2);
    var available := if caplen > offset + ipHeaderBytes then caplen - offset - ipHeaderBytes else 0;
    var claimed := if totalLength > ipHeaderBytes then totalLength - ipHeaderBytes else 0;
    var ipPayloadLength := if available < claimed then available else claimed;
    offset := offset + ipHeaderBytes;

    if pkt.ipProtocol == PROTOCOL_TCP {
      if caplen < offset + TCP_BYTES {
        return Some(pkt);
      }
      var tcpHeaderBytes := HighNibble(data[offset + 12]) * 4;
      if tcpHeaderBytes < TCP_BYTES || caplen < offset + tcpHeaderBytes {
        return Some(pkt);
      }
      pkt := pkt.(transport := TCP, srcPort := U16(data, offset), dstPort := U16(data, offset + 2));
      pkt := pkt.(tcpFlags := data[offset + 13]);
      var payloadOffset := offset + tcpHeaderBytes;
      if payloadOffset <= caplen {
        var rest := if ipPayloadLength > tcpHeaderBytes then ipPayloadLength - tcpHeaderBytes else 0;
        pkt := pkt.(payload := Some(payloadOffset), payloadLength := Least(caplen - payloadOffset, rest));
      }
    } else if pkt.ipProtocol == PROTOCOL_UDP {
      if caplen < offset + UDP_BYTES {
        return Some(pkt);
      }
      pkt := pkt.(transport := UDP, srcPort := U16(data, offset), dstPort := U16(data, offset + 2));
      var payloadOffset := offset + UDP_BYTES;
      if payloadOffset <= caplen {
        var rest := if ipPayloadLength > UDP_BYTES then ipPayloadLength - UDP_BYTES else 0;
        pkt := pkt.(payload := Some(payloadOffset), payloadLength := Least(caplen - payloadOffset, rest));
      }
    } else if pkt.ipProtocol == PROTOCOL_ICMP {
      pkt := pkt.(transport := ICMP);
      if offset <= caplen {
        pkt := pkt.(payload := Some(offset), payloadLength := ipPayloadLength);
      }
    }
    return Some(pkt);
  }

  /** The payload bytes a packet points at. */
  function PayloadOf(pkt: ParsedPacket, data: seq<Byte>): seq<Byte>
    requires pkt.payload.Some? ==> pkt.payload.value + pkt.payloadLength <= |data|
  {
    if pkt.payload.None? then [] else data[pkt.payload.value..pkt.payload.value + pkt.payloadLength]
  }

  /** On every byte string the payload slice lies inside the capture, and only a decoded transport has one. */
  lemma PayloadInBounds(data: seq<Byte>, wireLength: nat, ts: Timeval)
    ensures match Parse(data, wireLength, ts)
            case None => |data| < ETHERNET_BYTES
            case Some(pkt) =>
              && |data| >= ETHERNET_BYTES
              && (pkt.payload.Some? <==> pkt.transport != Unknown)
              && (pkt.transport != Unknown ==> pkt.hasIp)
              && (pkt.payload.Some? ==> pkt.payload.value + pkt.payloadLength <= |data|)
  {}

  // --- the fields, by their place in the frame ---

  /** A frame carries IPv4 if its type bytes say so, and its header has version 4, at least five words and is
      wholly captured; otherwise nothing but its Ethernet addresses is decoded. */
  lemma Ipv4ByOffset(data: seq<Byte>, wireLength: nat, ts: Timeval)
    requires |data| >= 14
    ensures Parse(data, wireLength, ts).Some?
    ensures var r := Parse(data, wireLength, ts).value;
            && r.timestamp == ts && r.captureLength == |data| && r.wireLength == wireLength
            && r.dstMac == data[0..6] && r.srcMac == data[6..12]
            && (r.hasIp <==>
                  && |data| >= 34 && data[12] == 8 && data[13] == 0 && data[14] / 16 == 4 && data[14] % 16 >= 5
                  && |data| >= 14 + data[14] % 16 * 4)
            && (r.hasIp ==>
                  && r.srcIp == data[26] as int * 0x100_0000 + data[27] as int * 0x1_0000 + data[28] as int * 0x100 + data[29]
                  && r.dstIp == data[30] as int * 0x100_0000 + data[31] as int * 0x1_0000 + data[32] as int * 0x100 + data[33]
                  && r.ttl == data[22] && r.ipProtocol == data[23])
            && (!r.hasIp ==>
                  r == ParsedPacket(ts, |data|, wireLength, data[6..12], data[0..6], false, 0, 0, 0, 0,
                                    Unknown, 0, 0, 0, None, 0))
  {
    hide WithTransport;
    if HasIpv4(data) {
      TransportKeepsIpv4(WithIpv4(EmptyPacket(wireLength, ts, data), data), data);
    }
  }

  lemma TransportKeepsIpv4(pkt: ParsedPacket, data: seq<Byte>)
    requires HasIpv4(data)
    ensures var r := WithTransport(pkt, data);
            r == pkt.(transport := r.transport, srcPort := r.srcPort, dstPort := r.dstPort, tcpFlags := r.tcpFlags,
                      payload := r.payload, payloadLength := r.payloadLength)
  {
    hide HasIpv4, U16, HasTcp, HasUdp, IpPayloadBytes, TcpHeaderBytes;
  }

  /** In an IPv4 frame whose transport header starts at `o`: what is decoded of it, and where the payload lies,
      which is as long as the datagram claims and the capture holds. */
  lemma TransportByOffset(data: seq<Byte>, wireLength: nat, ts: Timeval, o: nat)
    requires |data| >= 34 && Parse(data, wireLength, ts).Some? && Parse(data, wireLength, ts).value.hasIp
    requires o == 14 + data[14] % 16 * 4
    ensures o <= |data|
    ensures var r := Parse(data, wireLength, ts).value;
            && (r.transport == TCP <==>
                  && data[23] == 6 && o + 20 <= |data| && data[o + 12] / 16 >= 5
                  && o + data[o + 12] / 16 * 4 <= |data|)
            && (r.transport == UDP <==> data[23] == 17 && o + 8 <= |data|)
            && (r.transport == ICMP <==> data[23] == 1)
            && (r.transport == TCP || r.transport == UDP ==>
                  && r.srcPort == data[o] as int * 0x100 + data[o + 1]
                  && r.dstPort == data[o + 2] as int * 0x100 + data[o + 3])
            && (r.transport != TCP && r.transport != UDP ==> r.srcPort == 0 && r.dstPort == 0)
            && r.tcpFlags == (if r.transport == TCP then data[o + 13] else 0)
            && match r.transport
               case TCP => PayloadFrom(r, data, o, data[o + 12] / 16 * 4)
               case UDP => PayloadFrom(r, data, o, 8)
               case ICMP => PayloadFrom(r, data, o, 0)
               case Unknown => r.payload == None && r.payloadLength == 0
  {
    var pkt := WithIpv4(EmptyPacket(wireLength, ts, data), data);
    hide WithIpv4;
    assert Parse(data, wireLength, ts).value == WithTransport(pkt, data);
    assert pkt.transport == Unknown && pkt.srcPort == 0 && pkt.dstPort == 0 && pkt.tcpFlags == 0
           && pkt.payload == None && pkt.payloadLength == 0 by { Ipv4SetsNoTransport(wireLength, ts, data); }
  }

  lemma Ipv4SetsNoTransport(wireLength: nat, ts: Timeval, data: seq<Byte>)
    requires HasIpv4(data)
    ensures var pkt := WithIpv4(EmptyPacket(wireLength, ts, data), data);
            && pkt.transport == Unknown && pkt.srcPort == 0 && pkt.dstPort == 0 && pkt.tcpFlags == 0
            && pkt.payload == None && pkt.payloadLength == 0
  {}

  /** The payload follows `header` bytes of transport header at `o`: the least of what is captured there and what
      bytes 16 and 17, the datagram's length, leave after both headers. */
  predicate PayloadFrom(r: ParsedPacket, data: seq<Byte>, o: nat, header: nat)
    requires |data| >= 34 && 14 <= o
  {
    var captured, claimed := |data| - o - header, data[16] as int * 0x100 + data[17] - (o - 14) - header;
    && r.payload == Some(o + header)
    && r.payloadLength <= captured
    && (claimed <= 0 ==> r.payloadLength == 0)
    && (0 < claimed <= captured ==> r.payloadLength == claimed)
    && (claimed > captured ==> r.payloadLength == captured)
  }

  // --- truncated captures ---

  lemma FieldsOfPrefix(data: seq<Byte>, n: nat, o: nat)
    requires n <= |data|
    ensures o + 2 <= n ==> U16(data[..n], o) == U16(data, o)
    ensures o + 4 <= n ==> U32(data[..n], o) == U32(data, o)
  {}

  lemma Ipv4OfPrefix(data: seq<Byte>, n: nat)
    requires n <= |data| && HasIpv4(data[..n])
    ensures HasIpv4(data) && TransportStart(data) == TransportStart(data[..n])
    ensures Protocol(data) == Protocol(data[..n]) && ClaimedBytes(data) == ClaimedBytes(data[..n])
    ensures IpPayloadBytes(data[..n]) <= IpPayloadBytes(data)
  {
    FieldsOfPrefix(data, n, 12);
    FieldsOfPrefix(data, n, ETHERNET_BYTES + 2);
  }

  lemma TransportOfPrefix(data: seq<Byte>, n: nat)
    requires n <= |data| && HasIpv4(data[..n])
    ensures HasIpv4(data) && TransportStart(data) == TransportStart(data[..n])
    ensures HasTcp(data[..n]) ==> HasTcp(data) && TcpHeaderBytes(data) == TcpHeaderBytes(data[..n])
    ensures HasUdp(data[..n]) ==> HasUdp(data)
  {
    Ipv4OfPrefix(data, n);
  }

  lemma WithIpv4OfPrefix(pkt: ParsedPacket, data: seq<Byte>, n: nat)
    requires n <= |data| && HasIpv4(data[..n])
    ensures HasIpv4(data) && WithIpv4(pkt, data) == WithIpv4(pkt, data[..n])
  {
    hide U32;
    Ipv4OfPrefix(data, n);
    FieldsOfPrefix(data, n, ETHERNET_BYTES + 12);
    FieldsOfPrefix(data, n, ETHERNET_BYTES + 16);
  }

  lemma WithTransportOfPrefix(pkt: ParsedPacket, data: seq<Byte>, n: nat)
    requires n <= |data| && HasIpv4(data[..n])
    requires WithTransport(pkt, data[..n]).transport != Unknown && pkt.transport == Unknown
    ensures HasIpv4(data)
    ensures var long := WithTransport(pkt, data);
            var short := WithTransport(pkt, data[..n]);
            && long == short.(payloadLength := long.payloadLength)
            && short.payload.Some? && short.payloadLength <= long.payloadLength
  {
    hide U16, HasIpv4, IpPayloadBytes, TcpHeaderBytes;
    Ipv4OfPrefix(data, n);
    TransportOfPrefix(data, n);
    FieldsOfPrefix(data, n, TransportStart(data));
    FieldsOfPrefix(data, n, TransportStart(data) + 2);
  }

  lemma PayloadOfPrefix(short: ParsedPacket, long: ParsedPacket, data: seq<Byte>, n: nat)
    requires n <= |data| && short.payload.Some? && long.payload == short.payload
    requires short.payload.value + short.payloadLength <= n && long.payload.value + long.payloadLength <= |data|
    requires short.payloadLength <= long.payloadLength
    ensures PayloadOf(short, data[..n]) <= PayloadOf(long, data)
  {}

  /** Capturing more of a frame never changes a header that was already decoded, and only extends the payload. */
  lemma TruncationIsMonotone(data: seq<Byte>, n: nat, wireLength: nat, ts: Timeval)
    requires n <= |data|
    requires Parse(data[..n], wireLength, ts).Some? && Parse(data[..n], wireLength, ts).value.transport != Unknown
    ensures Parse(data, wireLength, ts).Some?
    ensures var short := Parse(data[..n], wireLength, ts).value;
            var long := Parse(data, wireLength, ts).value;
            && long == short.(captureLength := |data|, payloadLength := long.payloadLength)
            && short.payload.Some? && long.payload.Some?
            && short.payload.value + short.payloadLength <= n && long.payload.value + long.payloadLength <= |data|
            && PayloadOf(short, data[..n]) <= PayloadOf(long, data)
  {
    PayloadInBounds(data[..n], wireLength, ts);
    PayloadInBounds(data, wireLength, ts);
    var short := Parse(data[..n], wireLength, ts).value;
    var long := Parse(data, wireLength, ts).value;
    assert HasIpv4(data[..n]);
    hide HasIpv4, WithIpv4, WithTransport;
    var pkt := EmptyPacket(wireLength, ts, data[..n]);
    WithIpv4OfPrefix(pkt, data, n);
    WithTransportOfPrefix(WithIpv4(pkt, data), data, n);
    CaptureLengthIsKept(EmptyPacket(wireLength, ts, data), pkt, data);
    assert long == short.(captureLength := |data|, payloadLength := long.payloadLength);
    PayloadOfPrefix(short, long, data, n);
  }

  /** Later layers copy the captured length through. */
  lemma CaptureLengthIsKept(a: ParsedPacket, b: ParsedPacket, data: seq<Byte>)
    requires HasIpv4(data) && a == b.(captureLength := |data|)
    ensures WithTransport(WithIpv4(a, data), data) ==
            WithTransport(WithIpv4(b, data), data).(captureLength := |data|)
  {}

  /** The queued copy of a parsed frame owns exactly the bytes the parser pointed at. */
  lemma QueuedCopyOwnsPayload(data: seq<Byte>, wireLength: nat, ts: Timeval)
    requires |data| >= ETHERNET_BYTES
    ensures var pkt := Parse(data, wireLength, ts).value;
            && (pkt.payload.Some? ==> pkt.payload.value + pkt.payloadLength <= |data|)
            && MakeQueuedPacket(pkt, data).payload == PayloadOf(pkt, data)
            && MakeQueuedPacket(pkt, data).meta == pkt.(payload := None, payloadLength := 0)
  {
    hide HasIpv4, WithIpv4, WithTransport;
    PayloadInBounds(data, wireLength, ts);
  }
}
