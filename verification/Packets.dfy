/** The values that flow through the pipeline: decoded packets, queued packets and alerts. */
module Packets {

  datatype Option<+T> = None | Some(value: T)

  type Byte = x: int | 0 <= x < 0x100
  type Port = x: int | 0 <= x < 0x1_0000
  type Ip = x: int | 0 <= x < 0x1_0000_0000

  datatype Transport = Unknown | TCP | UDP | ICMP

  datatype Timeval = Timeval(sec: int, usec: int)

  /** A decoded frame. `payload` is an offset into the captured bytes, `None` for the null pointer. */
  datatype ParsedPacket = ParsedPacket(
    timestamp: Timeval,
    captureLength: nat,
    wireLength: nat,
    srcMac: seq<Byte>,
    dstMac: seq<Byte>,
    hasIp: bool,
    srcIp: Ip,
    dstIp: Ip,
    ttl: Byte,
    ipProtocol: Byte,
    transport: Transport,
    srcPort: Port,
    dstPort: Port,
    tcpFlags: Byte,
    payload: Option<nat>,
    payloadLength: nat)

  /** A packet that owns its payload bytes; its `meta.payload` is not used. */
  datatype QueuedPacket = QueuedPacket(meta: ParsedPacket, payload: seq<Byte>)

  datatype AnomalyType = PortScan | HighEntropyPayload | SynFlood | SignatureMatch

  /** What the text of an alert is formatted from. */
  datatype Detail =
    | DistinctPorts(ports: nat, windowMs: int)
    | PendingSyns(syns: nat, windowMs: int)
    | EntropyOver(entropy: real, bytes: nat)
    | KnownBadHash

  datatype Alert = Alert(
    kind: AnomalyType,
    srcIp: Ip,
    dstIp: Ip,
    srcPort: Port,
    dstPort: Port,
    detail: Detail)

  /** Milliseconds of a timestamp; the source's division truncates toward zero. */
  function TimevalToMs(tv: Timeval): int {
    tv.sec * 1000 + if tv.usec >= 0 then tv.usec / 1000 else -(-tv.usec / 1000)
  }

  // A TCP flag byte tested against a one-bit mask.
  predicate HasSyn(flags: Byte) { flags / 2 % 2 == 1 }

  predicate HasAck(flags: Byte) { flags / 16 % 2 == 1 }

  /** The owning copy of a parsed packet, taken while the captured bytes are still valid. */
  function MakeQueuedPacket(parsed: ParsedPacket, frame: seq<Byte>): QueuedPacket
    requires parsed.payload.Some? ==> parsed.payload.value + parsed.payloadLength <= |frame|
  {
    var owned := if parsed.payload.Some? && parsed.payloadLength > 0
      then frame[parsed.payload.value..parsed.payload.value + parsed.payloadLength]
      else [];
    QueuedPacket(parsed.(payload := None, payloadLength := 0), owned)
  }
}
