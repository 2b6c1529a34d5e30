/** The flow tracker on values: what one packet does to a per-IP record, to a shard and to the tracker. */
module FlowModel {
  import opened Packets

  datatype Config = Config(
    numShards: nat,
    portScanWindowMs: int,
    portScanDistinctPortThreshold: nat,
    synFloodWindowMs: int,
    synFloodPendingThreshold: nat,
    alertDebounceMs: int,
    idleTtlMs: int,
    sweepIntervalPackets: nat,
    maxTrackedIpsPerShard: nat)

  datatype FlowKey = FlowKey(srcIp: Ip, dstIp: Ip, srcPort: Port, dstPort: Port)

  datatype PortEvent = PortEvent(ms: int, port: Port)

  datatype SynEvent = SynEvent(ms: int, key: FlowKey)

  // --- what a packet is, to the rules ---

  function Ms(p: QueuedPacket): int { TimevalToMs(p.meta.timestamp) }

  predicate NotAfter(a: Timeval, b: Timeval) {
    a.sec < b.sec || (a.sec == b.sec && a.usec <= b.usec)
  }

  /** Timestamps in order stay in order as milliseconds. */
  lemma MsKeepsOrder(a: Timeval, b: Timeval)
    requires 0 <= a.usec < 1_000_000 && 0 <= b.usec < 1_000_000 && NotAfter(a, b)
    ensures TimevalToMs(a) <= TimevalToMs(b)
  {}

  function KeyOf(p: QueuedPacket): FlowKey {
    FlowKey(p.meta.srcIp, p.meta.dstIp, p.meta.srcPort, p.meta.dstPort)
  }

  predicate IsTcp(p: QueuedPacket) { p.meta.transport.TCP? }

  predicate IsSynOnly(p: QueuedPacket) {
    IsTcp(p) && HasSyn(p.meta.tcpFlags) && !HasAck(p.meta.tcpFlags)
  }

  predicate IsAck(p: QueuedPacket) { IsTcp(p) && HasAck(p.meta.tcpFlags) }

  predicate IsConnectionAttempt(p: QueuedPacket) {
    IsSynOnly(p) || (p.meta.transport.UDP? && p.meta.srcPort >= 1024)
  }

  // --- the per-IP record ---

  /** The record without its count map, which is always the bag of ports in the FIFO (see PortBag). */
  datatype IpRecord = IpRecord(
    recentDstPorts: seq<PortEvent>,
    pendingSyns: map<FlowKey, int>,
    pendingSynOrder: seq<SynEvent>,
    lastSeenMs: int,
    lastPortScanAlertMs: Option<int>,
    lastSynFloodAlertMs: Option<int>)

  const EMPTY_RECORD := IpRecord([], map[], [], 0, None, None)

  function PortBag(events: seq<PortEvent>): multiset<Port> {
    if events == [] then multiset{} else multiset{events[0].port} + PortBag(events[1..])
  }

  function PortSet(events: seq<PortEvent>): set<Port> {
    set e <- events :: e.port
  }

  /** How many events at the front of the FIFO are older than the cutoff. */
  function ExpiredPorts(events: seq<PortEvent>, cutoff: int): nat {
    if events != [] && events[0].ms < cutoff then 1 + ExpiredPorts(events[1..], cutoff) else 0
  }

  function ExpiredSyns(order: seq<SynEvent>, cutoff: int): nat {
    if order != [] && order[0].ms < cutoff then 1 + ExpiredSyns(order[1..], cutoff) else 0
  }

  /** Half-open connections left once `expired` has been popped: only a popped entry that still
      carries the connection's current timestamp removes it. */
  function WithoutExpired(pending: map<FlowKey, int>, expired: seq<SynEvent>): map<FlowKey, int> {
    map k | k in pending && SynEvent(pending[k], k) !in expired :: pending[k]
  }

  /** Whether a rule may alert again; the caller stamps the time when it does. */
  predicate DebounceAllows(cfg: Config, last: Option<int>, now: int) {
    last.None? || now - last.value >= cfg.alertDebounceMs
  }

  /** What one rule did: the record it left, the alerts it raised and the queue entries it popped. */
  datatype Observation = Observation(record: IpRecord, alerts: seq<Alert>, pops: nat)

  /** The port FIFO once this attempt has been appended. */
  function WithAttempt(fifo: seq<PortEvent>, p: QueuedPacket): seq<PortEvent> {
    fifo + [PortEvent(Ms(p), p.meta.dstPort)]
  }

  /** The pending map before expiry, with this packet's SYN or ACK applied. */
  function WithPacket(pending: map<FlowKey, int>, p: QueuedPacket): map<FlowKey, int> {
    if IsSynOnly(p) then pending[KeyOf(p) := Ms(p)]
    else if IsAck(p) then pending - {KeyOf(p)}
    else pending
  }

  function WithSyn(order: seq<SynEvent>, p: QueuedPacket): seq<SynEvent> {
    if IsSynOnly(p) then order + [SynEvent(Ms(p), KeyOf(p))] else order
  }

  function ObservePort(cfg: Config, r: IpRecord, p: QueuedPacket): Observation {
    var queued := WithAttempt(r.recentDstPorts, p);
    ExpiredPortsBound(queued, Ms(p) - cfg.portScanWindowMs);
    var pops := ExpiredPorts(queued, Ms(p) - cfg.portScanWindowMs);
    var live := queued[pops..];
    var distinct := |PortSet(live)|;
    var fires := distinct >= cfg.portScanDistinctPortThreshold && DebounceAllows(cfg, r.lastPortScanAlertMs, Ms(p));
    Observation(
      r.(recentDstPorts := live, lastPortScanAlertMs := if fires then Some(Ms(p)) else r.lastPortScanAlertMs),
      if fires
      then [Alert(PortScan, p.meta.srcIp, p.meta.dstIp, 0, 0, DistinctPorts(distinct, cfg.portScanWindowMs))]
      else [],
      pops)
  }

  function ObserveSyn(cfg: Config, r: IpRecord, p: QueuedPacket): Observation {
    var order := WithSyn(r.pendingSynOrder, p);
    ExpiredSynsBound(order, Ms(p) - cfg.synFloodWindowMs);
    var pops := ExpiredSyns(order, Ms(p) - cfg.synFloodWindowMs);
    var live := WithoutExpired(WithPacket(r.pendingSyns, p), order[..pops]);
    var fires := |live| >= cfg.synFloodPendingThreshold && DebounceAllows(cfg, r.lastSynFloodAlertMs, Ms(p));
    Observation(
      r.(pendingSyns := live, pendingSynOrder := order[pops..],
         lastSynFloodAlertMs := if fires then Some(Ms(p)) else r.lastSynFloodAlertMs),
      if fires
      then [Alert(SynFlood, p.meta.srcIp, 0, 0, 0, PendingSyns(|live|, cfg.synFloodWindowMs))]
      else [],
      pops)
  }

  function ObserveRecord(cfg: Config, r: IpRecord, p: QueuedPacket): Observation {
    var seen := r.(lastSeenMs := Ms(p));
    var ports := if IsConnectionAttempt(p) then ObservePort(cfg, seen, p) else Observation(seen, [], 0);
    var syns := if IsTcp(p) then ObserveSyn(cfg, ports.record, p) else Observation(ports.record, [], 0);
    Observation(syns.record, ports.alerts + syns.alerts, ports.pops + syns.pops)
  }

  lemma ExpiredPortsBound(events: seq<PortEvent>, cutoff: int)
    ensures ExpiredPorts(events, cutoff) <= |events|
  {}

  lemma ExpiredSynsBound(order: seq<SynEvent>, cutoff: int)
    ensures ExpiredSyns(order, cutoff) <= |order|
  {}

  // --- shards ---

  datatype ShardState = ShardState(perIp: map<Ip, IpRecord>, observationsSinceSweep: nat)

  function RecordOf(records: map<Ip, IpRecord>, ip: Ip): IpRecord {
    if ip in records then records[ip] else EMPTY_RECORD
  }

  /** Records that survive idle eviction. */
  function NotIdle(cfg: Config, records: map<Ip, IpRecord>, now: int, keep: Ip): set<Ip> {
    set ip | ip in records && (ip == keep || records[ip].lastSeenMs >= now - cfg.idleTtlMs)
  }

  function Max(a: int, b: int): int { if a >= b then a else b }

  /** What a sweep may leave behind, for some iteration order of the hash map: everything that is not
      idle when that fits under the cap, otherwise the current IP and as many others as the cap allows. */
  ghost predicate Swept(cfg: Config, before: map<Ip, IpRecord>, after: map<Ip, IpRecord>, now: int, keep: Ip) {
    var alive := NotIdle(cfg, before, now, keep);
    && after.Keys <= alive
    && (forall ip <- after :: after[ip] == before[ip])
    && (keep in before ==> keep in after)
    && (|alive| <= cfg.maxTrackedIpsPerShard ==> after.Keys == alive)
    && (|alive| > cfg.maxTrackedIpsPerShard && keep in before ==> |after| == Max(cfg.maxTrackedIpsPerShard, 1))
  }

  /** Whether the next observation on a shard ends with a sweep. */
  predicate SweepDue(cfg: Config, s: ShardState) {
    s.observationsSinceSweep + 1 >= cfg.sweepIntervalPackets
  }

  /** The records of a shard once the packet's own record has observed it. */
  function Touched(cfg: Config, records: map<Ip, IpRecord>, p: QueuedPacket): map<Ip, IpRecord> {
    records[p.meta.srcIp := ObserveRecord(cfg, RecordOf(records, p.meta.srcIp), p).record]
  }

  /** One observation on a shard, under its lock. */
  ghost predicate ShardStep(cfg: Config, s: ShardState, p: QueuedPacket, s': ShardState, alerts: seq<Alert>) {
    var touched := Touched(cfg, s.perIp, p);
    && alerts == ObserveRecord(cfg, RecordOf(s.perIp, p.meta.srcIp), p).alerts
    && if SweepDue(cfg, s)
       then s'.observationsSinceSweep == 0 && Swept(cfg, touched, s'.perIp, Ms(p), p.meta.srcIp)
       else s' == ShardState(touched, s.observationsSinceSweep + 1)
  }

  // --- the tracker ---

  type Tracker = seq<ShardState>

  function ShardIndex(hash: Ip -> nat, shards: nat, ip: Ip): (i: nat)
    requires shards > 0
    ensures i < shards
  {
    hash(ip) % shards
  }

  /** The constructor turns a shard count of zero into one. */
  function ShardCount(cfg: Config): (n: nat)
    ensures n > 0
  {
    if cfg.numShards == 0 then 1 else cfg.numShards
  }

  function InitTracker(cfg: Config): Tracker {
    seq(ShardCount(cfg), _ => ShardState(map[], 0))
  }

  ghost predicate TrackerStep(cfg: Config, hash: Ip -> nat, t: Tracker, p: QueuedPacket, t': Tracker, alerts: seq<Alert>) {
    if !p.meta.hasIp || t == [] then
      t' == t && alerts == []
    else
      var i := ShardIndex(hash, |t|, p.meta.srcIp);
      && |t'| == |t|
      && ShardStep(cfg, t[i], p, t'[i], alerts)
      && forall j | 0 <= j < |t| && j != i :: t'[j] == t[j]
  }
}
