/** One source's packet history, recounted naively, and the proof that the incremental record refines it. */
module FlowHistory {
  import opened Packets
  import opened FlowModel

  type History = seq<QueuedPacket>

  /** The record after a history that no sweep interrupted. */
  function RecordAfter(cfg: Config, h: History): IpRecord {
    if h == [] then EMPTY_RECORD
    else ObserveRecord(cfg, RecordAfter(cfg, h[..|h| - 1]), h[|h| - 1]).record
  }

  // --- the naive detector: recount the whole history at every packet ---

  /** Distinct ports this source tried to connect to at or after `cutoff`. */
  function PortsProbed(h: History, cutoff: int): set<Port> {
    set i | 0 <= i < |h| && IsConnectionAttempt(h[i]) && Ms(h[i]) >= cutoff :: h[i].meta.dstPort
  }

  /** `h[i]` is the latest SYN of its connection and no packet with ACK came after it. */
  predicate IsHalfOpenAt(h: History, i: nat)
    requires i < |h|
  {
    && IsSynOnly(h[i])
    && forall j | i < j < |h| && KeyOf(h[j]) == KeyOf(h[i]) :: !IsSynOnly(h[j]) && !IsAck(h[j])
  }

  /** Connections whose latest SYN is at or after `cutoff` and has not been followed by an ACK. */
  function HalfOpen(h: History, cutoff: int): set<FlowKey> {
    set i | 0 <= i < |h| && IsHalfOpenAt(h, i) && Ms(h[i]) >= cutoff :: KeyOf(h[i])
  }

  /** When each rule last alerted. */
  datatype Stamps = Stamps(portScan: Option<int>, synFlood: Option<int>)

  predicate PortRuleFires(cfg: Config, p: QueuedPacket, ports: nat, last: Option<int>) {
    IsConnectionAttempt(p) && ports >= cfg.portScanDistinctPortThreshold && DebounceAllows(cfg, last, Ms(p))
  }

  predicate SynRuleFires(cfg: Config, p: QueuedPacket, syns: nat, last: Option<int>) {
    IsTcp(p) && syns >= cfg.synFloodPendingThreshold && DebounceAllows(cfg, last, Ms(p))
  }

  /** What the two rules raise, given the two counts and the stamps they are debounced against. */
  function RuleAlerts(cfg: Config, p: QueuedPacket, ports: nat, syns: nat, last: Stamps): seq<Alert> {
    (if PortRuleFires(cfg, p, ports, last.portScan)
     then [Alert(PortScan, p.meta.srcIp, p.meta.dstIp, 0, 0, DistinctPorts(ports, cfg.portScanWindowMs))]
     else []) +
    (if SynRuleFires(cfg, p, syns, last.synFlood)
     then [Alert(SynFlood, p.meta.srcIp, 0, 0, 0, PendingSyns(syns, cfg.synFloodWindowMs))]
     else [])
  }

  function RuleStamps(cfg: Config, p: QueuedPacket, ports: nat, syns: nat, last: Stamps): Stamps {
    Stamps(if PortRuleFires(cfg, p, ports, last.portScan) then Some(Ms(p)) else last.portScan,
           if SynRuleFires(cfg, p, syns, last.synFlood) then Some(Ms(p)) else last.synFlood)
  }

  /** The two counts the rules look at, by full recount at the last packet. */
  function PortCount(cfg: Config, h: History): nat
    requires h != []
  {
    |PortsProbed(h, Ms(h[|h| - 1]) - cfg.portScanWindowMs)|
  }

  function SynCount(cfg: Config, h: History): nat
    requires h != []
  {
    |HalfOpen(h, Ms(h[|h| - 1]) - cfg.synFloodWindowMs)|
  }

  function NaiveStamps(cfg: Config, h: History): Stamps {
    if h == [] then Stamps(None, None)
    else RuleStamps(cfg, h[|h| - 1], PortCount(cfg, h), SynCount(cfg, h), NaiveStamps(cfg, h[..|h| - 1]))
  }

  /** The alerts raised by the last packet of a history. */
  function NaiveAlerts(cfg: Config, h: History): seq<Alert>
    requires h != []
  {
    RuleAlerts(cfg, h[|h| - 1], PortCount(cfg, h), SynCount(cfg, h), NaiveStamps(cfg, h[..|h| - 1]))
  }

  // --- what the record's queues keep of the history ---

  function Attempts(h: History): seq<PortEvent> {
    if h == [] then []
    else
      var p := h[|h| - 1];
      Attempts(h[..|h| - 1]) + if IsConnectionAttempt(p) then [PortEvent(Ms(p), p.meta.dstPort)] else []
  }

  function SynEvents(h: History): seq<SynEvent> {
    if h == [] then []
    else
      var p := h[|h| - 1];
      SynEvents(h[..|h| - 1]) + if IsSynOnly(p) then [SynEvent(Ms(p), KeyOf(p))] else []
  }

  /** Half-open connections and their latest SYN, with nothing ever expiring. */
  function LatestSyns(h: History): map<FlowKey, int> {
    if h == [] then map[]
    else
      var p := h[|h| - 1];
      var before := LatestSyns(h[..|h| - 1]);
      if IsSynOnly(p) then before[KeyOf(p) := Ms(p)]
      else if IsAck(p) then before - {KeyOf(p)}
      else before
  }

  /** The port FIFO is the history's attempts minus a prefix, all of it older than `bound`. */
  ghost predicate PortsTrack(fifo: seq<PortEvent>, h: History, bound: int) {
    exists k: nat :: k <= |Attempts(h)| && PortsCutAt(fifo, Attempts(h), bound, k)
  }

  ghost predicate PortsCutAt(fifo: seq<PortEvent>, all: seq<PortEvent>, bound: int, k: nat)
    requires k <= |all|
  {
    && fifo == all[k..]
    && forall i | 0 <= i < k :: all[i].ms < bound
  }

  /** Every pending SYN still has its ordering entry. */
  ghost predicate OrderCovers(pending: map<FlowKey, int>, order: seq<SynEvent>) {
    forall k <- pending :: SynEvent(pending[k], k) in order
  }

  /** The pending map is the history's half-open connections minus some whose SYN is older than `bound`. */
  ghost predicate PendingTracks(pending: map<FlowKey, int>, all: map<FlowKey, int>, bound: int) {
    && (forall k <- pending :: k in all && all[k] == pending[k])
    && (forall k <- all :: k !in pending ==> all[k] < bound)
  }

  // --- one observation, timestamps in any order ---

  lemma {:induction false} ExpiredPortsPrefix(events: seq<PortEvent>, cutoff: int)
    ensures var n := ExpiredPorts(events, cutoff);
            && n <= |events|
            && (forall i | 0 <= i < n :: events[i].ms < cutoff)
            && (n < |events| ==> events[n].ms >= cutoff)
  {
    if events != [] && events[0].ms < cutoff {
      ExpiredPortsPrefix(events[1..], cutoff);
      var n := ExpiredPorts(events, cutoff);
      forall i | 0 <= i < n ensures events[i].ms < cutoff {
        if i > 0 { assert events[i] == events[1..][i - 1]; }
      }
    }
  }

  lemma {:induction false} ExpiredSynsPrefix(order: seq<SynEvent>, cutoff: int)
    ensures var n := ExpiredSyns(order, cutoff);
            && n <= |order|
            && (forall i | 0 <= i < n :: order[i].ms < cutoff)
            && (n < |order| ==> order[n].ms >= cutoff)
  {
    if order != [] && order[0].ms < cutoff {
      ExpiredSynsPrefix(order[1..], cutoff);
      var n := ExpiredSyns(order, cutoff);
      forall i | 0 <= i < n ensures order[i].ms < cutoff {
        if i > 0 { assert order[i] == order[1..][i - 1]; }
      }
    }
  }

  /** How one packet moves the port FIFO. */
  ghost predicate PortsStep(cfg: Config, r: IpRecord, p: QueuedPacket, r': IpRecord) {
    if IsConnectionAttempt(p) then
      var queued := WithAttempt(r.recentDstPorts, p);
      var pops := ExpiredPorts(queued, Ms(p) - cfg.portScanWindowMs);
      pops <= |queued| && r'.recentDstPorts == queued[pops..]
    else
      r'.recentDstPorts == r.recentDstPorts
  }

  /** How one packet moves the pending map and its order queue. */
  ghost predicate SynsStep(cfg: Config, r: IpRecord, p: QueuedPacket, r': IpRecord) {
    if IsTcp(p) then
      var order := WithSyn(r.pendingSynOrder, p);
      var pops := ExpiredSyns(order, Ms(p) - cfg.synFloodWindowMs);
      && pops <= |order|
      && r'.pendingSynOrder == order[pops..]
      && r'.pendingSyns == WithoutExpired(WithPacket(r.pendingSyns, p), order[..pops])
    else
      r'.pendingSynOrder == r.pendingSynOrder && r'.pendingSyns == r.pendingSyns
  }

  lemma RecordStep(cfg: Config, r: IpRecord, p: QueuedPacket)
    ensures PortsStep(cfg, r, p, ObserveRecord(cfg, r, p).record)
    ensures SynsStep(cfg, r, p, ObserveRecord(cfg, r, p).record)
  {
    ExpiredPortsBound(WithAttempt(r.recentDstPorts, p), Ms(p) - cfg.portScanWindowMs);
    ExpiredSynsBound(WithSyn(r.pendingSynOrder, p), Ms(p) - cfg.synFloodWindowMs);
  }

  lemma HistoryStep(h: History, p: QueuedPacket)
    ensures Attempts(h + [p]) ==
            Attempts(h) + if IsConnectionAttempt(p) then [PortEvent(Ms(p), p.meta.dstPort)] else []
    ensures LatestSyns(h + [p]) ==
            if IsSynOnly(p) then LatestSyns(h)[KeyOf(p) := Ms(p)]
            else if IsAck(p) then LatestSyns(h) - {KeyOf(p)}
            else LatestSyns(h)
  {
    assert (h + [p])[..|h|] == h;
  }

  lemma PortsTrackExpiry(fifo: seq<PortEvent>, all: seq<PortEvent>, k: nat, e: PortEvent, cutoff: int, bound: int)
    returns (k': nat)
    requires k <= |all| && PortsCutAt(fifo, all, bound, k) && cutoff <= bound
    ensures k' <= |all| + 1
    ensures ExpiredPorts(fifo + [e], cutoff) <= |fifo| + 1
    ensures PortsCutAt((fifo + [e])[ExpiredPorts(fifo + [e], cutoff)..], all + [e], bound, k')
  {
    var n := ExpiredPorts(fifo + [e], cutoff);
    ExpiredPortsPrefix(fifo + [e], cutoff);
    k' := k + n;
    assert fifo + [e] == (all + [e])[k..];
    forall i | 0 <= i < k' ensures (all + [e])[i].ms < bound {
      if i >= k { assert (all + [e])[i] == (fifo + [e])[i - k]; }
    }
  }

  /** A connection attempt, whatever its timestamp, loses no event at or after the bound. */
  lemma PortsTrackStep(cfg: Config, r: IpRecord, h: History, p: QueuedPacket, r': IpRecord, bound: int, bound': int)
    requires PortsStep(cfg, r, p, r')
    requires PortsTrack(r.recentDstPorts, h, bound)
    requires bound <= bound'
    requires IsConnectionAttempt(p) ==> Ms(p) - cfg.portScanWindowMs <= bound'
    ensures PortsTrack(r'.recentDstPorts, h + [p], bound')
  {
    hide Attempts, LatestSyns, ExpiredPorts, Ms, IsConnectionAttempt;
    var k: nat :| k <= |Attempts(h)| && PortsCutAt(r.recentDstPorts, Attempts(h), bound, k);
    assert PortsCutAt(r.recentDstPorts, Attempts(h), bound', k);
    HistoryStep(h, p);
    if IsConnectionAttempt(p) {
      var k' := PortsTrackExpiry(r.recentDstPorts, Attempts(h), k, PortEvent(Ms(p), p.meta.dstPort),
                                 Ms(p) - cfg.portScanWindowMs, bound');
    } else {
      assert Attempts(h + [p]) == Attempts(h);
    }
  }

  lemma OrderCoversPacket(pending: map<FlowKey, int>, order: seq<SynEvent>, p: QueuedPacket)
    requires OrderCovers(pending, order)
    ensures OrderCovers(WithPacket(pending, p), WithSyn(order, p))
  {
    if IsSynOnly(p) {
      assert WithSyn(order, p)[|order|] == SynEvent(Ms(p), KeyOf(p));
    }
  }

  lemma OrderCoversExpiry(pending: map<FlowKey, int>, order: seq<SynEvent>, n: nat)
    requires n <= |order| && OrderCovers(pending, order)
    ensures OrderCovers(WithoutExpired(pending, order[..n]), order[n..])
  {
    forall k <- WithoutExpired(pending, order[..n]) ensures SynEvent(pending[k], k) in order[n..] {
      assert order == order[..n] + order[n..];
    }
  }

  lemma PendingTracksExpiry(pending: map<FlowKey, int>, all: map<FlowKey, int>, order: seq<SynEvent>,
                            cutoff: int, bound: int)
    requires PendingTracks(pending, all, bound) && cutoff <= bound
    ensures var n := ExpiredSyns(order, cutoff);
            n <= |order| && PendingTracks(WithoutExpired(pending, order[..n]), all, bound)
  {
    ExpiredSynsPrefix(order, cutoff);
  }

  lemma OrderCoversStep(cfg: Config, r: IpRecord, p: QueuedPacket, r': IpRecord)
    requires SynsStep(cfg, r, p, r')
    requires OrderCovers(r.pendingSyns, r.pendingSynOrder)
    ensures OrderCovers(r'.pendingSyns, r'.pendingSynOrder)
  {
    if IsTcp(p) {
      var pending, order := WithPacket(r.pendingSyns, p), WithSyn(r.pendingSynOrder, p);
      OrderCoversPacket(r.pendingSyns, r.pendingSynOrder, p);
      OrderCoversExpiry(pending, order, ExpiredSyns(order, Ms(p) - cfg.synFloodWindowMs));
    }
  }

  lemma PendingTracksPacket(pending: map<FlowKey, int>, h: History, p: QueuedPacket, bound: int)
    requires PendingTracks(pending, LatestSyns(h), bound)
    ensures PendingTracks(WithPacket(pending, p), LatestSyns(h + [p]), bound)
  {
    HistoryStep(h, p);
  }

  /** A TCP packet, whatever its timestamp, forgets no half-open connection at or after the bound. */
  lemma PendingTracksStep(cfg: Config, r: IpRecord, h: History, p: QueuedPacket, r': IpRecord, bound: int, bound': int)
    requires SynsStep(cfg, r, p, r')
    requires PendingTracks(r.pendingSyns, LatestSyns(h), bound)
    requires bound <= bound'
    requires IsTcp(p) ==> Ms(p) - cfg.synFloodWindowMs <= bound'
    ensures PendingTracks(r'.pendingSyns, LatestSyns(h + [p]), bound')
  {
    PendingTracksPacket(r.pendingSyns, h, p, bound);
    var all := LatestSyns(h + [p]);
    assert PendingTracks(WithPacket(r.pendingSyns, p), all, bound');
    if IsTcp(p) {
      PendingTracksExpiry(WithPacket(r.pendingSyns, p), all, WithSyn(r.pendingSynOrder, p),
                          Ms(p) - cfg.synFloodWindowMs, bound');
    }
  }

  // --- non-decreasing timestamps: the record answers exactly what the recount answers ---

  ghost predicate InOrder(h: History) {
    forall i, j | 0 <= i <= j < |h| :: Ms(h[i]) <= Ms(h[j])
  }

  ghost predicate SortedPorts(events: seq<PortEvent>) {
    forall i, j | 0 <= i <= j < |events| :: events[i].ms <= events[j].ms
  }

  ghost predicate SortedSyns(order: seq<SynEvent>) {
    forall i, j | 0 <= i <= j < |order| :: order[i].ms <= order[j].ms
  }

  ghost predicate QueuesInOrder(r: IpRecord, t: int) {
    && SortedPorts(r.recentDstPorts) && (forall e <- r.recentDstPorts :: e.ms <= t)
    && SortedSyns(r.pendingSynOrder) && (forall e <- r.pendingSynOrder :: e.ms <= t)
  }

  lemma SortedPortsStep(fifo: seq<PortEvent>, e: PortEvent, n: nat)
    requires SortedPorts(fifo) && (forall x <- fifo :: x.ms <= e.ms) && n <= |fifo| + 1
    ensures SortedPorts((fifo + [e])[n..])
    ensures forall x <- (fifo + [e])[n..] :: x.ms <= e.ms
  {}

  lemma SortedSynsStep(order: seq<SynEvent>, e: SynEvent)
    requires SortedSyns(order) && (forall x <- order :: x.ms <= e.ms)
    ensures SortedSyns(order + [e])
    ensures forall x <- order + [e] :: x.ms <= e.ms
  {}

  lemma SortedSynsDrop(order: seq<SynEvent>, n: nat, t: int)
    requires SortedSyns(order) && (forall x <- order :: x.ms <= t) && n <= |order|
    ensures SortedSyns(order[n..])
    ensures forall x <- order[n..] :: x.ms <= t
  {}

  lemma PortsInOrderStep(cfg: Config, r: IpRecord, p: QueuedPacket, r': IpRecord, t: int)
    requires QueuesInOrder(r, t) && t <= Ms(p) && PortsStep(cfg, r, p, r')
    ensures SortedPorts(r'.recentDstPorts)
    ensures forall e <- r'.recentDstPorts :: e.ms <= Ms(p)
  {
    if IsConnectionAttempt(p) {
      SortedPortsStep(r.recentDstPorts, PortEvent(Ms(p), p.meta.dstPort),
                      ExpiredPorts(WithAttempt(r.recentDstPorts, p), Ms(p) - cfg.portScanWindowMs));
    }
  }

  lemma SynsInOrderStep(cfg: Config, r: IpRecord, p: QueuedPacket, r': IpRecord, t: int)
    requires QueuesInOrder(r, t) && t <= Ms(p) && SynsStep(cfg, r, p, r')
    ensures SortedSyns(r'.pendingSynOrder)
    ensures forall e <- r'.pendingSynOrder :: e.ms <= Ms(p)
  {
    SortedSynsStep(r.pendingSynOrder, SynEvent(Ms(p), KeyOf(p)));
    SortedSynsDrop(WithSyn(r.pendingSynOrder, p),
                   if IsTcp(p) then ExpiredSyns(WithSyn(r.pendingSynOrder, p), Ms(p) - cfg.synFloodWindowMs) else 0,
                   Ms(p));
  }

  /** The attempts sequence holds the same ports as the recount, from any cutoff on. */
  lemma {:induction false} AttemptsArePorts(h: History, cutoff: int)
    ensures PortsProbed(h, cutoff) == set e <- Attempts(h) | e.ms >= cutoff :: e.port
  {
    if h != [] {
      var front, p := h[..|h| - 1], h[|h| - 1];
      AttemptsArePorts(front, cutoff);
      forall port ensures port in PortsProbed(h, cutoff) <==>
          port in PortsProbed(front, cutoff) ||
          (IsConnectionAttempt(p) && Ms(p) >= cutoff && p.meta.dstPort == port) {
        if port in PortsProbed(front, cutoff) {
          var i :| 0 <= i < |front| && IsConnectionAttempt(front[i]) && Ms(front[i]) >= cutoff && front[i].meta.dstPort == port;
          assert h[i] == front[i];
        }
        if port in PortsProbed(h, cutoff) {
          var i :| 0 <= i < |h| && IsConnectionAttempt(h[i]) && Ms(h[i]) >= cutoff && h[i].meta.dstPort == port;
          if i < |front| { assert h[i] == front[i]; }
        }
      }
    }
  }

  /** The map that never expires holds each half-open connection at its latest SYN's time. */
  lemma {:induction false} LatestSynsAreHalfOpen(h: History, cutoff: int)
    ensures HalfOpen(h, cutoff) == set k | k in LatestSyns(h) && LatestSyns(h)[k] >= cutoff
  {
    if h != [] {
      var front, p := h[..|h| - 1], h[|h| - 1];
      LatestSynsAreHalfOpen(front, cutoff);
      forall k ensures k in HalfOpen(h, cutoff) <==> k in LatestSyns(h) && LatestSyns(h)[k] >= cutoff {
        HalfOpenStep(front, p, cutoff, k);
        assert h == front + [p];
      }
    }
  }

  lemma HalfOpenStep(h: History, p: QueuedPacket, cutoff: int, k: FlowKey)
    ensures k in HalfOpen(h + [p], cutoff) <==>
            if IsSynOnly(p) && KeyOf(p) == k then Ms(p) >= cutoff
            else k in HalfOpen(h, cutoff) && !(IsAck(p) && KeyOf(p) == k)
  {
    var h' := h + [p];
    forall i | 0 <= i < |h|
      ensures IsHalfOpenAt(h', i) <==>
              IsHalfOpenAt(h, i) && !(KeyOf(p) == KeyOf(h[i]) && (IsSynOnly(p) || IsAck(p)))
    {
      assert h'[i] == h[i] && h'[|h|] == p;
      if IsHalfOpenAt(h', i) {
        forall j | i < j < |h| && KeyOf(h[j]) == KeyOf(h[i]) ensures !IsSynOnly(h[j]) && !IsAck(h[j]) {
          assert h'[j] == h[j];
        }
      }
    }
    assert IsHalfOpenAt(h', |h|) <==> IsSynOnly(p);
    if k in HalfOpen(h, cutoff) {
      var i :| 0 <= i < |h| && IsHalfOpenAt(h, i) && Ms(h[i]) >= cutoff && KeyOf(h[i]) == k;
      assert h'[i] == h[i];
    }
    if k in HalfOpen(h', cutoff) {
      var i :| 0 <= i < |h'| && IsHalfOpenAt(h', i) && Ms(h'[i]) >= cutoff && KeyOf(h'[i]) == k;
      if i < |h| { assert h'[i] == h[i]; }
    }
    if IsSynOnly(p) && KeyOf(p) == k && Ms(p) >= cutoff {
      assert h'[|h|] == p;
    }
  }

  lemma SuffixIsFilter(fifo: seq<PortEvent>, all: seq<PortEvent>, cutoff: int, k: nat)
    requires k <= |all| && PortsCutAt(fifo, all, cutoff, k)
    requires SortedPorts(fifo) && (fifo != [] ==> fifo[0].ms >= cutoff)
    ensures forall e :: e in fifo <==> e in all && e.ms >= cutoff
  {
    forall e | e in fifo ensures e in all && e.ms >= cutoff {
      var i :| 0 <= i < |fifo| && fifo[i] == e;
      assert all[k + i] == e && fifo[0].ms <= fifo[i].ms;
    }
    forall e | e in all && e.ms >= cutoff ensures e in fifo {
      var i :| 0 <= i < |all| && all[i] == e;
      assert i >= k && fifo[i - k] == e;
    }
  }

  /** After an attempt, the count map's size is the number of distinct ports probed in the window. */
  lemma WindowIsRecount(fifo: seq<PortEvent>, h: History, cutoff: int)
    requires PortsTrack(fifo, h, cutoff)
    requires SortedPorts(fifo) && (fifo != [] ==> fifo[0].ms >= cutoff)
    ensures PortSet(fifo) == PortsProbed(h, cutoff)
  {
    AttemptsArePorts(h, cutoff);
    hide PortsProbed, Attempts, SortedPorts, PortsCutAt;
    var k: nat :| k <= |Attempts(h)| && PortsCutAt(fifo, Attempts(h), cutoff, k);
    SuffixIsFilter(fifo, Attempts(h), cutoff, k);
  }

  /** After a TCP packet, the pending map holds exactly the half-open connections in the window. */
  lemma PendingIsRecount(pending: map<FlowKey, int>, order: seq<SynEvent>, h: History, cutoff: int)
    requires OrderCovers(pending, order) && PendingTracks(pending, LatestSyns(h), cutoff)
    requires SortedSyns(order) && (order != [] ==> order[0].ms >= cutoff)
    ensures pending.Keys == HalfOpen(h, cutoff)
  {
    LatestSynsAreHalfOpen(h, cutoff);
    forall k <- pending ensures pending[k] >= cutoff {
      assert SynEvent(pending[k], k) in order;
    }
  }

  /** Stamps are equal, or neither can suppress an alert from `t` on. */
  ghost predicate StampAgrees(cfg: Config, mine: Option<int>, naive: Option<int>, t: int) {
    mine == naive || (DebounceAllows(cfg, mine, t) && DebounceAllows(cfg, naive, t))
  }

  ghost predicate StampsAgree(cfg: Config, mine: Stamps, naive: Stamps, t: int) {
    StampAgrees(cfg, mine.portScan, naive.portScan, t) && StampAgrees(cfg, mine.synFlood, naive.synFlood, t)
  }

  ghost predicate QueuesAgree(cfg: Config, r: IpRecord, h: History, t: int) {
    && QueuesInOrder(r, t)
    && OrderCovers(r.pendingSyns, r.pendingSynOrder)
    && PortsTrack(r.recentDstPorts, h, t - cfg.portScanWindowMs)
    && PendingTracks(r.pendingSyns, LatestSyns(h), t - cfg.synFloodWindowMs)
  }

  /** At any packet from time `t` on, the record cannot be told from the full history. */
  ghost predicate Agrees(cfg: Config, r: IpRecord, h: History, t: int) {
    QueuesAgree(cfg, r, h, t) && StampsAgree(cfg, StampsOf(r), NaiveStamps(cfg, h), t)
  }

  function StampsOf(r: IpRecord): Stamps { Stamps(r.lastPortScanAlertMs, r.lastSynFloodAlertMs) }

  /** The alerts and stamps of one observation, in terms of what its queues were left holding. */
  lemma RecordAlerts(cfg: Config, r: IpRecord, p: QueuedPacket)
    ensures var o := ObserveRecord(cfg, r, p);
            var ports, syns := |PortSet(o.record.recentDstPorts)|, |o.record.pendingSyns.Keys|;
            && o.alerts == RuleAlerts(cfg, p, ports, syns, StampsOf(r))
            && StampsOf(o.record) == RuleStamps(cfg, p, ports, syns, StampsOf(r))
  {
    var o := ObserveRecord(cfg, r, p);
    assert |o.record.pendingSyns| == |o.record.pendingSyns.Keys|;
  }

  /** Stamps that agree decide every later packet alike, and still agree after it. */
  lemma AgreeingStampsFireAlike(cfg: Config, p: QueuedPacket, ports: nat, syns: nat, mine: Stamps, naive: Stamps, t: int)
    requires StampsAgree(cfg, mine, naive, t) && t <= Ms(p)
    ensures RuleAlerts(cfg, p, ports, syns, mine) == RuleAlerts(cfg, p, ports, syns, naive)
    ensures StampsAgree(cfg, RuleStamps(cfg, p, ports, syns, mine), RuleStamps(cfg, p, ports, syns, naive), Ms(p))
  {}

  /** The counts only matter to the rule whose packet this is. */
  lemma OtherCountsIrrelevant(cfg: Config, p: QueuedPacket, ports: nat, ports': nat, syns: nat, syns': nat, last: Stamps)
    requires IsConnectionAttempt(p) ==> ports == ports'
    requires IsTcp(p) ==> syns == syns'
    ensures RuleAlerts(cfg, p, ports, syns, last) == RuleAlerts(cfg, p, ports', syns', last)
    ensures RuleStamps(cfg, p, ports, syns, last) == RuleStamps(cfg, p, ports', syns', last)
  {}

  /** One packet: a record that agrees with the history raises the alerts of the recount, and still agrees. */
  lemma ObservationIsRecount(cfg: Config, r: IpRecord, h: History, p: QueuedPacket, t: int)
    requires Agrees(cfg, r, h, t) && t <= Ms(p)
    ensures ObserveRecord(cfg, r, p).alerts == NaiveAlerts(cfg, h + [p])
    ensures Agrees(cfg, ObserveRecord(cfg, r, p).record, h + [p], Ms(p))
  {
    RecordStep(cfg, r, p);
    RecordAlerts(cfg, r, p);
    var o := ObserveRecord(cfg, r, p);
    RecountFrom(cfg, r, h, p, o.record, t);
    OtherCountsIrrelevant(cfg, p, |PortSet(o.record.recentDstPorts)|, PortCount(cfg, h + [p]),
                          |o.record.pendingSyns.Keys|, SynCount(cfg, h + [p]), StampsOf(r));
    AgreeingStampsFireAlike(cfg, p, PortCount(cfg, h + [p]), SynCount(cfg, h + [p]),
                            StampsOf(r), NaiveStamps(cfg, h), t);
    assert (h + [p])[..|h|] == h;
  }

  lemma CountsAtLast(cfg: Config, h: History, p: QueuedPacket)
    ensures PortCount(cfg, h + [p]) == |PortsProbed(h + [p], Ms(p) - cfg.portScanWindowMs)|
    ensures SynCount(cfg, h + [p]) == |HalfOpen(h + [p], Ms(p) - cfg.synFloodWindowMs)|
  {
    hide PortsProbed, HalfOpen, Ms;
  }

  lemma RecountFrom(cfg: Config, r: IpRecord, h: History, p: QueuedPacket, r': IpRecord, t: int)
    requires PortsStep(cfg, r, p, r') && SynsStep(cfg, r, p, r')
    requires QueuesAgree(cfg, r, h, t) && t <= Ms(p)
    ensures QueuesAgree(cfg, r', h + [p], Ms(p))
    ensures IsConnectionAttempt(p) ==> |PortSet(r'.recentDstPorts)| == PortCount(cfg, h + [p])
    ensures IsTcp(p) ==> |r'.pendingSyns.Keys| == SynCount(cfg, h + [p])
  {
    hide SortedPorts, SortedSyns, OrderCovers, PortsTrack, PendingTracks, PortsStep, SynsStep;
    hide PortsProbed, HalfOpen, Attempts, LatestSyns, PortSet, PortCount, SynCount, Ms;
    CountsAtLast(cfg, h, p);
    PortRuleIsRecount(cfg, r, h, p, r', t);
    SynRuleIsRecount(cfg, r, h, p, r', t);
  }

  /** After a connection attempt, the record holds the distinct ports of the recounted window. */
  lemma PortRuleIsRecount(cfg: Config, r: IpRecord, h: History, p: QueuedPacket, r': IpRecord, t: int)
    requires PortsStep(cfg, r, p, r') && t <= Ms(p)
    requires QueuesInOrder(r, t) && PortsTrack(r.recentDstPorts, h, t - cfg.portScanWindowMs)
    ensures SortedPorts(r'.recentDstPorts) && forall e <- r'.recentDstPorts :: e.ms <= Ms(p)
    ensures PortsTrack(r'.recentDstPorts, h + [p], Ms(p) - cfg.portScanWindowMs)
    ensures IsConnectionAttempt(p) ==>
              PortSet(r'.recentDstPorts) == PortsProbed(h + [p], Ms(p) - cfg.portScanWindowMs)
  {
    PortsInOrderStep(cfg, r, p, r', t);
    PortsTrackStep(cfg, r, h, p, r', t - cfg.portScanWindowMs, Ms(p) - cfg.portScanWindowMs);
    if IsConnectionAttempt(p) {
      PortFrontIsFresh(cfg, r, p, r');
      WindowIsRecount(r'.recentDstPorts, h + [p], Ms(p) - cfg.portScanWindowMs);
    }
  }

  /** After a TCP packet, the pending connections are the half-open ones of the recounted window. */
  lemma SynRuleIsRecount(cfg: Config, r: IpRecord, h: History, p: QueuedPacket, r': IpRecord, t: int)
    requires SynsStep(cfg, r, p, r') && t <= Ms(p)
    requires QueuesInOrder(r, t) && OrderCovers(r.pendingSyns, r.pendingSynOrder)
    requires PendingTracks(r.pendingSyns, LatestSyns(h), t - cfg.synFloodWindowMs)
    ensures SortedSyns(r'.pendingSynOrder) && forall e <- r'.pendingSynOrder :: e.ms <= Ms(p)
    ensures OrderCovers(r'.pendingSyns, r'.pendingSynOrder)
    ensures PendingTracks(r'.pendingSyns, LatestSyns(h + [p]), Ms(p) - cfg.synFloodWindowMs)
    ensures IsTcp(p) ==> r'.pendingSyns.Keys == HalfOpen(h + [p], Ms(p) - cfg.synFloodWindowMs)
  {
    hide SortedPorts, SortedSyns, OrderCovers, PortsTrack, PortsCutAt, PendingTracks, SynsStep, HalfOpen, LatestSyns;
    SynsInOrderStep(cfg, r, p, r', t);
    OrderCoversStep(cfg, r, p, r');
    PendingTracksStep(cfg, r, h, p, r', t - cfg.synFloodWindowMs, Ms(p) - cfg.synFloodWindowMs);
    if IsTcp(p) {
      SynFrontIsFresh(cfg, r, p, r');
      PendingIsRecount(r'.pendingSyns, r'.pendingSynOrder, h + [p], Ms(p) - cfg.synFloodWindowMs);
    }
  }

  /** Expiry stops at the first event inside the window. */
  lemma PortFrontIsFresh(cfg: Config, r: IpRecord, p: QueuedPacket, r': IpRecord)
    requires PortsStep(cfg, r, p, r') && IsConnectionAttempt(p)
    ensures r'.recentDstPorts != [] ==> r'.recentDstPorts[0].ms >= Ms(p) - cfg.portScanWindowMs
  {
    ExpiredPortsPrefix(WithAttempt(r.recentDstPorts, p), Ms(p) - cfg.portScanWindowMs);
  }

  lemma SynFrontIsFresh(cfg: Config, r: IpRecord, p: QueuedPacket, r': IpRecord)
    requires SynsStep(cfg, r, p, r') && IsTcp(p)
    ensures r'.pendingSynOrder != [] ==> r'.pendingSynOrder[0].ms >= Ms(p) - cfg.synFloodWindowMs
  {
    ExpiredSynsPrefix(WithSyn(r.pendingSynOrder, p), Ms(p) - cfg.synFloodWindowMs);
  }

  /** Time passing without a packet keeps a record in agreement. */
  lemma AgreesLater(cfg: Config, r: IpRecord, h: History, t: int, t': int)
    requires Agrees(cfg, r, h, t) && t <= t'
    ensures Agrees(cfg, r, h, t')
  {
    var k: nat :| k <= |Attempts(h)| && PortsCutAt(r.recentDstPorts, Attempts(h), t - cfg.portScanWindowMs, k);
    assert PortsCutAt(r.recentDstPorts, Attempts(h), t' - cfg.portScanWindowMs, k);
  }

  lemma {:induction false} HistoryBound(cfg: Config, h: History, last: int)
    requires forall p <- h :: Ms(p) <= last
    ensures forall e <- Attempts(h) :: e.ms <= last
    ensures forall k <- LatestSyns(h) :: LatestSyns(h)[k] <= last
    ensures NaiveStamps(cfg, h).portScan.Some? ==> NaiveStamps(cfg, h).portScan.value <= last
    ensures NaiveStamps(cfg, h).synFlood.Some? ==> NaiveStamps(cfg, h).synFlood.value <= last
  {
    if h != [] {
      assert forall p <- h[..|h| - 1] :: p in h;
      HistoryBound(cfg, h[..|h| - 1], last);
    }
  }

  lemma EmptyAgrees(cfg: Config, now: int)
    ensures Agrees(cfg, EMPTY_RECORD, [], now)
  {
    assert PortsCutAt([], Attempts([]), now - cfg.portScanWindowMs, 0);
  }
}
