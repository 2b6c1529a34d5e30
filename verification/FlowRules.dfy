/** Which rules can alert at all, and what a record must keep for those that can. */
module FlowRules {
  import opened Packets
  import opened FlowModel
  import opened FlowHistory

  const ALL_PORTS := 0x1_0000
  const ALL_KEYS := 0x1_0000_0000_0000_0000

  /** A threshold above the number of ports is never reached, and a negative window never holds a port. */
  predicate PortRuleCanAlert(cfg: Config) {
    || cfg.portScanDistinctPortThreshold == 0
    || (cfg.portScanWindowMs >= 0 && cfg.portScanDistinctPortThreshold <= ALL_PORTS)
  }

  /** The same for the number of connections one source can open. */
  predicate SynRuleCanAlert(cfg: Config) {
    || cfg.synFloodPendingThreshold == 0
    || (cfg.synFloodWindowMs >= 0 && cfg.synFloodPendingThreshold <= ALL_KEYS)
  }

  // --- how many ports and connections there are ---

  lemma {:induction false} BoundedPorts(ports: set<Port>, n: nat)
    requires forall port <- ports :: port < n
    ensures |ports| <= n
  {
    if n == 0 {
      assert ports == {};
    } else if n - 1 < ALL_PORTS {
      BoundedPorts(ports - {n - 1}, n - 1);
    } else {
      BoundedPorts(ports, n - 1);
    }
  }

  lemma {:induction false} BoundedNumbers(numbers: set<nat>, n: nat)
    requires forall x <- numbers :: x < n
    ensures |numbers| <= n
  {
    if n == 0 {
      assert numbers == {};
    } else {
      BoundedNumbers(numbers - {n - 1}, n - 1);
    }
  }

  /** The number of a connection among those of its source. */
  function KeyIndex(key: FlowKey): nat {
    (key.dstIp as int) * 0x1_0000_0000 + (key.srcPort as int) * 0x1_0000 + key.dstPort
  }

  lemma DigitsUnique(high: int, mid: int, low: int)
    requires -0x1_0000 < mid < 0x1_0000 && -0x1_0000 < low < 0x1_0000
    requires high * 0x1_0000_0000 + mid * 0x1_0000 + low == 0
    ensures high == mid == low == 0
  {}

  lemma KeyIndexInjective(a: FlowKey, b: FlowKey)
    requires a.srcIp == b.srcIp && KeyIndex(a) == KeyIndex(b)
    ensures a == b
  {
    DigitsUnique(a.dstIp - b.dstIp, a.srcPort - b.srcPort, a.dstPort - b.dstPort);
  }

  lemma {:induction false} KeyIndices(keys: set<FlowKey>, ip: Ip) returns (numbers: set<nat>)
    requires forall k <- keys :: k.srcIp == ip
    ensures |numbers| == |keys| && forall x <- numbers :: exists k <- keys :: KeyIndex(k) == x
  {
    hide KeyIndex;
    numbers := {};
    if keys != {} {
      var k :| k in keys;
      var rest := KeyIndices(keys - {k}, ip);
      if KeyIndex(k) in rest {
        var other :| other in keys - {k} && KeyIndex(other) == KeyIndex(k);
        KeyIndexInjective(k, other);
        assert false;
      }
      numbers := rest + {KeyIndex(k)};
    }
  }

  lemma BoundedKeys(keys: set<FlowKey>, ip: Ip)
    requires forall k <- keys :: k.srcIp == ip
    ensures |keys| <= ALL_KEYS
  {
    var numbers := KeyIndices(keys, ip);
    BoundedNumbers(numbers, ALL_KEYS);
  }

  // --- what a record must keep ---

  /** Packets of one source, in order and up to a time. */
  ghost predicate OrderedFrom(h: History, ip: Ip, t: int) {
    InOrder(h) && forall p <- h :: p.meta.srcIp == ip && Ms(p) <= t
  }

  ghost predicate KeysFrom(pending: map<FlowKey, int>, ip: Ip) { forall k <- pending :: k.srcIp == ip }

  /** A rule that cannot alert never has. */
  ghost predicate NeverStamped(cfg: Config, naive: Stamps) {
    && (!PortRuleCanAlert(cfg) ==> naive.portScan == None)
    && (!SynRuleCanAlert(cfg) ==> naive.synFlood == None)
  }

  /** As Agrees, but only for the rules that can alert: at any packet from time `t` on, the record of a source
      raises what its full history would. */
  ghost predicate Follows(cfg: Config, ip: Ip, r: IpRecord, h: History, t: int) {
    && QueuesInOrder(r, t) && OrderCovers(r.pendingSyns, r.pendingSynOrder) && KeysFrom(r.pendingSyns, ip)
    && OrderedFrom(h, ip, t)
    && (PortRuleCanAlert(cfg) ==> PortsTrack(r.recentDstPorts, h, t - cfg.portScanWindowMs))
    && (SynRuleCanAlert(cfg) ==> PendingTracks(r.pendingSyns, LatestSyns(h), t - cfg.synFloodWindowMs))
    && StampsAgree(cfg, StampsOf(r), NaiveStamps(cfg, h), t) && NeverStamped(cfg, NaiveStamps(cfg, h))
  }

  lemma EmptyFollows(cfg: Config, ip: Ip, t: int)
    ensures Follows(cfg, ip, EMPTY_RECORD, [], t)
  {
    assert PortsCutAt([], Attempts([]), t - cfg.portScanWindowMs, 0);
  }

  /** Time passing without a packet changes nothing. */
  lemma FollowsLater(cfg: Config, ip: Ip, r: IpRecord, h: History, t: int, t': int)
    requires Follows(cfg, ip, r, h, t) && t <= t'
    ensures Follows(cfg, ip, r, h, t')
  {
    hide Attempts, LatestSyns, NaiveStamps, InOrder, SortedPorts, SortedSyns, OrderCovers, Ms;
    if PortRuleCanAlert(cfg) {
      var k: nat :| k <= |Attempts(h)| && PortsCutAt(r.recentDstPorts, Attempts(h), t - cfg.portScanWindowMs, k);
      assert PortsCutAt(r.recentDstPorts, Attempts(h), t' - cfg.portScanWindowMs, k);
    }
  }

  // --- a rule that cannot alert does not ---

  /** Under a negative window nothing up to now is recent enough. */
  lemma NothingProbed(h: History, cutoff: int)
    requires forall p <- h :: Ms(p) < cutoff
    ensures PortsProbed(h, cutoff) == {} && HalfOpen(h, cutoff) == {}
  {
    hide Ms, IsConnectionAttempt, IsHalfOpenAt;
    assert forall i | 0 <= i < |h| :: h[i] in h;
  }

  lemma PortRuleIsSilent(cfg: Config, r: IpRecord, h: History, p: QueuedPacket, r': IpRecord)
    requires !PortRuleCanAlert(cfg) && IsConnectionAttempt(p) && PortsStep(cfg, r, p, r')
    requires (forall e <- r'.recentDstPorts :: e.ms <= Ms(p)) && forall q <- h :: Ms(q) <= Ms(p)
    ensures |PortSet(r'.recentDstPorts)| < cfg.portScanDistinctPortThreshold
    ensures PortCount(cfg, h + [p]) < cfg.portScanDistinctPortThreshold
  {
    hide Ms, IsConnectionAttempt, PortsStep, PortsProbed;
    CountsAtLast(cfg, h, p);
    var cutoff := Ms(p) - cfg.portScanWindowMs;
    if cfg.portScanDistinctPortThreshold > ALL_PORTS {
      BoundedPorts(PortSet(r'.recentDstPorts), ALL_PORTS);
      BoundedPorts(PortsProbed(h + [p], cutoff), ALL_PORTS);
    } else {
      PortFrontIsFresh(cfg, r, p, r');
      assert r'.recentDstPorts == [];
      NothingProbed(h + [p], cutoff);
    }
  }

  lemma SynRuleIsSilent(cfg: Config, ip: Ip, r: IpRecord, h: History, p: QueuedPacket, r': IpRecord)
    requires !SynRuleCanAlert(cfg) && IsTcp(p) && SynsStep(cfg, r, p, r') && p.meta.srcIp == ip
    requires (forall e <- r'.pendingSynOrder :: e.ms <= Ms(p)) && OrderCovers(r'.pendingSyns, r'.pendingSynOrder)
    requires KeysFrom(r'.pendingSyns, ip) && forall q <- h :: Ms(q) <= Ms(p) && q.meta.srcIp == ip
    ensures |r'.pendingSyns.Keys| < cfg.synFloodPendingThreshold
    ensures SynCount(cfg, h + [p]) < cfg.synFloodPendingThreshold
  {
    hide Ms, IsTcp, SynsStep, IsHalfOpenAt;
    CountsAtLast(cfg, h, p);
    var cutoff := Ms(p) - cfg.synFloodWindowMs;
    if cfg.synFloodPendingThreshold > ALL_KEYS {
      BoundedKeys(r'.pendingSyns.Keys, ip);
      BoundedKeys(HalfOpen(h + [p], cutoff), ip);
    } else {
      SynFrontIsFresh(cfg, r, p, r');
      assert r'.pendingSynOrder == [] && r'.pendingSyns.Keys == {};
      hide HalfOpen;
      NothingProbed(h + [p], cutoff);
    }
  }

  lemma KeysFromStep(cfg: Config, ip: Ip, r: IpRecord, p: QueuedPacket, r': IpRecord)
    requires SynsStep(cfg, r, p, r') && KeysFrom(r.pendingSyns, ip) && p.meta.srcIp == ip
    ensures KeysFrom(r'.pendingSyns, ip)
  {
    hide ExpiredSyns, Ms;
  }

  lemma OrderedFromStep(h: History, p: QueuedPacket, ip: Ip, t: int)
    requires OrderedFrom(h, ip, t) && t <= Ms(p) && p.meta.srcIp == ip
    ensures OrderedFrom(h + [p], ip, Ms(p))
  {
    hide Ms;
    assert forall i | 0 <= i < |h| :: h[i] in h && (h + [p])[i] == h[i];
  }

  /** Counts that are equal, or both below the threshold, decide a rule alike. */
  lemma CountsDecideAlike(cfg: Config, p: QueuedPacket, ports: nat, ports': nat, syns: nat, syns': nat, last: Stamps)
    requires IsConnectionAttempt(p) && PortRuleCanAlert(cfg) ==> ports == ports'
    requires IsConnectionAttempt(p) && !PortRuleCanAlert(cfg) ==>
               ports < cfg.portScanDistinctPortThreshold && ports' < cfg.portScanDistinctPortThreshold
    requires IsTcp(p) && SynRuleCanAlert(cfg) ==> syns == syns'
    requires IsTcp(p) && !SynRuleCanAlert(cfg) ==>
               syns < cfg.synFloodPendingThreshold && syns' < cfg.synFloodPendingThreshold
    ensures RuleAlerts(cfg, p, ports, syns, last) == RuleAlerts(cfg, p, ports', syns', last)
    ensures RuleStamps(cfg, p, ports, syns, last) == RuleStamps(cfg, p, ports', syns', last)
    ensures NeverStamped(cfg, last) ==> NeverStamped(cfg, RuleStamps(cfg, p, ports', syns', last))
  {
    hide IsConnectionAttempt, IsTcp, Ms;
  }

  /** The queues after one packet: for each rule that can alert, its count is the recount; any other rule's
      counts stay below its threshold. */
  lemma QueuesFollow(cfg: Config, ip: Ip, r: IpRecord, h: History, p: QueuedPacket, r': IpRecord, t: int)
    requires PortsStep(cfg, r, p, r') && SynsStep(cfg, r, p, r') && p.meta.srcIp == ip
    requires Follows(cfg, ip, r, h, t) && t <= Ms(p)
    ensures QueuesInOrder(r', Ms(p)) && OrderCovers(r'.pendingSyns, r'.pendingSynOrder) && KeysFrom(r'.pendingSyns, ip)
    ensures OrderedFrom(h + [p], ip, Ms(p))
    ensures PortRuleCanAlert(cfg) ==> PortsTrack(r'.recentDstPorts, h + [p], Ms(p) - cfg.portScanWindowMs)
    ensures SynRuleCanAlert(cfg) ==>
              PendingTracks(r'.pendingSyns, LatestSyns(h + [p]), Ms(p) - cfg.synFloodWindowMs)
    ensures var ports, syns := |PortSet(r'.recentDstPorts)|, |r'.pendingSyns.Keys|;
            && (IsConnectionAttempt(p) && PortRuleCanAlert(cfg) ==> ports == PortCount(cfg, h + [p]))
            && (IsConnectionAttempt(p) && !PortRuleCanAlert(cfg) ==>
                  ports < cfg.portScanDistinctPortThreshold
                  && PortCount(cfg, h + [p]) < cfg.portScanDistinctPortThreshold)
            && (IsTcp(p) && SynRuleCanAlert(cfg) ==> syns == SynCount(cfg, h + [p]))
            && (IsTcp(p) && !SynRuleCanAlert(cfg) ==>
                  syns < cfg.synFloodPendingThreshold && SynCount(cfg, h + [p]) < cfg.synFloodPendingThreshold)
  {
    hide SortedPorts, SortedSyns, OrderCovers, PortsTrack, PendingTracks, PortsStep, SynsStep, KeysFrom, InOrder;
    hide PortsProbed, HalfOpen, Attempts, LatestSyns, PortSet, PortCount, SynCount, Ms, StampsAgree, NeverStamped;
    hide PortRuleCanAlert, SynRuleCanAlert, IsConnectionAttempt, IsTcp;
    CountsAtLast(cfg, h, p);
    OrderedFromStep(h, p, ip, t);
    PortsInOrderStep(cfg, r, p, r', t);
    SynsInOrderStep(cfg, r, p, r', t);
    OrderCoversStep(cfg, r, p, r');
    KeysFromStep(cfg, ip, r, p, r');
    if PortRuleCanAlert(cfg) {
      PortRuleIsRecount(cfg, r, h, p, r', t);
    } else if IsConnectionAttempt(p) {
      PortRuleIsSilent(cfg, r, h, p, r');
    }
    if SynRuleCanAlert(cfg) {
      SynRuleIsRecount(cfg, r, h, p, r', t);
    } else if IsTcp(p) {
      SynRuleIsSilent(cfg, ip, r, h, p, r');
    }
  }

  /** One packet of the source: the record raises the alerts of the recount and keeps following. */
  lemma ObservationFollows(cfg: Config, ip: Ip, r: IpRecord, h: History, p: QueuedPacket, t: int)
    requires Follows(cfg, ip, r, h, t) && t <= Ms(p) && p.meta.srcIp == ip
    ensures ObserveRecord(cfg, r, p).alerts == NaiveAlerts(cfg, h + [p])
    ensures Follows(cfg, ip, ObserveRecord(cfg, r, p).record, h + [p], Ms(p))
  {
    hide ObserveRecord, QueuesInOrder, OrderCovers, PortsTrack, PendingTracks, PortsStep, SynsStep, KeysFrom, OrderedFrom;
    hide PortSet, PortCount, SynCount, Ms, StampsAgree, NeverStamped, LatestSyns, RuleAlerts, RuleStamps;
    hide PortRuleCanAlert, SynRuleCanAlert, IsConnectionAttempt, IsTcp;
    RecordStep(cfg, r, p);
    RecordAlerts(cfg, r, p);
    var o := ObserveRecord(cfg, r, p);
    QueuesFollow(cfg, ip, r, h, p, o.record, t);
    var naive := NaiveStamps(cfg, h);
    CountsDecideAlike(cfg, p, |PortSet(o.record.recentDstPorts)|, PortCount(cfg, h + [p]),
                      |o.record.pendingSyns.Keys|, SynCount(cfg, h + [p]), StampsOf(r));
    CountsDecideAlike(cfg, p, |PortSet(o.record.recentDstPorts)|, PortCount(cfg, h + [p]),
                      |o.record.pendingSyns.Keys|, SynCount(cfg, h + [p]), naive);
    AgreeingStampsFireAlike(cfg, p, PortCount(cfg, h + [p]), SynCount(cfg, h + [p]), StampsOf(r), naive, t);
    assert (h + [p])[..|h|] == h;
  }

  // --- forgetting ---

  /** A source is forgotten once it has been idle for more than the time-to-live: by then a rule's window must
      be empty, unless it holds nothing anyway, and its debounce must have run out. */
  predicate TtlCoversRule(cfg: Config, windowMs: int) {
    (windowMs < 0 || cfg.idleTtlMs >= windowMs) && Max(cfg.idleTtlMs + 1, 0) >= cfg.alertDebounceMs
  }

  /** Only the rules that can alert put a demand on the time-to-live. */
  predicate TtlCoversRules(cfg: Config) {
    && (PortRuleCanAlert(cfg) ==> TtlCoversRule(cfg, cfg.portScanWindowMs))
    && (SynRuleCanAlert(cfg) ==> TtlCoversRule(cfg, cfg.synFloodWindowMs))
  }

  /** Nothing that old is in a rule's window, nor can its alert still suppress another. */
  lemma OldEnough(cfg: Config, windowMs: int, last: int, t: int)
    requires TtlCoversRule(cfg, windowMs) && last < t - cfg.idleTtlMs && last <= t
    ensures last < t - windowMs
    ensures t - last >= cfg.alertDebounceMs
  {}

  lemma NothingTracks(h: History, last: int, portBound: int, synBound: int)
    requires forall e <- Attempts(h) :: e.ms <= last
    requires forall k <- LatestSyns(h) :: LatestSyns(h)[k] <= last
    ensures last < portBound ==> PortsTrack([], h, portBound)
    ensures last < synBound ==> PendingTracks(map[], LatestSyns(h), synBound)
  {
    hide Attempts, LatestSyns;
    var all := Attempts(h);
    assert all[|all|..] == [];
    if last < portBound {
      assert PortsCutAt([], all, portBound, |all|);
    }
  }

  /** Forgetting a source that has been idle for longer than a covering time-to-live is invisible. */
  lemma ForgottenFollows(cfg: Config, ip: Ip, h: History, last: int, t: int)
    requires OrderedFrom(h, ip, t) && NeverStamped(cfg, NaiveStamps(cfg, h))
    requires forall p <- h :: Ms(p) <= last
    requires last < t - cfg.idleTtlMs && last <= t
    requires TtlCoversRules(cfg)
    ensures Follows(cfg, ip, EMPTY_RECORD, h, t)
  {
    hide OrderedFrom, Ms, Attempts, LatestSyns, NaiveStamps, PortRuleCanAlert, SynRuleCanAlert, TtlCoversRule;
    hide PortsTrack, PendingTracks;
    HistoryBound(cfg, h, last);
    NothingTracks(h, last, t - cfg.portScanWindowMs, t - cfg.synFloodWindowMs);
    if PortRuleCanAlert(cfg) {
      OldEnough(cfg, cfg.portScanWindowMs, last, t);
    }
    if SynRuleCanAlert(cfg) {
      OldEnough(cfg, cfg.synFloodWindowMs, last, t);
    }
  }
}
