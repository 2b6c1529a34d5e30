/** Per-IP records and shards as the source writes them, updated in place. */
module FlowShard {
  import opened Packets
  import opened FlowModel
  import opened FlowHistory
  import opened FlowWork

  class PerIpState {
    ghost const ip: Ip
    var recentDstPorts: seq<PortEvent>
    var portCounts: map<Port, nat>
    var pendingSyns: map<FlowKey, int>
    var pendingSynOrder: seq<SynEvent>
    var lastSeenMs: int
    var lastPortScanAlertMs: Option<int>
    var lastSynFloodAlertMs: Option<int>

    /** The live counts are exactly the bag of ports in the FIFO, with no zero entries, and every
        pending SYN has its ordering entry. */
    ghost predicate Valid()
      reads this
    {
      CountsMatch(portCounts, recentDstPorts) && OrderCovers(pendingSyns, pendingSynOrder)
    }

    ghost function View(): IpRecord
      reads this
    {
      IpRecord(recentDstPorts, pendingSyns, pendingSynOrder, lastSeenMs, lastPortScanAlertMs, lastSynFloodAlertMs)
    }

    constructor (ghost ip: Ip)
      ensures Valid() && View() == EMPTY_RECORD && this.ip == ip
    {
      this.ip := ip;
      recentDstPorts, portCounts := [], map[];
      pendingSyns, pendingSynOrder := map[], [];
      lastSeenMs, lastPortScanAlertMs, lastSynFloodAlertMs := 0, None, None;
    }

    /** Pops the events older than the cutoff, keeping the counts in step. */
    method ExpirePorts(cutoff: int) returns (ghost pops: nat)
      requires Valid()
      modifies this`recentDstPorts, this`portCounts
      ensures Valid()
      ensures pops == ExpiredPorts(old(recentDstPorts), cutoff) <= |old(recentDstPorts)|
      ensures recentDstPorts == old(recentDstPorts)[pops..]
      ensures forall e <- old(recentDstPorts)[..pops] :: e.ms < cutoff
      ensures recentDstPorts != [] ==> recentDstPorts[0].ms >= cutoff
    {
      hide CountsMatch, OrderCovers;
      pops := 0;
      ExpiredPortsPrefix(recentDstPorts, cutoff);
      while recentDstPorts != [] && recentDstPorts[0].ms < cutoff
        invariant Valid()
        invariant pops <= |old(recentDstPorts)| && recentDstPorts == old(recentDstPorts)[pops..]
        invariant pops + ExpiredPorts(recentDstPorts, cutoff) == ExpiredPorts(old(recentDstPorts), cutoff)
        decreases |recentDstPorts|
      {
        var expiredPort := recentDstPorts[0].port;
        CountsPop(portCounts, recentDstPorts);
        recentDstPorts := recentDstPorts[1..];
        pops := pops + 1;
        if expiredPort in portCounts {
          portCounts := portCounts[expiredPort := portCounts[expiredPort] - 1];
          if portCounts[expiredPort] == 0 {
            portCounts := portCounts - {expiredPort};
          }
        }
      }
    }

    /** Pops the ordering entries older than the cutoff, skipping those a newer SYN or an ACK made stale. */
    method ExpireSyns(cutoff: int) returns (ghost pops: nat)
      requires Valid()
      modifies this`pendingSyns, this`pendingSynOrder
      ensures Valid()
      ensures pops == ExpiredSyns(old(pendingSynOrder), cutoff) <= |old(pendingSynOrder)|
      ensures pendingSynOrder == old(pendingSynOrder)[pops..]
      ensures pendingSyns == WithoutExpired(old(pendingSyns), old(pendingSynOrder)[..pops])
      ensures forall e <- old(pendingSynOrder)[..pops] :: e.ms < cutoff
      ensures pendingSynOrder != [] ==> pendingSynOrder[0].ms >= cutoff
      ensures forall k <- old(pendingSyns) ::
                k in pendingSyns <==> SynEvent(old(pendingSyns)[k], k) !in old(pendingSynOrder)[..pops]
      ensures forall k <- pendingSyns :: k in old(pendingSyns) && pendingSyns[k] == old(pendingSyns)[k]
    {
      hide CountsMatch, OrderCovers, WithoutExpired;
      pops := 0;
      ExpiredSynsPrefix(pendingSynOrder, cutoff);
      WithoutNone(pendingSyns, pendingSynOrder);
      while pendingSynOrder != [] && pendingSynOrder[0].ms < cutoff
        invariant pops <= |old(pendingSynOrder)| && pendingSynOrder == old(pendingSynOrder)[pops..]
        invariant pendingSyns == WithoutExpired(old(pendingSyns), old(pendingSynOrder)[..pops])
        invariant pops + ExpiredSyns(pendingSynOrder, cutoff) == ExpiredSyns(old(pendingSynOrder), cutoff)
        decreases |pendingSynOrder|
      {
        var queued := pendingSynOrder[0];
        WithoutOneMore(old(pendingSyns), old(pendingSynOrder), pops);
        if queued.key in pendingSyns && pendingSyns[queued.key] == queued.ms {
          pendingSyns := pendingSyns - {queued.key};
        }
        pendingSynOrder := pendingSynOrder[1..];
        pops := pops + 1;
      }
      OrderCoversExpiry(old(pendingSyns), old(pendingSynOrder), pops);
      WithoutSome(old(pendingSyns), old(pendingSynOrder)[..pops]);
    }

    /** Appends an attempt to the window and expires what has left it. */
    method SlideWindow(cfg: Config, p: QueuedPacket) returns (ghost pops: nat)
      requires Valid()
      modifies this`recentDstPorts, this`portCounts
      ensures Valid()
      ensures var queued := WithAttempt(old(recentDstPorts), p);
              && pops == ExpiredPorts(queued, Ms(p) - cfg.portScanWindowMs) <= |queued|
              && recentDstPorts == queued[pops..]
    {
      hide CountsMatch, OrderCovers, Ms, ExpiredPorts;
      var now := Ms(p);
      CountsPush(portCounts, recentDstPorts, PortEvent(now, p.meta.dstPort));
      recentDstPorts := recentDstPorts + [PortEvent(now, p.meta.dstPort)];
      portCounts := portCounts[p.meta.dstPort := CountOf(portCounts, p.meta.dstPort) + 1];
      pops := ExpirePorts(now - cfg.portScanWindowMs);
    }

    /** The port-scan rule, at a connection attempt. */
    method ObservePort(cfg: Config, p: QueuedPacket) returns (alerts: seq<Alert>, ghost pops: nat)
      requires Valid() && IsConnectionAttempt(p)
      modifies this
      ensures Valid()
      ensures Observation(View(), alerts, pops) == FlowModel.ObservePort(cfg, old(View()), p)
    {
      hide CountsMatch, OrderCovers, PortSet, Ms, ExpiredPorts, WithAttempt, IsConnectionAttempt;
      var now := Ms(p);
      pops := SlideWindow(cfg, p);
      CountsAreDistinctPorts(portCounts, recentDstPorts);
      var distinctPorts := |portCounts|;
      alerts := [];
      if distinctPorts >= cfg.portScanDistinctPortThreshold {
        var allowed;
        allowed, lastPortScanAlertMs := Debounce(cfg, lastPortScanAlertMs, now);
        if allowed {
          alerts := [Alert(PortScan, p.meta.srcIp, p.meta.dstIp, 0, 0, DistinctPorts(distinctPorts, cfg.portScanWindowMs))];
        }
      }
    }

    /** Records a SYN, or lets an ACK complete its connection. */
    method TrackHandshake(p: QueuedPacket)
      requires Valid() && IsTcp(p)
      modifies this`pendingSyns, this`pendingSynOrder
      ensures Valid()
      ensures pendingSyns == WithPacket(old(pendingSyns), p)
      ensures pendingSynOrder == WithSyn(old(pendingSynOrder), p)
    {
      hide CountsMatch, OrderCovers;
      var now, key := Ms(p), KeyOf(p);
      OrderCoversPacket(pendingSyns, pendingSynOrder, p);
      var isSyn, isAck := HasSyn(p.meta.tcpFlags), HasAck(p.meta.tcpFlags);
      if isSyn && !isAck {
        pendingSyns := pendingSyns[key := now];
        pendingSynOrder := pendingSynOrder + [SynEvent(now, key)];
      } else if isAck {
        pendingSyns := pendingSyns - {key};
      }
    }

    /** The SYN-flood rule, at a TCP packet. */
    method ObserveSyn(cfg: Config, p: QueuedPacket) returns (alerts: seq<Alert>, ghost pops: nat)
      requires Valid() && IsTcp(p)
      modifies this
      ensures Valid()
      ensures Observation(View(), alerts, pops) == FlowModel.ObserveSyn(cfg, old(View()), p)
    {
      hide CountsMatch, OrderCovers, Ms, ExpiredSyns, WithoutExpired, WithPacket, WithSyn, IsTcp;
      var now := Ms(p);
      TrackHandshake(p);
      pops := ExpireSyns(now - cfg.synFloodWindowMs);

      alerts := [];
      if |pendingSyns| >= cfg.synFloodPendingThreshold {
        var allowed;
        allowed, lastSynFloodAlertMs := Debounce(cfg, lastSynFloodAlertMs, now);
        if allowed {
          alerts := [Alert(SynFlood, p.meta.srcIp, 0, 0, 0, PendingSyns(|pendingSyns|, cfg.synFloodWindowMs))];
        }
      }
    }

    method Observe(cfg: Config, p: QueuedPacket) returns (alerts: seq<Alert>, ghost pops: nat)
      requires Valid()
      modifies this
      ensures Valid()
      ensures Observation(View(), alerts, pops) == ObserveRecord(cfg, old(View()), p)
    {
      hide FlowModel.ObservePort, FlowModel.ObserveSyn;
      lastSeenMs := Ms(p);
      alerts, pops := [], 0;
      if IsConnectionAttempt(p) {
        alerts, pops := ObservePort(cfg, p);
      }
      if p.meta.transport.TCP? {
        var synAlerts;
        ghost var synPops;
        synAlerts, synPops := ObserveSyn(cfg, p);
        alerts, pops := alerts + synAlerts, pops + synPops;
      }
    }
  }

  /** `debounce_allows`: the answer, and the stamp it leaves behind. */
  method Debounce(cfg: Config, last: Option<int>, now: int) returns (allowed: bool, stamp: Option<int>)
    ensures allowed == DebounceAllows(cfg, last, now)
    ensures allowed <==> last.None? || now - last.value >= cfg.alertDebounceMs
    ensures stamp == if allowed then Some(now) else last
  {
    if last.Some? && now - last.value < cfg.alertDebounceMs {
      return false, last;
    }
    return true, Some(now);
  }

  // --- the count map is the bag of ports in the FIFO ---

  ghost predicate CountsMatch(counts: map<Port, nat>, events: seq<PortEvent>) {
    && (forall port: Port :: port in counts <==> port in PortBag(events))
    && (forall port <- counts :: counts[port] == PortBag(events)[port])
  }

  lemma {:induction false} BagAppend(events: seq<PortEvent>, e: PortEvent)
    ensures PortBag(events + [e]) == PortBag(events) + multiset{e.port}
  {
    if events == [] {
      assert events + [e] == [e];
    } else {
      assert (events + [e])[1..] == events[1..] + [e];
      BagAppend(events[1..], e);
    }
  }

  /** What indexing the count map with `operator[]` finds. */
  function CountOf(counts: map<Port, nat>, port: Port): nat {
    if port in counts then counts[port] else 0
  }

  lemma CountsPush(counts: map<Port, nat>, events: seq<PortEvent>, e: PortEvent)
    requires CountsMatch(counts, events)
    ensures CountsMatch(counts[e.port := CountOf(counts, e.port) + 1], events + [e])
  {
    hide PortBag;
    BagAppend(events, e);
  }

  lemma BagFront(events: seq<PortEvent>)
    requires events != []
    ensures PortBag(events) == multiset{events[0].port} + PortBag(events[1..])
  {}

  lemma CountsPop(counts: map<Port, nat>, events: seq<PortEvent>)
    requires CountsMatch(counts, events) && events != []
    ensures var port := events[0].port;
            && port in counts && counts[port] > 0
            && CountsMatch(if counts[port] == 1 then counts[port := 0] - {port} else counts[port := counts[port] - 1],
                           events[1..])
  {
    hide PortBag;
    BagFront(events);
  }

  lemma {:induction false} BagMembers(events: seq<PortEvent>, port: Port)
    ensures port in PortBag(events) <==> port in PortSet(events)
  {
    if events != [] {
      BagMembers(events[1..], port);
      assert events == [events[0]] + events[1..];
    }
  }

  /** The size of the count map is the number of distinct ports in the FIFO. */
  lemma CountsAreDistinctPorts(counts: map<Port, nat>, events: seq<PortEvent>)
    requires CountsMatch(counts, events)
    ensures |counts| == |PortSet(events)|
  {
    forall port: Port ensures port in counts <==> port in PortSet(events) {
      BagMembers(events, port);
    }
    assert counts.Keys == PortSet(events);
    assert |counts| == |counts.Keys|;
  }

  lemma WithoutSome(pending: map<FlowKey, int>, expired: seq<SynEvent>)
    ensures var left := WithoutExpired(pending, expired);
            && (forall k <- pending :: k in left <==> SynEvent(pending[k], k) !in expired)
            && (forall k <- left :: k in pending && left[k] == pending[k])
  {}

  lemma WithoutNone(pending: map<FlowKey, int>, order: seq<SynEvent>)
    ensures WithoutExpired(pending, order[..0]) == pending
  {}

  /** Popping one more ordering entry removes its connection only if the timestamps still match. */
  lemma WithoutOneMore(pending: map<FlowKey, int>, order: seq<SynEvent>, n: nat)
    requires n < |order|
    ensures var before := WithoutExpired(pending, order[..n]);
            var e := order[n];
            WithoutExpired(pending, order[..n + 1]) ==
            if e.key in before && before[e.key] == e.ms then before - {e.key} else before
  {
    assert order[..n + 1] == order[..n] + [order[n]];
  }

  // --- shards ---

  /** The records of a hash map, as values. */
  ghost function Views(records: map<Ip, PerIpState>): (views: map<Ip, IpRecord>)
    reads records.Values
    ensures views.Keys == records.Keys
    ensures forall ip <- records :: views[ip] == records[ip].View()
  {
    map ip | ip in records :: records[ip].View()
  }

  class Shard {
    ghost const cfg: Config
    var perIp: map<Ip, PerIpState>
    var observationsSinceSweep: nat
    ghost var Repr: set<object>
    /** Every observation so far, with the loop iterations it took. */
    ghost var history: ShardRun

    ghost predicate Consistent()
      reads this, Repr
      ensures Consistent() ==> this in Repr
    {
      && this in Repr
      && (forall ip <- perIp :: perIp[ip] in Repr && perIp[ip].ip == ip && perIp[ip].Valid())
    }

    ghost predicate Valid()
      reads this, Repr
      ensures Valid() ==> Consistent()
    {
      Consistent() && IsShardRun(cfg, history) && history.states[|history.packets|] == View()
    }

    ghost function Records(): map<Ip, IpRecord>
      requires Consistent()
      reads this, Repr
    {
      Views(perIp)
    }

    ghost function View(): ShardState
      requires Consistent()
      reads this, Repr
    {
      ShardState(Records(), observationsSinceSweep)
    }

    constructor (ghost cfg: Config)
      ensures Valid() && fresh(Repr)
      ensures this.cfg == cfg && View() == ShardState(map[], 0)
    {
      this.cfg := cfg;
      perIp, observationsSinceSweep := map[], 0;
      Repr := {this};
      history := EMPTY_RUN;
    }

    lemma ViewSize()
      requires Consistent()
      ensures |View().perIp| == |perIp|
    {
      assert View().perIp.Keys == perIp.Keys;
      assert |View().perIp| == |View().perIp.Keys| && |perIp| == |perIp.Keys|;
    }

    /** Both eviction passes. */
    method EvictStale(cfg: Config, nowMs: int, keepIp: Ip) returns (ghost steps: nat)
      requires Consistent()
      modifies this`perIp
      ensures Consistent()
      ensures Swept(cfg, old(Records()), Records(), nowMs, keepIp)
      ensures steps <= 2 * |old(perIp)|
    {
      hide Swept, Views, PerIpState.Valid;
      var kept;
      kept, steps := Survivors(cfg, perIp, nowMs, keepIp);
      perIp := kept;
    }

    /** The record a packet's source is tracked by, created on first sight. */
    method FindOrCreate(ip: Ip) returns (state: PerIpState)
      requires Consistent()
      modifies this`perIp, this`Repr
      ensures Consistent() && fresh(Repr - old(Repr))
      ensures perIp.Keys == old(perIp.Keys) + {ip} && perIp[ip] == state
      ensures forall other <- old(perIp) :: perIp[other] == old(perIp[other])
      ensures state.View() == RecordOf(old(Records()), ip)
      ensures Records() == old(Records())[ip := state.View()]
    {
      hide PerIpState.View, PerIpState.Valid;
      ghost var before := Records();
      if ip in perIp {
        state := perIp[ip];
      } else {
        state := new PerIpState(ip);
        perIp := perIp[ip := state];
        Repr := Repr + {state};
      }
      UpdatedAt(before, Records(), ip, state.View());
    }

    /** One of its records observes a packet; no other record changes. */
    method ObserveOwn(cfg: Config, p: QueuedPacket, state: PerIpState) returns (alerts: seq<Alert>, ghost pops: nat)
      requires Consistent() && p.meta.srcIp in perIp && perIp[p.meta.srcIp] == state
      modifies state
      ensures Consistent()
      ensures var o := ObserveRecord(cfg, old(state.View()), p);
              alerts == o.alerts && pops == o.pops && Records() == old(Records())[p.meta.srcIp := o.record]
    {
      hide ObserveRecord, PerIpState.Valid, PerIpState.View;
      ghost var before := Records();
      assert forall other <- perIp | other != p.meta.srcIp :: perIp[other].ip != state.ip;
      alerts, pops := state.Observe(cfg, p);
      UpdatedAt(before, Records(), p.meta.srcIp, state.View());
    }

    /** The packet's own record, created if need be, observes it. */
    method Touch(cfg: Config, p: QueuedPacket) returns (alerts: seq<Alert>, ghost pops: nat)
      requires Consistent()
      modifies Repr
      ensures Consistent() && fresh(Repr - old(Repr))
      ensures observationsSinceSweep == old(observationsSinceSweep) && history == old(history)
      ensures var o := ObserveRecord(cfg, RecordOf(old(Records()), p.meta.srcIp), p);
              alerts == o.alerts && pops == o.pops && Records() == old(Records())[p.meta.srcIp := o.record]
    {
      hide ObserveRecord, PerIpState.Valid, PerIpState.View, Records, RecordOf;
      ghost var before := Records();
      var state := FindOrCreate(p.meta.srcIp);
      alerts, pops := ObserveOwn(cfg, p, state);
      UpdatedTwice(before, p.meta.srcIp, RecordOf(before, p.meta.srcIp),
                   ObserveRecord(cfg, RecordOf(before, p.meta.srcIp), p).record);
    }

    /** Counts an observation; true when a sweep is due. */
    method CountObservation(cfg: Config) returns (due: bool)
      requires Consistent()
      modifies this`observationsSinceSweep
      ensures Consistent() && Records() == old(Records())
      ensures due == (old(observationsSinceSweep) + 1 >= cfg.sweepIntervalPackets)
      ensures observationsSinceSweep == if due then 0 else old(observationsSinceSweep) + 1
    {
      hide PerIpState.Valid, Views;
      observationsSinceSweep := observationsSinceSweep + 1;
      due := observationsSinceSweep >= cfg.sweepIntervalPackets;
      if due {
        observationsSinceSweep := 0;
      }
    }

    /** One packet, under this shard's lock. */
    method Observe(cfg: Config, p: QueuedPacket) returns (alerts: seq<Alert>)
      requires Valid() && cfg == this.cfg
      modifies Repr
      ensures Valid() && fresh(Repr - old(Repr))
      ensures ShardStep(cfg, old(View()), p, View(), alerts)
      ensures exists w :: history == Observed(old(history), p, View(), alerts, w)
    {
      hide WorkedStep, ShardStep, Consistent, View;
      ghost var work;
      alerts, work := ObserveCounted(cfg, p);
      ObservedIsRun(cfg, history, p, View(), alerts, work);
      Record(Observed(history, p, View(), alerts, work));
    }

    ghost method Record(run: ShardRun)
      requires Consistent()
      modifies this`history
      ensures Consistent() && View() == old(View()) && history == run
    {
      hide PerIpState.Valid, PerIpState.View;
      history := run;
      assert Records() == old(Records());
    }

    /** The same, counting the iterations of its loops. */
    method ObserveCounted(cfg: Config, p: QueuedPacket) returns (alerts: seq<Alert>, ghost work: Work)
      requires Consistent()
      modifies Repr
      ensures Consistent() && fresh(Repr - old(Repr)) && history == old(history)
      ensures WorkedStep(cfg, old(View()), p, View(), alerts, work)
      ensures ShardStep(cfg, old(View()), p, View(), alerts)
    {
      hide ObserveRecord, RecordOf, Swept, Consistent, Records;
      ghost var pops;
      ghost var before := View();
      alerts, pops := Touch(cfg, p);
      ghost var steps := 0;
      var due := CountObservation(cfg);
      if due {
        ViewSize();
        steps := EvictStale(cfg, Ms(p), p.meta.srcIp);
      }
      work := Work(pops, steps);
      TouchedSize(cfg, before, p);
    }
  }

  lemma TouchedSize(cfg: Config, s: ShardState, p: QueuedPacket)
    ensures |Touched(cfg, s.perIp, p)| == |s.perIp.Keys + {p.meta.srcIp}|
  {
    hide ObserveRecord;
    assert Touched(cfg, s.perIp, p).Keys == s.perIp.Keys + {p.meta.srcIp};
    assert |Touched(cfg, s.perIp, p)| == |Touched(cfg, s.perIp, p).Keys|;
  }

  ghost function Observed(run: ShardRun, p: QueuedPacket, s: ShardState, alerts: seq<Alert>, w: Work): ShardRun {
    ShardRun(run.packets + [p], run.states + [s], run.alerts + [alerts], run.work + [w])
  }

  lemma ObservedIsRun(cfg: Config, run: ShardRun, p: QueuedPacket, s: ShardState, alerts: seq<Alert>, w: Work)
    requires IsShardRun(cfg, run) && WorkedStep(cfg, run.states[|run.packets|], p, s, alerts, w)
    ensures IsShardRun(cfg, Observed(run, p, s, alerts, w))
  {
    hide WorkedStep;
  }

  lemma UpdatedTwice(m: map<Ip, IpRecord>, ip: Ip, a: IpRecord, b: IpRecord)
    ensures m[ip := a][ip := b] == m[ip := b]
  {}

  lemma UpdatedAt(before: map<Ip, IpRecord>, after: map<Ip, IpRecord>, ip: Ip, r: IpRecord)
    requires after.Keys == before.Keys + {ip}
    requires after[ip] == r && forall other <- before | other != ip :: after[other] == before[other]
    ensures after == before[ip := r]
  {}

  ghost predicate SubMap<V>(part: map<Ip, V>, whole: map<Ip, V>) {
    part.Keys <= whole.Keys && forall ip <- part :: part[ip] == whole[ip]
  }

  /** First pass: drop idle records, visiting the hash map in an arbitrary order. */
  method EvictIdle(cfg: Config, records: map<Ip, PerIpState>, nowMs: int, keepIp: Ip)
    returns (alive: map<Ip, PerIpState>, ghost steps: nat)
    ensures SubMap(alive, records)
    ensures forall ip <- records :: ip in alive <==> ip == keepIp || records[ip].lastSeenMs >= nowMs - cfg.idleTtlMs
    ensures steps == |records|
  {
    var idleCutoff := nowMs - cfg.idleTtlMs;
    var todo := records.Keys;
    alive, steps := records, 0;
    while todo != {}
      invariant todo <= records.Keys && SubMap(alive, records)
      invariant forall ip <- records ::
                  ip in alive <==> ip in todo || ip == keepIp || records[ip].lastSeenMs >= idleCutoff
      invariant steps + |todo| == |records|
      decreases todo
    {
      var ip :| ip in todo;
      todo := todo - {ip};
      steps := steps + 1;
      if ip != keepIp && alive[ip].lastSeenMs < idleCutoff {
        alive := alive - {ip};
      }
    }
  }

  /** Second pass: drop further records until back at the cap, again in an arbitrary order. */
  method EvictOverCap(cfg: Config, records: map<Ip, PerIpState>, keepIp: Ip)
    returns (kept: map<Ip, PerIpState>, ghost steps: nat)
    ensures SubMap(kept, records)
    ensures keepIp in records ==> keepIp in kept
    ensures |records| <= cfg.maxTrackedIpsPerShard ==> kept == records
    ensures |records| > cfg.maxTrackedIpsPerShard && keepIp in records ==> |kept| == Max(cfg.maxTrackedIpsPerShard, 1)
    ensures steps <= |records|
  {
    var todo := records.Keys;
    kept, steps := records, 0;
    while |kept| > cfg.maxTrackedIpsPerShard && todo != {}
      invariant todo <= kept.Keys <= todo + {keepIp} && SubMap(kept, records)
      invariant keepIp in records ==> keepIp in kept
      invariant |kept| >= cfg.maxTrackedIpsPerShard || kept == records
      invariant |records| <= cfg.maxTrackedIpsPerShard ==> kept == records
      invariant steps + |todo| == |records|
      decreases todo
    {
      var ip :| ip in todo;
      todo := todo - {ip};
      steps := steps + 1;
      if ip != keepIp {
        OneKeyFewer(kept, ip);
        kept := kept - {ip};
      }
    }
    KeepAlone(kept, todo, keepIp);
  }

  /** The records both passes leave behind. */
  method Survivors(cfg: Config, records: map<Ip, PerIpState>, nowMs: int, keepIp: Ip)
    returns (kept: map<Ip, PerIpState>, ghost steps: nat)
    ensures SubMap(kept, records)
    ensures Swept(cfg, Views(records), Views(kept), nowMs, keepIp)
    ensures steps <= 2 * |records|
  {
    hide Views, Swept, Max, NotIdle;
    var alive;
    ghost var more;
    alive, steps := EvictIdle(cfg, records, nowMs, keepIp);
    kept, more := EvictOverCap(cfg, alive, keepIp);
    SubMapSize(alive, records);
    steps := steps + more;
    SweptViews(cfg, records, alive, kept, nowMs, keepIp);
  }

  lemma SweptViews(cfg: Config, records: map<Ip, PerIpState>, alive: map<Ip, PerIpState>, kept: map<Ip, PerIpState>,
                   nowMs: int, keepIp: Ip)
    requires SubMap(alive, records) && SubMap(kept, alive)
    requires forall ip <- records :: ip in alive <==> ip == keepIp || records[ip].lastSeenMs >= nowMs - cfg.idleTtlMs
    requires keepIp in alive ==> keepIp in kept
    requires |alive| <= cfg.maxTrackedIpsPerShard ==> kept == alive
    requires |alive| > cfg.maxTrackedIpsPerShard && keepIp in alive ==> |kept| == Max(cfg.maxTrackedIpsPerShard, 1)
    ensures Swept(cfg, Views(records), Views(kept), nowMs, keepIp)
  {
    var before, after := Views(records), Views(kept);
    SameKeysSameSize(alive, NotIdle(cfg, before, nowMs, keepIp));
    SameKeysSameSize(kept, kept.Keys);
    SameKeysSameSize(after, kept.Keys);
  }

  lemma SameKeysSameSize<V>(m: map<Ip, V>, keys: set<Ip>)
    ensures m.Keys == keys ==> |m| == |keys|
  {
    assert |m| == |m.Keys|;
  }

  lemma SubMapSize<V>(part: map<Ip, V>, whole: map<Ip, V>)
    requires SubMap(part, whole)
    ensures |part| <= |whole|
  {
    assert whole.Keys == part.Keys + (whole.Keys - part.Keys);
    assert |part| == |part.Keys| && |whole| == |whole.Keys|;
  }

  lemma OneKeyFewer<V>(m: map<Ip, V>, ip: Ip)
    requires ip in m
    ensures |m - {ip}| == |m| - 1
  {
    assert (m - {ip}).Keys == m.Keys - {ip};
    assert |m| == |m.Keys| && |m - {ip}| == |(m - {ip}).Keys|;
  }

  lemma KeepAlone<V>(m: map<Ip, V>, todo: set<Ip>, keep: Ip)
    requires m.Keys <= todo + {keep}
    ensures todo == {} && keep in m ==> |m| == 1
  {
    if todo == {} && keep in m {
      assert m.Keys == {keep};
      assert |m| == |m.Keys|;
    }
  }
}
