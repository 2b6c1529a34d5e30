/** The flow rules said once more, from the packets alone: by flag bytes, addresses, ports and times of the log,
    without records, histories, queues or stamps. */
module FlowSpec {
  import opened Packets
  import opened FlowModel
  import opened FlowHistory
  import opened FlowRules
  import opened FlowRuns
  import FlowTracker

  // --- one packet ---

  /** A time is the seconds and the whole milliseconds among the microseconds, rounded toward zero. */
  lemma MillisecondsTruncate(p: QueuedPacket, millis: int, rest: int)
    requires p.meta.timestamp.usec == 1000 * millis + rest && -1000 < rest < 1000
    requires if p.meta.timestamp.usec >= 0 then rest >= 0 else rest <= 0
    ensures Ms(p) == 1000 * p.meta.timestamp.sec + millis
  {}

  /** `fifo'` is `fifo` with `e` behind it and the leading events older than `cutoff` popped. */
  ghost predicate Slid(fifo: seq<PortEvent>, e: PortEvent, cutoff: int, fifo': seq<PortEvent>) {
    exists k: nat :: k <= |fifo| + 1 && SlidBy(fifo, e, cutoff, fifo', k)
  }

  ghost predicate SlidBy(fifo: seq<PortEvent>, e: PortEvent, cutoff: int, fifo': seq<PortEvent>, k: nat)
    requires k <= |fifo| + 1
  {
    && fifo' == (fifo + [e])[k..]
    && (forall i | 0 <= i < k :: (fifo + [e])[i].ms < cutoff)
    && (fifo' != [] ==> fifo'[0].ms >= cutoff)
  }

  /** What the flag byte of a TCP packet does to its source's record: with ACK (bit 4) it is no attempt and
      completes its connection; with SYN (bit 1) and no ACK it is an attempt and leaves its connection
      half-open; with neither it does neither. */
  lemma FlagsDecide(cfg: Config, r: IpRecord, p: QueuedPacket)
    requires p.meta.transport == TCP
    ensures var f := p.meta.tcpFlags;
            var key := FlowKey(p.meta.srcIp, p.meta.dstIp, p.meta.srcPort, p.meta.dstPort);
            var r' := ObserveRecord(cfg, r, p).record;
            && (f % 32 >= 16 ==> r'.recentDstPorts == r.recentDstPorts && key !in r'.pendingSyns)
            && (f % 32 < 16 && f % 4 >= 2 ==>
                  && Slid(r.recentDstPorts, PortEvent(Ms(p), p.meta.dstPort), Ms(p) - cfg.portScanWindowMs,
                          r'.recentDstPorts)
                  && (cfg.portScanWindowMs >= 0 ==> PortEvent(Ms(p), p.meta.dstPort) in r'.recentDstPorts)
                  && (cfg.synFloodWindowMs >= 0 ==> key in r'.pendingSyns && r'.pendingSyns[key] == Ms(p)))
            && (f % 32 < 16 && f % 4 < 2 ==>
                  && r'.recentDstPorts == r.recentDstPorts
                  && (key in r'.pendingSyns ==> key in r.pendingSyns && r'.pendingSyns[key] == r.pendingSyns[key]))
            && (forall k <- r'.pendingSyns :: k != key ==> k in r.pendingSyns && r'.pendingSyns[k] == r.pendingSyns[k])
  {
    hide HasSyn, HasAck, ObserveRecord, Ms, Slid, SynsStep;
    FlagBits(p.meta.tcpFlags);
    RecordStep(cfg, r, p);
    HandshakeStep(cfg, r, p, ObserveRecord(cfg, r, p).record);
    if IsConnectionAttempt(p) {
      AttemptSlides(cfg, r, p, ObserveRecord(cfg, r, p).record);
    }
  }

  lemma FlagBits(f: Byte)
    ensures HasSyn(f) <==> f % 4 >= 2
    ensures HasAck(f) <==> f % 32 >= 16
  {
    SynBit(f, f / 4, f % 4);
    AckBit(f, f / 32, f % 32);
  }

  lemma SynBit(f: Byte, q: int, r: int)
    requires f == 4 * q + r && 0 <= r < 4
    ensures HasSyn(f) <==> r >= 2
  {
    assert f / 2 == 2 * q + if r >= 2 then 1 else 0;
  }

  lemma AckBit(f: Byte, q: int, r: int)
    requires f == 32 * q + r && 0 <= r < 32
    ensures HasAck(f) <==> r >= 16
  {
    assert f / 16 == 2 * q + if r >= 16 then 1 else 0;
  }

  /** Only the packet's own connection changes, except for those that expire. */
  lemma HandshakeStep(cfg: Config, r: IpRecord, p: QueuedPacket, r': IpRecord)
    requires SynsStep(cfg, r, p, r') && IsTcp(p)
    ensures var key := FlowKey(p.meta.srcIp, p.meta.dstIp, p.meta.srcPort, p.meta.dstPort);
            && (HasAck(p.meta.tcpFlags) ==> key !in r'.pendingSyns)
            && (HasSyn(p.meta.tcpFlags) && !HasAck(p.meta.tcpFlags) && cfg.synFloodWindowMs >= 0 ==>
                  key in r'.pendingSyns && r'.pendingSyns[key] == Ms(p))
            && (!HasSyn(p.meta.tcpFlags) && key in r'.pendingSyns ==>
                  key in r.pendingSyns && r'.pendingSyns[key] == r.pendingSyns[key])
            && (forall k <- r'.pendingSyns :: k != key ==> k in r.pendingSyns && r'.pendingSyns[k] == r.pendingSyns[k])
  {
    hide HasSyn, HasAck, Ms, ExpiredSyns;
    var order := WithSyn(r.pendingSynOrder, p);
    ExpiredSynsPrefix(order, Ms(p) - cfg.synFloodWindowMs);
  }

  lemma AttemptSlides(cfg: Config, r: IpRecord, p: QueuedPacket, r': IpRecord)
    requires PortsStep(cfg, r, p, r') && IsConnectionAttempt(p)
    ensures var e, cutoff := PortEvent(Ms(p), p.meta.dstPort), Ms(p) - cfg.portScanWindowMs;
            && Slid(r.recentDstPorts, e, cutoff, r'.recentDstPorts)
            && (cfg.portScanWindowMs >= 0 ==> e in r'.recentDstPorts)
  {
    hide Ms;
    var e, cutoff := PortEvent(Ms(p), p.meta.dstPort), Ms(p) - cfg.portScanWindowMs;
    var queued := r.recentDstPorts + [e];
    var k := ExpiredPorts(queued, cutoff);
    ExpiredPortsPrefix(queued, cutoff);
    assert SlidBy(r.recentDstPorts, e, cutoff, r'.recentDstPorts, k);
    assert queued[|queued| - 1] == e;
    if cfg.portScanWindowMs >= 0 {
      assert r'.recentDstPorts[|r'.recentDstPorts| - 1] == e;
    }
  }

  /** A UDP packet is an attempt if and only if it does not come from a service port, and other traffic never
      is; neither touches the half-open connections. */
  lemma SourcePortDecides(cfg: Config, r: IpRecord, p: QueuedPacket)
    requires p.meta.transport != TCP
    ensures var r' := ObserveRecord(cfg, r, p).record;
            && r'.pendingSyns == r.pendingSyns
            && if p.meta.transport == UDP && p.meta.srcPort >= 1024 then
                 && Slid(r.recentDstPorts, PortEvent(Ms(p), p.meta.dstPort), Ms(p) - cfg.portScanWindowMs,
                         r'.recentDstPorts)
                 && (cfg.portScanWindowMs >= 0 ==> PortEvent(Ms(p), p.meta.dstPort) in r'.recentDstPorts)
               else r'.recentDstPorts == r.recentDstPorts
  {
    hide ObserveRecord, Ms, Slid;
    RecordStep(cfg, r, p);
    if IsConnectionAttempt(p) {
      AttemptSlides(cfg, r, p, ObserveRecord(cfg, r, p).record);
    }
  }

  // --- one sweep ---

  /** A sweep at `now` drops whom it should: never the current source, every source idle for longer than the
      time-to-live, nobody else while the rest fit under the cap, and otherwise just enough to fit, one record
      being the least. */
  lemma SweptIff(cfg: Config, before: map<Ip, IpRecord>, after: map<Ip, IpRecord>, now: int, keep: Ip)
    requires keep in before
    ensures var active := set ip | ip in before && (ip == keep || now - before[ip].lastSeenMs <= cfg.idleTtlMs);
            Swept(cfg, before, after, now, keep) <==>
            && keep in after
            && (forall ip <- after :: ip in active && after[ip] == before[ip])
            && if |active| <= cfg.maxTrackedIpsPerShard then forall ip <- active :: ip in after
               else |after| == if cfg.maxTrackedIpsPerShard == 0 then 1 else cfg.maxTrackedIpsPerShard
  {
    var active := set ip | ip in before && (ip == keep || now - before[ip].lastSeenMs <= cfg.idleTtlMs);
    assert NotIdle(cfg, before, now, keep) == active;
    hide NotIdle;
  }

  // --- the rules, read off the log ---

  predicate IsFrom(p: QueuedPacket, ip: Ip) { p.meta.hasIp && p.meta.srcIp == ip }

  predicate OpensTcp(p: QueuedPacket) {
    p.meta.transport == TCP && p.meta.tcpFlags % 4 >= 2 && p.meta.tcpFlags % 32 < 16
  }

  predicate Answers(p: QueuedPacket) { p.meta.transport == TCP && p.meta.tcpFlags % 32 >= 16 }

  predicate IsAttempt(p: QueuedPacket) { OpensTcp(p) || (p.meta.transport == UDP && p.meta.srcPort >= 1024) }

  function Connection(p: QueuedPacket): FlowKey {
    FlowKey(p.meta.srcIp, p.meta.dstIp, p.meta.srcPort, p.meta.dstPort)
  }

  /** Ports a source has attempted at or after `cutoff`. */
  function PortsTried(log: History, ip: Ip, cutoff: int): set<Port> {
    set i | 0 <= i < |log| && IsFrom(log[i], ip) && IsAttempt(log[i]) && Ms(log[i]) >= cutoff :: log[i].meta.dstPort
  }

  /** Packet `i` opens a connection that no later packet of its source opens again or answers. */
  predicate StaysOpen(log: History, ip: Ip, i: nat)
    requires i < |log|
  {
    && OpensTcp(log[i])
    && forall j | i < j < |log| && IsFrom(log[j], ip) && Connection(log[j]) == Connection(log[i]) ::
         !OpensTcp(log[j]) && !Answers(log[j])
  }

  /** Connections a source has opened at or after `cutoff` and left open. */
  function LeftOpen(log: History, ip: Ip, cutoff: int): set<FlowKey> {
    set i | 0 <= i < |log| && IsFrom(log[i], ip) && StaysOpen(log, ip, i) && Ms(log[i]) >= cutoff :: Connection(log[i])
  }

  predicate Alerted(alerts: seq<Alert>, kind: AnomalyType) { exists a <- alerts :: a.kind == kind }

  /** No earlier packet of the source of packet `n` raised an alert of this kind less than a debounce ago. */
  predicate Rested(cfg: Config, log: History, alerts: seq<seq<Alert>>, n: nat, kind: AnomalyType)
    requires n < |log| == |alerts|
  {
    forall m | 0 <= m < n && IsFrom(log[m], log[n].meta.srcIp) && Alerted(alerts[m], kind) ::
      Ms(log[n]) - Ms(log[m]) >= cfg.alertDebounceMs
  }

  /** What packet `n` must raise, given what earlier ones raised. */
  function Due(cfg: Config, log: History, alerts: seq<seq<Alert>>, n: nat): seq<Alert>
    requires n < |log| == |alerts|
  {
    var p := log[n];
    var ports := |PortsTried(log[..n + 1], p.meta.srcIp, Ms(p) - cfg.portScanWindowMs)|;
    var open := |LeftOpen(log[..n + 1], p.meta.srcIp, Ms(p) - cfg.synFloodWindowMs)|;
    (if && p.meta.hasIp && IsAttempt(p) && ports >= cfg.portScanDistinctPortThreshold
        && Rested(cfg, log, alerts, n, PortScan)
     then [Alert(PortScan, p.meta.srcIp, p.meta.dstIp, 0, 0, DistinctPorts(ports, cfg.portScanWindowMs))]
     else []) +
    (if && p.meta.hasIp && p.meta.transport == TCP && open >= cfg.synFloodPendingThreshold
        && Rested(cfg, log, alerts, n, SynFlood)
     then [Alert(SynFlood, p.meta.srcIp, 0, 0, 0, PendingSyns(open, cfg.synFloodWindowMs))]
     else [])
  }

  // --- the naive detector is these rules ---

  lemma SamePredicates(p: QueuedPacket)
    ensures IsSynOnly(p) <==> OpensTcp(p)
    ensures IsAck(p) <==> Answers(p)
    ensures IsConnectionAttempt(p) <==> IsAttempt(p)
    ensures KeyOf(p) == Connection(p)
  {
    hide HasSyn, HasAck;
    FlagBits(p.meta.tcpFlags);
  }

  lemma {:induction false} PortsTriedAreProbed(log: History, ip: Ip, cutoff: int)
    ensures PortsProbed(Of(log, ip), cutoff) == PortsTried(log, ip, cutoff)
  {
    if log == [] {
      assert PortsTried(log, ip, cutoff) == {} == PortsProbed([], cutoff);
    } else {
      hide Ms, IsAttempt, Of, PortsTried, PortsProbed;
      var front, p := log[..|log| - 1], log[|log| - 1];
      PortsTriedAreProbed(front, ip, cutoff);
      OfStep(front, p, ip);
      assert log == front + [p];
      forall port ensures port in PortsProbed(Of(log, ip), cutoff) <==> port in PortsTried(log, ip, cutoff) {
        TriedStep(front, p, ip, cutoff, port);
        ProbedOneMore(Of(front, ip), p, cutoff, port);
      }
    }
  }

  lemma TriedStep(front: History, p: QueuedPacket, ip: Ip, cutoff: int, port: Port)
    ensures port in PortsTried(front + [p], ip, cutoff) <==>
            port in PortsTried(front, ip, cutoff) ||
            (IsFrom(p, ip) && IsAttempt(p) && Ms(p) >= cutoff && p.meta.dstPort == port)
  {
    hide Ms, IsAttempt;
    var log := front + [p];
    assert log[|front|] == p && forall i | 0 <= i < |front| :: log[i] == front[i];
    if port in PortsTried(front, ip, cutoff) {
      var i :| 0 <= i < |front| && IsFrom(front[i], ip) && IsAttempt(front[i]) && Ms(front[i]) >= cutoff
               && front[i].meta.dstPort == port;
      assert log[i] == front[i];
    }
  }

  lemma ProbedOneMore(h: History, p: QueuedPacket, cutoff: int, port: Port)
    ensures port in PortsProbed(h + [p], cutoff) <==>
            port in PortsProbed(h, cutoff) || (IsAttempt(p) && Ms(p) >= cutoff && p.meta.dstPort == port)
  {
    SamePredicates(p);
    hide Ms, IsAttempt, IsConnectionAttempt;
    var log := h + [p];
    assert log[|h|] == p && forall i | 0 <= i < |h| :: log[i] == h[i];
    if port in PortsProbed(h, cutoff) {
      var i :| 0 <= i < |h| && IsConnectionAttempt(h[i]) && Ms(h[i]) >= cutoff && h[i].meta.dstPort == port;
      assert log[i] == h[i];
    }
  }

  lemma LeftOpenStep(front: History, p: QueuedPacket, ip: Ip, cutoff: int, k: FlowKey)
    ensures k in LeftOpen(front + [p], ip, cutoff) <==>
            if IsFrom(p, ip) && OpensTcp(p) && Connection(p) == k then Ms(p) >= cutoff
            else k in LeftOpen(front, ip, cutoff) && !(IsFrom(p, ip) && Answers(p) && Connection(p) == k)
  {
    hide Ms, OpensTcp, Answers, Connection;
    var log := front + [p];
    assert log[|front|] == p && forall i | 0 <= i < |front| :: log[i] == front[i];
    forall i | 0 <= i < |front|
      ensures StaysOpen(log, ip, i) <==>
              StaysOpen(front, ip, i) &&
              !(IsFrom(p, ip) && Connection(p) == Connection(front[i]) && (OpensTcp(p) || Answers(p)))
    {
      if StaysOpen(log, ip, i) {
        forall j | i < j < |front| && IsFrom(front[j], ip) && Connection(front[j]) == Connection(front[i])
          ensures !OpensTcp(front[j]) && !Answers(front[j])
        {
          assert log[j] == front[j];
        }
      }
    }
    assert StaysOpen(log, ip, |front|) <==> OpensTcp(p);
    if k in LeftOpen(front, ip, cutoff) {
      var i :| 0 <= i < |front| && IsFrom(front[i], ip) && StaysOpen(front, ip, i) && Ms(front[i]) >= cutoff
               && Connection(front[i]) == k;
      assert log[i] == front[i];
    }
    if k in LeftOpen(log, ip, cutoff) {
      var i :| 0 <= i < |log| && IsFrom(log[i], ip) && StaysOpen(log, ip, i) && Ms(log[i]) >= cutoff
               && Connection(log[i]) == k;
      if i < |front| { assert log[i] == front[i]; }
    }
    if IsFrom(p, ip) && OpensTcp(p) && Connection(p) == k && Ms(p) >= cutoff {
      assert log[|front|] == p;
    }
  }

  lemma {:induction false} LeftOpenAreHalfOpen(log: History, ip: Ip, cutoff: int)
    ensures HalfOpen(Of(log, ip), cutoff) == LeftOpen(log, ip, cutoff)
  {
    if log == [] {
      assert LeftOpen(log, ip, cutoff) == {} == HalfOpen([], cutoff);
    } else {
      var front, p := log[..|log| - 1], log[|log| - 1];
      SamePredicates(p);
      hide Ms, Of, HalfOpen, LeftOpen, IsSynOnly, IsAck, OpensTcp, Answers, KeyOf, Connection;
      LeftOpenAreHalfOpen(front, ip, cutoff);
      OfStep(front, p, ip);
      assert log == front + [p];
      forall k ensures k in HalfOpen(Of(log, ip), cutoff) <==> k in LeftOpen(log, ip, cutoff) {
        LeftOpenStep(front, p, ip, cutoff, k);
        HalfOpenStep(Of(front, ip), p, cutoff, k);
      }
    }
  }

  // --- stamps are the latest alerts ---

  /** `last` is the time of the source's latest alert of this kind among the first `n` packets. */
  ghost predicate LastAlert(log: History, alerts: seq<seq<Alert>>, n: nat, ip: Ip, kind: AnomalyType, last: Option<int>)
    requires n <= |log| == |alerts|
  {
    && (last.Some? ==> exists m :: 0 <= m < n && AlertedAt(log, alerts, m, ip, kind) && Ms(log[m]) == last.value)
    && (forall m | 0 <= m < n && AlertedAt(log, alerts, m, ip, kind) :: last.Some? && Ms(log[m]) <= last.value)
  }

  predicate AlertedAt(log: History, alerts: seq<seq<Alert>>, m: nat, ip: Ip, kind: AnomalyType)
    requires m < |log| == |alerts|
  {
    IsFrom(log[m], ip) && Alerted(alerts[m], kind)
  }

  lemma RestedIff(cfg: Config, log: History, alerts: seq<seq<Alert>>, n: nat, kind: AnomalyType, last: Option<int>)
    requires n < |log| == |alerts| && LastAlert(log, alerts, n, log[n].meta.srcIp, kind, last)
    ensures Rested(cfg, log, alerts, n, kind) <==> DebounceAllows(cfg, last, Ms(log[n]))
  {
    hide Ms, Alerted;
  }

  lemma StampStep(log: History, alerts: seq<seq<Alert>>, n: nat, ip: Ip, kind: AnomalyType, last: Option<int>,
                  last': Option<int>)
    requires n < |log| == |alerts| && Chronological(log) && LastAlert(log, alerts, n, ip, kind, last)
    requires last' == if AlertedAt(log, alerts, n, ip, kind) then Some(Ms(log[n])) else last
    ensures LastAlert(log, alerts, n + 1, ip, kind, last')
  {
    hide Ms, Alerted;
    if last.Some? && !AlertedAt(log, alerts, n, ip, kind) {
      var m :| 0 <= m < n && AlertedAt(log, alerts, m, ip, kind) && Ms(log[m]) == last.value;
    }
  }

  lemma AlertedIff(cfg: Config, p: QueuedPacket, ports: nat, syns: nat, last: Stamps)
    ensures Alerted(RuleAlerts(cfg, p, ports, syns, last), PortScan) <==> PortRuleFires(cfg, p, ports, last.portScan)
    ensures Alerted(RuleAlerts(cfg, p, ports, syns, last), SynFlood) <==> SynRuleFires(cfg, p, syns, last.synFlood)
  {
    var alerts := RuleAlerts(cfg, p, ports, syns, last);
    if PortRuleFires(cfg, p, ports, last.portScan) { assert alerts[0].kind == PortScan; }
    if SynRuleFires(cfg, p, syns, last.synFlood) { assert alerts[|alerts| - 1].kind == SynFlood; }
  }

  /** A detector's alerts at packet `n` of the log, from its source's history. */
  ghost predicate SoloSoFar(cfg: Config, log: History, alerts: seq<seq<Alert>>)
    requires |log| == |alerts|
  {
    forall m | 0 <= m < |log| :: alerts[m] == SoloAlerts(cfg, log[..m + 1])
  }

  /** The history of a source, one packet on. */
  lemma OfPrefix(log: History, n: nat, ip: Ip)
    requires n < |log|
    ensures Of(log[..n + 1], ip) == if IsFrom(log[n], ip) then Of(log[..n], ip) + [log[n]] else Of(log[..n], ip)
  {
    OfStep(log[..n], log[n], ip);
    assert log[..n + 1] == log[..n] + [log[n]];
  }

  lemma {:induction false} StampsAreLastAlerts(cfg: Config, log: History, alerts: seq<seq<Alert>>, n: nat, ip: Ip)
    requires n <= |log| == |alerts| && Chronological(log) && SoloSoFar(cfg, log, alerts)
    ensures LastAlert(log, alerts, n, ip, PortScan, NaiveStamps(cfg, Of(log[..n], ip)).portScan)
    ensures LastAlert(log, alerts, n, ip, SynFlood, NaiveStamps(cfg, Of(log[..n], ip)).synFlood)
  {
    if n > 0 {
      hide Ms, Alerted, LastAlert, PortCount, SynCount, PortRuleFires, SynRuleFires, RuleAlerts, Chronological;
      var p, h := log[n - 1], Of(log[..n - 1], ip);
      StampsAreLastAlerts(cfg, log, alerts, n - 1, ip);
      OfPrefix(log, n - 1, ip);
      var before, after := NaiveStamps(cfg, h), NaiveStamps(cfg, Of(log[..n], ip));
      if IsFrom(p, ip) {
        assert (h + [p])[..|h|] == h;
        assert alerts[n - 1] == RuleAlerts(cfg, p, PortCount(cfg, h + [p]), SynCount(cfg, h + [p]), before);
        AlertedIff(cfg, p, PortCount(cfg, h + [p]), SynCount(cfg, h + [p]), before);
      }
      StampStep(log, alerts, n - 1, ip, PortScan, before.portScan, after.portScan);
      StampStep(log, alerts, n - 1, ip, SynFlood, before.synFlood, after.synFlood);
    }
  }

  lemma SoloIsDue(cfg: Config, log: History, alerts: seq<seq<Alert>>, n: nat)
    requires n < |log| == |alerts| && Chronological(log) && SoloSoFar(cfg, log, alerts)
    ensures alerts[n] == Due(cfg, log, alerts, n)
  {
    hide Ms, LastAlert, Rested, PortsProbed, HalfOpen, PortsTried, LeftOpen, Chronological, Due, RuleAlerts;
    hide PortCount, SynCount, NaiveStamps;
    var p := log[n];
    if p.meta.hasIp {
      var ip := p.meta.srcIp;
      var h := Of(log[..n], ip);
      OfPrefix(log, n, ip);
      StampsAreLastAlerts(cfg, log, alerts, n, ip);
      RestedIff(cfg, log, alerts, n, PortScan, NaiveStamps(cfg, h).portScan);
      RestedIff(cfg, log, alerts, n, SynFlood, NaiveStamps(cfg, h).synFlood);
      PortsTriedAreProbed(log[..n + 1], ip, Ms(p) - cfg.portScanWindowMs);
      LeftOpenAreHalfOpen(log[..n + 1], ip, Ms(p) - cfg.synFloodWindowMs);
      CountsAtLast(cfg, h, p);
      assert (h + [p])[..|h|] == h;
      assert alerts[n] == NaiveAlerts(cfg, h + [p]);
      RuleAlertsAreDue(cfg, log, alerts, n, PortCount(cfg, h + [p]), SynCount(cfg, h + [p]), NaiveStamps(cfg, h));
    } else {
      NothingDue(cfg, log, alerts, n);
    }
  }

  lemma RuleAlertsAreDue(cfg: Config, log: History, alerts: seq<seq<Alert>>, n: nat, ports: nat, open: nat, last: Stamps)
    requires n < |log| == |alerts| && log[n].meta.hasIp
    requires ports == |PortsTried(log[..n + 1], log[n].meta.srcIp, Ms(log[n]) - cfg.portScanWindowMs)|
    requires open == |LeftOpen(log[..n + 1], log[n].meta.srcIp, Ms(log[n]) - cfg.synFloodWindowMs)|
    requires Rested(cfg, log, alerts, n, PortScan) <==> DebounceAllows(cfg, last.portScan, Ms(log[n]))
    requires Rested(cfg, log, alerts, n, SynFlood) <==> DebounceAllows(cfg, last.synFlood, Ms(log[n]))
    ensures RuleAlerts(cfg, log[n], ports, open, last) == Due(cfg, log, alerts, n)
  {
    SamePredicates(log[n]);
    hide Ms, Rested, PortsTried, LeftOpen, IsAttempt, IsConnectionAttempt, DebounceAllows;
  }

  lemma NothingDue(cfg: Config, log: History, alerts: seq<seq<Alert>>, n: nat)
    requires n < |log| == |alerts| && !log[n].meta.hasIp
    ensures Due(cfg, log, alerts, n) == []
  {
    hide Ms, Rested, PortsTried, LeftOpen, IsAttempt;
  }

  /** The sharded, evicting tracker raises, at every packet of every such run, what the log says is due:
      nothing for other than IP traffic; a port scan exactly at an attempt with enough distinct ports in the
      window, a SYN flood exactly at a TCP packet with enough connections left open in the window, unless the
      same source raised the same alert less than a debounce ago. */
  lemma TrackerRaisesWhatIsDue(cfg: Config, hash: Ip -> nat, run: Run, n: nat)
    requires IsRun(cfg, hash, run) && n < |run.packets|
    requires Chronological(run.packets) && TtlCoversRules(cfg) && Unforced(cfg, hash, run)
    ensures run.alerts[n] == Due(cfg, run.packets, run.alerts, n)
  {
    hide Due, TrackerStep, SoloAlerts, Chronological, UnforcedAt, TtlCoversRules;
    EvictionAndShardingInvisible(cfg, hash, run);
    SoloIsDue(cfg, run.packets, run.alerts, n);
  }

  /** The same of every sequence of calls on a tracker object. */
  lemma ObjectRaisesWhatIsDue(tracker: FlowTracker.FlowTracker, n: nat)
    requires tracker.Valid() && FlowTracker.UnforcedSoFar(tracker) && n < |tracker.run.packets|
    requires Chronological(tracker.run.packets) && TtlCoversRules(tracker.cfg)
    ensures tracker.run.alerts[n] == Due(tracker.cfg, tracker.run.packets, tracker.run.alerts, n)
  {
    TrackerRaisesWhatIsDue(tracker.cfg, tracker.hash, tracker.run, n);
  }
}
