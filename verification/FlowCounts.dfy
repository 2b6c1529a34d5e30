/** Exactly when the counts the two rules look at are the recount, and when they are never too high. */
module FlowCounts {
  import opened Packets
  import opened FlowModel
  import opened FlowHistory
  import opened FlowRuns
  import opened FlowLimits
  import opened FlowSources
  import opened FlowScenarios
  import opened FlowExact
  import opened FlowLate

  /** The count the port rule looks at is no greater than the recount. */
  ghost predicate PortsNotOvercounted(cfg: Config, h: History, p: QueuedPacket) {
    |PortSet(RecordAfter(cfg, h + [p]).recentDstPorts)| <= PortCount(cfg, h + [p])
  }

  ghost predicate SynsNotOvercounted(cfg: Config, h: History, p: QueuedPacket) {
    |RecordAfter(cfg, h + [p]).pendingSyns.Keys| <= SynCount(cfg, h + [p])
  }

  // --- what the queues hold is no later than what was processed ---

  lemma {:induction false} FifoPast(cfg: Config, h: History, latest: int)
    requires forall q <- h :: IsConnectionAttempt(q) ==> Ms(q) <= latest
    ensures forall e <- RecordAfter(cfg, h).recentDstPorts :: e.ms <= latest
  {
    hide ObserveRecord, IsConnectionAttempt, Ms, ExpiredPorts;
    if h == [] {
      NoRecord(cfg);
    } else {
      var front, p := h[..|h| - 1], h[|h| - 1];
      assert p in h && forall q <- front :: q in h;
      FifoPast(cfg, front, latest);
      RecordStep(cfg, RecordAfter(cfg, front), p);
    }
  }

  lemma {:induction false} OrderPast(cfg: Config, h: History, latest: int)
    requires forall q <- h :: IsTcp(q) ==> Ms(q) <= latest
    ensures forall e <- RecordAfter(cfg, h).pendingSynOrder :: e.ms <= latest
  {
    hide ObserveRecord, IsTcp, IsSynOnly, Ms, KeyOf, ExpiredSyns;
    if h == [] {
      NoRecord(cfg);
    } else {
      var front, p := h[..|h| - 1], h[|h| - 1];
      assert p in h && forall q <- front :: q in h;
      OrderPast(cfg, front, latest);
      RecordStep(cfg, RecordAfter(cfg, front), p);
    }
  }

  // --- an attempt to which everything before is stale ---

  lemma AllButLastExpire(fifo: seq<PortEvent>, e: PortEvent, cutoff: int)
    requires (forall x <- fifo :: x.ms < cutoff) && e.ms >= cutoff
    ensures ExpiredPorts(fifo + [e], cutoff) == |fifo|
  {
    var queued := fifo + [e];
    ExpiredPortsPrefix(queued, cutoff);
    assert queued[|fifo|] == e && forall i | 0 <= i < |fifo| :: queued[i] == fifo[i];
  }

  lemma AllSynsButLastExpire(order: seq<SynEvent>, last: seq<SynEvent>, cutoff: int)
    requires (forall x <- order :: x.ms < cutoff) && |last| <= 1 && forall x <- last :: x.ms >= cutoff
    ensures ExpiredSyns(order + last, cutoff) == |order|
  {
    var queued := order + last;
    ExpiredSynsPrefix(queued, cutoff);
    assert forall i | 0 <= i < |order| :: queued[i] == order[i];
    assert last != [] ==> queued[|order|] == last[0] && last[0] in last;
  }

  /** Only its own event is left. */
  lemma FreshAttemptAlone(cfg: Config, h: History, p: QueuedPacket, latest: int)
    requires cfg.portScanWindowMs >= 0 && IsConnectionAttempt(p) && latest < Ms(p) - cfg.portScanWindowMs
    requires forall q <- h :: IsConnectionAttempt(q) ==> Ms(q) <= latest
    ensures RecordAfter(cfg, h + [p]).recentDstPorts == [EventOf(p)]
  {
    hide ObserveRecord, IsConnectionAttempt, Ms, ExpiredPorts;
    FifoPast(cfg, h, latest);
    var fifo := RecordAfter(cfg, h).recentDstPorts;
    assert (h + [p])[..|h|] == h;
    RecordStep(cfg, RecordAfter(cfg, h), p);
    AllButLastExpire(fifo, EventOf(p), Ms(p) - cfg.portScanWindowMs);
    assert WithAttempt(fifo, p) == fifo + [EventOf(p)];
  }

  lemma FreshAttemptExact(cfg: Config, h: History, p: QueuedPacket, latest: int)
    requires cfg.portScanWindowMs >= 0 && IsConnectionAttempt(p) && latest < Ms(p) - cfg.portScanWindowMs
    requires forall q <- h :: IsConnectionAttempt(q) ==> Ms(q) <= latest
    ensures PortsNotOvercounted(cfg, h, p)
  {
    hide IsConnectionAttempt, Ms, RecordAfter, PortsProbed;
    FreshAttemptAlone(cfg, h, p, latest);
    assert PortSet([EventOf(p)]) == {p.meta.dstPort};
    ProbedStep(h, p, Ms(p) - cfg.portScanWindowMs);
    CountsAtLast(cfg, h, p);
    SubsetCardinality({p.meta.dstPort}, PortsProbed(h + [p], Ms(p) - cfg.portScanWindowMs));
  }

  /** Only its own connection is left, and only if the packet is a SYN. */
  lemma FreshTcpAlone(cfg: Config, h: History, p: QueuedPacket, latest: int)
    requires cfg.synFloodWindowMs >= 0 && IsTcp(p) && latest < Ms(p) - cfg.synFloodWindowMs
    requires forall q <- h :: IsTcp(q) ==> Ms(q) <= latest
    ensures RecordAfter(cfg, h + [p]).pendingSyns.Keys <= if IsSynOnly(p) then {KeyOf(p)} else {}
  {
    hide ObserveRecord, IsTcp, IsSynOnly, Ms, KeyOf, ExpiredSyns, WithoutExpired, WithPacket;
    OrderPast(cfg, h, latest);
    var order := RecordAfter(cfg, h).pendingSynOrder;
    var last := if IsSynOnly(p) then [SynEventOf(p)] else [];
    assert (h + [p])[..|h|] == h;
    RecordStep(cfg, RecordAfter(cfg, h), p);
    assert WithSyn(order, p) == order + last;
    AllSynsButLastExpire(order, last, Ms(p) - cfg.synFloodWindowMs);
    var bound := UpperBound(h + [p]);
    NeverUndercounts(cfg, h + [p], bound, bound);
    assert RecordAfter(cfg, h + [p]).pendingSynOrder == last;
  }

  lemma FreshTcpExact(cfg: Config, h: History, p: QueuedPacket, latest: int)
    requires cfg.synFloodWindowMs >= 0 && IsTcp(p) && latest < Ms(p) - cfg.synFloodWindowMs
    requires forall q <- h :: IsTcp(q) ==> Ms(q) <= latest
    ensures SynsNotOvercounted(cfg, h, p)
  {
    hide IsTcp, IsSynOnly, Ms, KeyOf, RecordAfter, HalfOpen;
    FreshTcpAlone(cfg, h, p, latest);
    HalfOpenStep(h, p, Ms(p) - cfg.synFloodWindowMs, KeyOf(p));
    CountsAtLast(cfg, h, p);
    SubsetCardinality(RecordAfter(cfg, h + [p]).pendingSyns.Keys, HalfOpen(h + [p], Ms(p) - cfg.synFloodWindowMs));
  }

  // --- counted too high ---

  lemma OvercountedAttempt(cfg: Config, latest: int, t: int) returns (h: History, p: QueuedPacket)
    requires cfg.portScanWindowMs >= 0 && t - cfg.portScanWindowMs <= latest
    ensures LatestAttempt(h, latest) && IsConnectionAttempt(p) && Ms(p) == t && !PortsNotOvercounted(cfg, h, p)
  {
    var x := t - cfg.portScanWindowMs - 1;
    DatagramIs(latest, 1, 7);
    DatagramIs(x, 1, 8);
    DatagramIs(t, 1, 9);
    h, p := [Datagram(latest, 1, 7)] + [Datagram(x, 1, 8)], Datagram(t, 1, 9);
    hide Datagram, Ms, IsConnectionAttempt, RecordAfter, PortCount, PortSet;
    LateProbeOvercounts(cfg, Datagram(latest, 1, 7), Datagram(x, 1, 8), p);
    assert h[0] in h;
  }

  lemma OvercountedSyn(cfg: Config, latest: int, t: int) returns (h: History, p: QueuedPacket)
    requires cfg.synFloodWindowMs >= 0 && t - cfg.synFloodWindowMs <= latest
    ensures LatestTcp(h, latest) && IsTcp(p) && Ms(p) == t && !SynsNotOvercounted(cfg, h, p)
  {
    hide SynTo, Ms, IsTcp, ThreeSyns, RecordAfter, SynCount;
    var x := t - cfg.synFloodWindowMs - 1;
    SynsOf(latest, x, t);
    var a, b := SynTo(latest, FloodKey(7)), SynTo(x, FloodKey(8));
    h, p := [a] + [b], SynTo(t, FloodKey(9));
    LateSynOvercounts(cfg, a, b, p);
    assert h[0] in h;
  }

  /** For an attempt at time `t` after attempts up to time `latest`: whatever they were, the count is no higher
      than the recount, if and only if all of them have left the window. */
  lemma PortsNotOvercountedIff(cfg: Config, latest: int, t: int)
    requires cfg.portScanWindowMs >= 0
    ensures (forall h: History, p: QueuedPacket |
               LatestAttempt(h, latest) && IsConnectionAttempt(p) && Ms(p) == t :: PortsNotOvercounted(cfg, h, p)) <==>
            latest < t - cfg.portScanWindowMs
  {
    hide Ms, IsConnectionAttempt, PortsNotOvercounted;
    if latest < t - cfg.portScanWindowMs {
      forall h: History, p: QueuedPacket | LatestAttempt(h, latest) && IsConnectionAttempt(p) && Ms(p) == t
        ensures PortsNotOvercounted(cfg, h, p)
      {
        FreshAttemptExact(cfg, h, p, latest);
      }
    } else {
      var h, p := OvercountedAttempt(cfg, latest, t);
    }
  }

  /** The same for half-open connections at a TCP packet. */
  lemma SynsNotOvercountedIff(cfg: Config, latest: int, t: int)
    requires cfg.synFloodWindowMs >= 0
    ensures (forall h: History, p: QueuedPacket |
               LatestTcp(h, latest) && IsTcp(p) && Ms(p) == t :: SynsNotOvercounted(cfg, h, p)) <==>
            latest < t - cfg.synFloodWindowMs
  {
    hide Ms, IsTcp, SynsNotOvercounted;
    if latest < t - cfg.synFloodWindowMs {
      forall h: History, p: QueuedPacket | LatestTcp(h, latest) && IsTcp(p) && Ms(p) == t
        ensures SynsNotOvercounted(cfg, h, p)
      {
        FreshTcpExact(cfg, h, p, latest);
      }
    } else {
      var h, p := OvercountedSyn(cfg, latest, t);
    }
  }

  // --- the count is the recount ---

  /** Both counts, where their rules look at them, are the recounts. */
  ghost predicate CountsExact(cfg: Config, h: History, p: QueuedPacket) {
    && (IsConnectionAttempt(p) ==> |PortSet(RecordAfter(cfg, h + [p]).recentDstPorts)| == PortCount(cfg, h + [p]))
    && (IsTcp(p) ==> |RecordAfter(cfg, h + [p]).pendingSyns.Keys| == SynCount(cfg, h + [p]))
  }

  /** No packet is more than `late` milliseconds older than one before it. */
  ghost predicate Disordered(h: History, late: nat) {
    forall i, j | 0 <= i <= j < |h| :: Ms(h[i]) - late <= Ms(h[j])
  }

  /** In order, both counts are the recounts. */
  lemma CountsExactInOrder(cfg: Config, h: History, p: QueuedPacket)
    requires InOrder(h + [p])
    ensures CountsExact(cfg, h, p)
  {
    hide InOrder, ObserveRecord, PortSet, PortCount, SynCount, Ms, IsConnectionAttempt, IsTcp, QueuesAgree, StampsAgree;
    assert (h + [p])[..|h|] == h;
    UninterruptedIsRecount(cfg, h, p);
    RecordStep(cfg, RecordAfter(cfg, h), p);
    RecountFrom(cfg, RecordAfter(cfg, h), h, p, RecordAfter(cfg, h + [p]), Ms(p));
  }

  /** Three probes, or three SYNs, of which the second is one millisecond late. */
  lemma OneLateProbe(cfg: Config) returns (h: History, p: QueuedPacket)
    requires cfg.portScanWindowMs >= 0
    ensures Disordered(h + [p], 1) && IsConnectionAttempt(p) && !CountsExact(cfg, h, p)
    ensures forall q <- h + [p] :: !IsTcp(q)
  {
    var t := cfg.portScanWindowMs + 1;
    DatagramIs(1, 1, 7);
    DatagramIs(0, 1, 8);
    DatagramIs(t, 1, 9);
    h, p := [Datagram(1, 1, 7)] + [Datagram(0, 1, 8)], Datagram(t, 1, 9);
    hide Datagram, Ms, IsConnectionAttempt, IsTcp, RecordAfter, PortCount, PortSet;
    LateProbeOvercounts(cfg, Datagram(1, 1, 7), Datagram(0, 1, 8), p);
  }

  lemma OneLateSyn(cfg: Config) returns (h: History, p: QueuedPacket)
    requires cfg.synFloodWindowMs >= 0
    ensures Disordered(h + [p], 1) && IsTcp(p) && !CountsExact(cfg, h, p)
  {
    hide SynTo, Ms, IsTcp, ThreeSyns, RecordAfter, SynCount, PortCount, PortSet, IsConnectionAttempt;
    var t := cfg.synFloodWindowMs + 1;
    SynsOf(1, 0, t);
    var a, b := SynTo(1, FloodKey(7)), SynTo(0, FloodKey(8));
    h, p := [a] + [b], SynTo(t, FloodKey(9));
    LateSynOvercounts(cfg, a, b, p);
  }

  /** Over all histories at most `late` out of order, and for either rule's packets: the counts the rules look
      at are always the recounts, if and only if nothing may be late at all. */
  lemma CountsExactIffInOrder(cfg: Config, late: nat)
    requires cfg.portScanWindowMs >= 0 && cfg.synFloodWindowMs >= 0
    ensures (forall h: History, p: QueuedPacket | Disordered(h + [p], late) && !IsTcp(p) :: CountsExact(cfg, h, p)) <==>
            late == 0
    ensures (forall h: History, p: QueuedPacket | Disordered(h + [p], late) && IsTcp(p) :: CountsExact(cfg, h, p)) <==>
            late == 0
  {
    hide Ms, IsTcp, CountsExact, IsConnectionAttempt;
    if late == 0 {
      forall h: History, p: QueuedPacket | Disordered(h + [p], late) ensures CountsExact(cfg, h, p) {
        CountsExactInOrder(cfg, h, p);
      }
    } else {
      var h, p := OneLateProbe(cfg);
      assert p in h + [p] && Disordered(h + [p], late);
      var g, q := OneLateSyn(cfg);
      assert Disordered(g + [q], late);
    }
  }
}
