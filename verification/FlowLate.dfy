/** Packets that arrive late: what is still counted, exactly when nothing is missed, and what goes wrong
    otherwise. */
module FlowLate {
  import opened Packets
  import opened FlowModel
  import opened FlowHistory
  import opened FlowRuns
  import opened FlowLimits
  import opened FlowSources
  import opened FlowScenarios
  import opened FlowExact

  // --- one record: the counts cover the recount exactly when the packet is not late ---

  /** The count the port rule looks at is no smaller than the recount. */
  ghost predicate PortsAllCounted(cfg: Config, h: History, p: QueuedPacket) {
    PortCount(cfg, h + [p]) <= |PortSet(RecordAfter(cfg, h + [p]).recentDstPorts)|
  }

  ghost predicate SynsAllCounted(cfg: Config, h: History, p: QueuedPacket) {
    SynCount(cfg, h + [p]) <= |RecordAfter(cfg, h + [p]).pendingSyns.Keys|
  }

  /** `latest` is the greatest time the port rule has processed. */
  ghost predicate LatestAttempt(h: History, latest: int) {
    && (exists q <- h :: IsConnectionAttempt(q) && Ms(q) == latest)
    && forall q <- h :: IsConnectionAttempt(q) ==> Ms(q) <= latest
  }

  ghost predicate LatestTcp(h: History, latest: int) {
    && (exists q <- h :: IsTcp(q) && Ms(q) == latest)
    && forall q <- h :: IsTcp(q) ==> Ms(q) <= latest
  }

  /** However disordered the packets before it, one that is not itself late is counted in full. */
  lemma OnTimeIsCounted(cfg: Config, h: History, p: QueuedPacket)
    ensures IsConnectionAttempt(p) && (forall q <- h :: IsConnectionAttempt(q) ==> Ms(q) <= Ms(p)) ==>
              PortsAllCounted(cfg, h, p)
    ensures IsTcp(p) && (forall q <- h :: IsTcp(q) ==> Ms(q) <= Ms(p)) ==> SynsAllCounted(cfg, h, p)
  {
    hide RecordAfter, PortsProbed, HalfOpen, PortSet, Ms, IsConnectionAttempt, IsTcp;
    var bound := UpperBound(h + [p]);
    CountsAtLast(cfg, h, p);
    var r := RecordAfter(cfg, h + [p]);
    if IsConnectionAttempt(p) && forall q <- h :: IsConnectionAttempt(q) ==> Ms(q) <= Ms(p) {
      NeverUndercounts(cfg, h + [p], Ms(p), bound);
      SubsetCardinality(PortsProbed(h + [p], Ms(p) - cfg.portScanWindowMs), PortSet(r.recentDstPorts));
    }
    if IsTcp(p) && forall q <- h :: IsTcp(q) ==> Ms(q) <= Ms(p) {
      NeverUndercounts(cfg, h + [p], bound, Ms(p));
      SubsetCardinality(HalfOpen(h + [p], Ms(p) - cfg.synFloodWindowMs), r.pendingSyns.Keys);
    }
  }

  /** An attempt reaching a FIFO whose front is fresh joins it, and nothing expires. */
  lemma JoinsFresh(cfg: Config, h: History, p: QueuedPacket, fifo: seq<PortEvent>)
    requires IsConnectionAttempt(p) && cfg.portScanWindowMs >= 0 && RecordAfter(cfg, h).recentDstPorts == fifo
    requires fifo != [] ==> fifo[0].ms >= Ms(p) - cfg.portScanWindowMs
    ensures RecordAfter(cfg, h + [p]).recentDstPorts == fifo + [PortEvent(Ms(p), p.meta.dstPort)]
  {
    hide ObserveRecord, IsConnectionAttempt, Ms;
    assert (h + [p])[..|h|] == h;
    RecordStep(cfg, RecordAfter(cfg, h), p);
    assert ExpiredPorts(WithAttempt(fifo, p), Ms(p) - cfg.portScanWindowMs) == 0;
  }

  /** One reaching a FIFO of a single stale event replaces it. */
  lemma ReplacesStale(cfg: Config, h: History, p: QueuedPacket, e: PortEvent)
    requires IsConnectionAttempt(p) && cfg.portScanWindowMs >= 0 && RecordAfter(cfg, h).recentDstPorts == [e]
    requires e.ms < Ms(p) - cfg.portScanWindowMs
    ensures RecordAfter(cfg, h + [p]).recentDstPorts == [PortEvent(Ms(p), p.meta.dstPort)]
  {
    hide ObserveRecord, IsConnectionAttempt, Ms;
    assert (h + [p])[..|h|] == h;
    RecordStep(cfg, RecordAfter(cfg, h), p);
    var queued := WithAttempt([e], p);
    assert queued[1..] == [PortEvent(Ms(p), p.meta.dstPort)];
    assert ExpiredPorts(queued[1..], Ms(p) - cfg.portScanWindowMs) == 0;
  }

  /** The same two steps for SYNs. */
  lemma SynJoinsFresh(cfg: Config, h: History, p: QueuedPacket, pending: map<FlowKey, int>, order: seq<SynEvent>)
    requires IsSynOnly(p) && cfg.synFloodWindowMs >= 0
    requires RecordAfter(cfg, h).pendingSyns == pending && RecordAfter(cfg, h).pendingSynOrder == order
    requires order != [] ==> order[0].ms >= Ms(p) - cfg.synFloodWindowMs
    ensures RecordAfter(cfg, h + [p]).pendingSyns == pending[KeyOf(p) := Ms(p)]
    ensures RecordAfter(cfg, h + [p]).pendingSynOrder == order + [SynEvent(Ms(p), KeyOf(p))]
  {
    hide ObserveRecord, Ms, KeyOf;
    assert (h + [p])[..|h|] == h;
    RecordStep(cfg, RecordAfter(cfg, h), p);
    assert ExpiredSyns(WithSyn(order, p), Ms(p) - cfg.synFloodWindowMs) == 0;
  }

  lemma SynReplacesStale(cfg: Config, h: History, p: QueuedPacket, e: SynEvent)
    requires IsSynOnly(p) && cfg.synFloodWindowMs >= 0
    requires RecordAfter(cfg, h).pendingSyns == map[e.key := e.ms] && RecordAfter(cfg, h).pendingSynOrder == [e]
    requires e.ms < Ms(p) - cfg.synFloodWindowMs && e.key != KeyOf(p)
    ensures RecordAfter(cfg, h + [p]).pendingSyns == map[KeyOf(p) := Ms(p)]
    ensures RecordAfter(cfg, h + [p]).pendingSynOrder == [SynEvent(Ms(p), KeyOf(p))]
  {
    hide ObserveRecord, Ms, KeyOf;
    assert (h + [p])[..|h|] == h;
    RecordStep(cfg, RecordAfter(cfg, h), p);
    var order := WithSyn([e], p);
    assert order[1..] == [SynEvent(Ms(p), KeyOf(p))] && order[..1] == [e];
    assert ExpiredSyns(order[1..], Ms(p) - cfg.synFloodWindowMs) == 0;
  }

  // --- three attempts at different ports, three SYNs of different connections ---

  ghost predicate ThreeProbes(a: QueuedPacket, b: QueuedPacket, c: QueuedPacket) {
    && IsConnectionAttempt(a) && IsConnectionAttempt(b) && IsConnectionAttempt(c)
    && a.meta.dstPort != b.meta.dstPort && b.meta.dstPort != c.meta.dstPort && a.meta.dstPort != c.meta.dstPort
  }

  ghost predicate ThreeSyns(a: QueuedPacket, b: QueuedPacket, c: QueuedPacket) {
    && IsSynOnly(a) && IsSynOnly(b) && IsSynOnly(c)
    && KeyOf(a) != KeyOf(b) && KeyOf(b) != KeyOf(c) && KeyOf(a) != KeyOf(c)
  }

  lemma OfThreeProbed(a: QueuedPacket, b: QueuedPacket, c: QueuedPacket, cutoff: int)
    requires ThreeProbes(a, b, c)
    ensures PortsProbed([a] + [b] + [c], cutoff) ==
            (if Ms(a) >= cutoff then {a.meta.dstPort} else {}) + (if Ms(b) >= cutoff then {b.meta.dstPort} else {})
            + (if Ms(c) >= cutoff then {c.meta.dstPort} else {})
  {
    hide Ms, IsConnectionAttempt;
    assert PortsProbed([], cutoff) == {} && [] + [a] == [a];
    ProbedStep([], a, cutoff);
    ProbedStep([a], b, cutoff);
    ProbedStep([a] + [b], c, cutoff);
  }

  lemma OfThreeHalfOpen(a: QueuedPacket, b: QueuedPacket, c: QueuedPacket, cutoff: int)
    requires ThreeSyns(a, b, c) && Ms(a) >= cutoff && Ms(b) >= cutoff && Ms(c) >= cutoff
    ensures HalfOpen([a] + [b] + [c], cutoff) == {KeyOf(a), KeyOf(b), KeyOf(c)}
  {
    hide Ms, IsSynOnly, IsAck, KeyOf, IsHalfOpenAt;
    assert HalfOpen([], cutoff) == {} && [] + [a] == [a];
    SynIsNotAck(a);
    SynIsNotAck(b);
    SynIsNotAck(c);
    forall k ensures k in HalfOpen([a] + [b] + [c], cutoff) <==> k in {KeyOf(a), KeyOf(b), KeyOf(c)} {
      HalfOpenStep([], a, cutoff, k);
      HalfOpenStep([a], b, cutoff, k);
      HalfOpenStep([a] + [b], c, cutoff, k);
    }
  }

  /** A late probe is answered from a window that has already moved on: the port of an event that is inside
      its own window, but had left that of a later one, is not counted. */
  lemma LateProbeIsMissed(cfg: Config, a: QueuedPacket, b: QueuedPacket, c: QueuedPacket)
    requires cfg.portScanWindowMs >= 0 && ThreeProbes(a, b, c)
    requires Ms(c) - cfg.portScanWindowMs <= Ms(a) < Ms(b) - cfg.portScanWindowMs && Ms(c) <= Ms(b)
    ensures |PortSet(RecordAfter(cfg, [a] + [b] + [c]).recentDstPorts)| == 2 && PortCount(cfg, [a] + [b] + [c]) == 3
  {
    hide Ms, IsConnectionAttempt, RecordAfter, PortsProbed, PortSet, PortCount;
    assert [] + [a] == [a];
    NoRecord(cfg);
    var x, m, t := EventOf(a), EventOf(b), EventOf(c);
    JoinsFresh(cfg, [], a, []);
    ReplacesStale(cfg, [a], b, x);
    JoinsFresh(cfg, [a] + [b], c, [m]);
    assert PortSet([m] + [t]) == {m.port, t.port} by { PortsOf([m] + [t]); }
    OfThreeProbed(a, b, c, Ms(c) - cfg.portScanWindowMs);
    CountsAtLast(cfg, [a] + [b], c);
  }

  function EventOf(p: QueuedPacket): PortEvent { PortEvent(Ms(p), p.meta.dstPort) }

  lemma NoRecord(cfg: Config)
    ensures RecordAfter(cfg, []) == EMPTY_RECORD
  {}

  lemma PortsOf(fifo: seq<PortEvent>)
    ensures |fifo| == 2 ==> PortSet(fifo) == {fifo[0].port, fifo[1].port}
    ensures |fifo| == 3 ==> PortSet(fifo) == {fifo[0].port, fifo[1].port, fifo[2].port}
  {}

  /** The other way round, a stale event behind a fresh one is still counted. */
  lemma LateProbeOvercounts(cfg: Config, a: QueuedPacket, b: QueuedPacket, c: QueuedPacket)
    requires cfg.portScanWindowMs >= 0 && ThreeProbes(a, b, c)
    requires Ms(b) < Ms(c) - cfg.portScanWindowMs <= Ms(a)
    ensures |PortSet(RecordAfter(cfg, [a] + [b] + [c]).recentDstPorts)| == 3 && PortCount(cfg, [a] + [b] + [c]) == 2
  {
    hide Ms, IsConnectionAttempt, RecordAfter, PortsProbed, PortSet, PortCount;
    assert [] + [a] == [a];
    NoRecord(cfg);
    var x, m, t := EventOf(a), EventOf(b), EventOf(c);
    JoinsFresh(cfg, [], a, []);
    JoinsFresh(cfg, [a], b, [x]);
    JoinsFresh(cfg, [a] + [b], c, [x] + [m]);
    PortsOf([x] + [m] + [t]);
    OfThreeProbed(a, b, c, Ms(c) - cfg.portScanWindowMs);
    CountsAtLast(cfg, [a] + [b], c);
  }

  function SynEventOf(p: QueuedPacket): SynEvent { SynEvent(Ms(p), KeyOf(p)) }

  /** The second of three SYNs expires the first, and the third joins it. */
  lemma SynsHeld(cfg: Config, a: QueuedPacket, b: QueuedPacket, c: QueuedPacket)
    requires cfg.synFloodWindowMs >= 0 && ThreeSyns(a, b, c)
    requires Ms(a) < Ms(b) - cfg.synFloodWindowMs && Ms(c) <= Ms(b)
    ensures RecordAfter(cfg, [a] + [b] + [c]).pendingSyns == map[KeyOf(b) := Ms(b)][KeyOf(c) := Ms(c)]
  {
    hide Ms, IsSynOnly, KeyOf, RecordAfter;
    assert [] + [a] == [a] && [] + [SynEventOf(a)] == [SynEventOf(a)];
    NoRecord(cfg);
    SynJoinsFresh(cfg, [], a, map[], []);
    SynReplacesStale(cfg, [a], b, SynEventOf(a));
    SynJoinsFresh(cfg, [a] + [b], c, map[KeyOf(b) := Ms(b)], [SynEventOf(b)]);
  }

  /** A late SYN finds a connection missing that was half open inside its own window. */
  lemma LateSynIsMissed(cfg: Config, a: QueuedPacket, b: QueuedPacket, c: QueuedPacket)
    requires cfg.synFloodWindowMs >= 0 && ThreeSyns(a, b, c)
    requires Ms(c) - cfg.synFloodWindowMs <= Ms(a) < Ms(b) - cfg.synFloodWindowMs && Ms(c) <= Ms(b)
    ensures |RecordAfter(cfg, [a] + [b] + [c]).pendingSyns.Keys| == 2 && SynCount(cfg, [a] + [b] + [c]) == 3
  {
    hide Ms, IsSynOnly, KeyOf, RecordAfter, HalfOpen, SynCount;
    SynsHeld(cfg, a, b, c);
    assert RecordAfter(cfg, [a] + [b] + [c]).pendingSyns.Keys == {KeyOf(b), KeyOf(c)};
    OfThreeHalfOpen(a, b, c, Ms(c) - cfg.synFloodWindowMs);
    CountsAtLast(cfg, [a] + [b], c);
  }

  /** A stale SYN behind a fresh one is still pending. */
  lemma LateSynOvercounts(cfg: Config, a: QueuedPacket, b: QueuedPacket, c: QueuedPacket)
    requires cfg.synFloodWindowMs >= 0 && ThreeSyns(a, b, c)
    requires Ms(b) < Ms(c) - cfg.synFloodWindowMs <= Ms(a)
    ensures |RecordAfter(cfg, [a] + [b] + [c]).pendingSyns.Keys| == 3 && SynCount(cfg, [a] + [b] + [c]) == 2
  {
    hide Ms, IsSynOnly, KeyOf, RecordAfter, HalfOpen, SynCount;
    AllSynsHeld(cfg, a, b, c);
    assert RecordAfter(cfg, [a] + [b] + [c]).pendingSyns.Keys == {KeyOf(a), KeyOf(b), KeyOf(c)};
    OfThreeHalfOpenSince(a, b, c, Ms(c) - cfg.synFloodWindowMs);
    CountsAtLast(cfg, [a] + [b], c);
  }

  /** Nothing expires behind a SYN that is fresh to both later ones. */
  lemma AllSynsHeld(cfg: Config, a: QueuedPacket, b: QueuedPacket, c: QueuedPacket)
    requires cfg.synFloodWindowMs >= 0 && ThreeSyns(a, b, c)
    requires Ms(b) <= Ms(a) && Ms(c) - cfg.synFloodWindowMs <= Ms(a)
    ensures RecordAfter(cfg, [a] + [b] + [c]).pendingSyns ==
            map[KeyOf(a) := Ms(a)][KeyOf(b) := Ms(b)][KeyOf(c) := Ms(c)]
  {
    hide Ms, IsSynOnly, KeyOf, RecordAfter;
    assert [] + [a] == [a] && [] + [SynEventOf(a)] == [SynEventOf(a)];
    NoRecord(cfg);
    SynJoinsFresh(cfg, [], a, map[], []);
    SynJoinsFresh(cfg, [a], b, map[KeyOf(a) := Ms(a)], [SynEventOf(a)]);
    SynJoinsFresh(cfg, [a] + [b], c, map[KeyOf(a) := Ms(a)][KeyOf(b) := Ms(b)], [SynEventOf(a)] + [SynEventOf(b)]);
  }

  lemma OfThreeHalfOpenSince(a: QueuedPacket, b: QueuedPacket, c: QueuedPacket, cutoff: int)
    requires ThreeSyns(a, b, c) && Ms(a) >= cutoff && Ms(b) < cutoff && Ms(c) >= cutoff
    ensures HalfOpen([a] + [b] + [c], cutoff) == {KeyOf(a), KeyOf(c)}
  {
    hide Ms, IsSynOnly, IsAck, KeyOf, IsHalfOpenAt;
    assert HalfOpen([], cutoff) == {} && [] + [a] == [a];
    SynIsNotAck(a);
    SynIsNotAck(b);
    SynIsNotAck(c);
    forall k ensures k in HalfOpen([a] + [b] + [c], cutoff) <==> k in {KeyOf(a), KeyOf(c)} {
      HalfOpenStep([], a, cutoff, k);
      HalfOpenStep([a], b, cutoff, k);
      HalfOpenStep([a] + [b], c, cutoff, k);
    }
  }

  /** Both miscounts at literal times and a window of 100 ms: probes at 0, 150 and 50 ms are three ports of
      which two are counted; probes at 150, 0 and 160 ms are two of which three are counted. */
  lemma LateProbesMiscounted(cfg: Config)
    requires cfg.portScanWindowMs == 100
    ensures var missed := [Datagram(0, 1, 7)] + [Datagram(150, 1, 8)] + [Datagram(50, 1, 9)];
            |PortSet(RecordAfter(cfg, missed).recentDstPorts)| == 2 && PortCount(cfg, missed) == 3
    ensures var extra := [Datagram(150, 1, 7)] + [Datagram(0, 1, 8)] + [Datagram(160, 1, 9)];
            |PortSet(RecordAfter(cfg, extra).recentDstPorts)| == 3 && PortCount(cfg, extra) == 2
  {
    hide Datagram, RecordAfter, PortCount, PortSet, Ms, IsConnectionAttempt;
    DatagramIs(0, 1, 7);
    DatagramIs(150, 1, 8);
    DatagramIs(50, 1, 9);
    LateProbeIsMissed(cfg, Datagram(0, 1, 7), Datagram(150, 1, 8), Datagram(50, 1, 9));
    DatagramIs(150, 1, 7);
    DatagramIs(0, 1, 8);
    DatagramIs(160, 1, 9);
    LateProbeOvercounts(cfg, Datagram(150, 1, 7), Datagram(0, 1, 8), Datagram(160, 1, 9));
  }

  /** For an attempt at time `t` after attempts up to time `latest`: whatever they were, no port of the
      recount is missing from the count, if and only if the attempt is not late. */
  lemma PortsCountedIffOnTime(cfg: Config, latest: int, t: int)
    requires cfg.portScanWindowMs >= 0
    ensures (forall h: History, p: QueuedPacket |
               LatestAttempt(h, latest) && IsConnectionAttempt(p) && Ms(p) == t :: PortsAllCounted(cfg, h, p)) <==>
            latest <= t
  {
    hide Ms, IsConnectionAttempt, PortsAllCounted;
    if latest <= t {
      forall h: History, p: QueuedPacket | LatestAttempt(h, latest) && IsConnectionAttempt(p) && Ms(p) == t
        ensures PortsAllCounted(cfg, h, p)
      {
        OnTimeIsCounted(cfg, h, p);
      }
    } else {
      var h, p := LateAttempt(cfg, latest, t);
    }
  }

  lemma LateAttempt(cfg: Config, latest: int, t: int) returns (h: History, p: QueuedPacket)
    requires cfg.portScanWindowMs >= 0 && t < latest
    ensures LatestAttempt(h, latest) && IsConnectionAttempt(p) && Ms(p) == t && !PortsAllCounted(cfg, h, p)
  {
    var x := t - cfg.portScanWindowMs;
    DatagramIs(x, 1, 7);
    DatagramIs(latest, 1, 8);
    DatagramIs(t, 1, 9);
    h, p := [Datagram(x, 1, 7)] + [Datagram(latest, 1, 8)], Datagram(t, 1, 9);
    hide Datagram, Ms, IsConnectionAttempt, RecordAfter, PortCount, PortSet;
    LateProbeIsMissed(cfg, Datagram(x, 1, 7), Datagram(latest, 1, 8), p);
    assert h[1] in h;
  }

  /** The same for half-open connections at a TCP packet. */
  lemma SynsCountedIffOnTime(cfg: Config, latest: int, t: int)
    requires cfg.synFloodWindowMs >= 0
    ensures (forall h: History, p: QueuedPacket |
               LatestTcp(h, latest) && IsTcp(p) && Ms(p) == t :: SynsAllCounted(cfg, h, p)) <==>
            latest <= t
  {
    hide Ms, IsTcp, SynsAllCounted;
    if latest <= t {
      forall h: History, p: QueuedPacket | LatestTcp(h, latest) && IsTcp(p) && Ms(p) == t
        ensures SynsAllCounted(cfg, h, p)
      {
        OnTimeIsCounted(cfg, h, p);
      }
    } else {
      var h, p := LateSyn(cfg, latest, t);
    }
  }

  lemma SynsOf(x: int, m: int, t: int)
    ensures var a, b, c := SynTo(x, FloodKey(7)), SynTo(m, FloodKey(8)), SynTo(t, FloodKey(9));
            && ThreeSyns(a, b, c) && IsTcp(a) && IsTcp(b) && IsTcp(c)
            && Ms(a) == x && Ms(b) == m && Ms(c) == t
  {
    SynIs(x, FloodKey(7));
    SynIs(m, FloodKey(8));
    SynIs(t, FloodKey(9));
  }

  lemma LateSyn(cfg: Config, latest: int, t: int) returns (h: History, p: QueuedPacket)
    requires cfg.synFloodWindowMs >= 0 && t < latest
    ensures LatestTcp(h, latest) && IsTcp(p) && Ms(p) == t && !SynsAllCounted(cfg, h, p)
  {
    hide SynTo, Ms, IsTcp, ThreeSyns, RecordAfter, SynCount;
    var x := t - cfg.synFloodWindowMs;
    SynsOf(x, latest, t);
    var a, b := SynTo(x, FloodKey(7)), SynTo(latest, FloodKey(8));
    h, p := [a] + [b], SynTo(t, FloodKey(9));
    LateSynIsMissed(cfg, a, b, p);
    assert h[1] in h;
  }

  // --- the tracker: late packets and the idle sweep ---

  /** Nothing inside the windows of the latest time is missing from what is tracked of a source. */
  ghost predicate NothingMissing(cfg: Config, hash: Ip -> nat, run: Run, n: nat, ip: Ip, latest: int) {
    && n <= |run.packets| && n < |run.states| && run.states[n] != []
    && var r, h := RecordOf(Home(hash, run.states[n], ip), ip), Of(run.packets[..n], ip);
       && PortsProbed(h, latest - cfg.portScanWindowMs) <= PortSet(r.recentDstPorts)
       && HalfOpen(h, latest - cfg.synFloodWindowMs) <= r.pendingSyns.Keys
  }

  ghost predicate UpTo(log: History, latest: int) { forall p <- log :: p.meta.hasIp ==> Ms(p) <= latest }

  /** A time-to-live that covers both windows and how late packets may be. */
  predicate TtlCoversLate(cfg: Config, late: int) {
    cfg.idleTtlMs >= cfg.portScanWindowMs + late && cfg.idleTtlMs >= cfg.synFloodWindowMs + late
  }

  /** Dropping packets older than the cutoff changes neither recount. */
  lemma OldPacketsDoNotCount(h: History, k: nat, cutoff: int)
    requires k <= |h| && forall i | 0 <= i < k :: Ms(h[i]) < cutoff
    ensures PortsProbed(h, cutoff) <= PortsProbed(h[k..], cutoff)
    ensures HalfOpen(h, cutoff) <= HalfOpen(h[k..], cutoff)
  {
    hide Ms, IsConnectionAttempt, IsSynOnly, IsAck, KeyOf;
    var rest := h[k..];
    forall port <- PortsProbed(h, cutoff) ensures port in PortsProbed(rest, cutoff) {
      var i :| 0 <= i < |h| && IsConnectionAttempt(h[i]) && Ms(h[i]) >= cutoff && h[i].meta.dstPort == port;
      assert rest[i - k] == h[i];
    }
    forall key <- HalfOpen(h, cutoff) ensures key in HalfOpen(rest, cutoff) {
      var i :| 0 <= i < |h| && IsHalfOpenAt(h, i) && Ms(h[i]) >= cutoff && KeyOf(h[i]) == key;
      assert rest[i - k] == h[i];
      assert IsHalfOpenAt(rest, i - k) by {
        forall j | i - k < j < |rest| && KeyOf(rest[j]) == KeyOf(rest[i - k]) ensures !IsSynOnly(rest[j]) && !IsAck(rest[j]) {
          assert rest[j] == h[k + j];
        }
      }
    }
  }

  /** With packets at most `late` out of order, a time-to-live that covers the windows and the lateness, and
      no forced drops, no sweep loses an event inside the windows of the latest time. */
  lemma NothingIsLost(cfg: Config, hash: Ip -> nat, run: Run, n: nat, ip: Ip, late: int, latest: int)
    requires IsRun(cfg, hash, run) && n <= |run.packets| && UpTo(run.packets[..n], latest)
    requires LateBy(run.packets, late) && Unforced(cfg, hash, run) && TtlCoversLate(cfg, late)
    ensures |run.states[n]| == ShardCount(cfg)
    ensures NothingMissing(cfg, hash, run, n, ip, latest)
  {
    hide TrackerStep, UnforcedAt, LateBy, PortsProbed, HalfOpen, RecordAfter, Of, Ms, PortSet, OrderCovers;
    var k := TrackedIsSuffix(cfg, hash, run, n, ip, late, latest);
    var h := Of(run.packets[..n], ip);
    SuffixUpTo(run.packets[..n], ip, k, latest);
    NeverUndercounts(cfg, h[k..], latest, latest);
    OldPacketsDoNotCount(h, k, latest - cfg.portScanWindowMs);
    OldPacketsDoNotCount(h, k, latest - cfg.synFloodWindowMs);
  }

  lemma SuffixUpTo(log: History, ip: Ip, k: nat, latest: int)
    requires UpTo(log, latest) && k <= |Of(log, ip)|
    ensures forall p <- Of(log, ip)[k..] :: Ms(p) <= latest
  {
    hide Ms;
    OfMembers(log, ip);
    assert forall p <- Of(log, ip)[k..] :: p in Of(log, ip);
  }

  /** What nothing missing means for the counts at the latest packet. */
  lemma CountsOf(cfg: Config, hash: Ip -> nat, run: Run, n: nat, ip: Ip, h: History, p: QueuedPacket)
    requires NothingMissing(cfg, hash, run, n, ip, Ms(p)) && Of(run.packets[..n], ip) == h + [p]
    ensures var r := RecordOf(Home(hash, run.states[n], ip), ip);
            && PortCount(cfg, h + [p]) <= |PortSet(r.recentDstPorts)|
            && SynCount(cfg, h + [p]) <= |r.pendingSyns.Keys|
  {
    hide PortsProbed, HalfOpen, Home, PortSet, Ms, Of;
    CountsAtLast(cfg, h, p);
    var r := RecordOf(Home(hash, run.states[n], ip), ip);
    SubsetCardinality(PortsProbed(h + [p], Ms(p) - cfg.portScanWindowMs), PortSet(r.recentDstPorts));
    SubsetCardinality(HalfOpen(h + [p], Ms(p) - cfg.synFloodWindowMs), r.pendingSyns.Keys);
  }

  /** So a packet that is not itself late is counted in full, whatever was swept before it. */
  lemma LatestPacketIsCounted(cfg: Config, hash: Ip -> nat, run: Run, n: nat, late: int)
    requires IsRun(cfg, hash, run) && n < |run.packets| && run.packets[n].meta.hasIp
    requires LateBy(run.packets, late) && Unforced(cfg, hash, run) && TtlCoversLate(cfg, late)
    requires UpTo(run.packets[..n], Ms(run.packets[n]))
    ensures |run.states[n + 1]| == ShardCount(cfg)
    ensures var ip := run.packets[n].meta.srcIp;
            var r, h := RecordOf(Home(hash, run.states[n + 1], ip), ip), Of(run.packets[..n + 1], ip);
            && h == Of(run.packets[..n], ip) + [run.packets[n]]
            && PortCount(cfg, h) <= |PortSet(r.recentDstPorts)|
            && SynCount(cfg, h) <= |r.pendingSyns.Keys|
  {
    hide IsRun, Unforced, LateBy, Home, PortSet, Ms, TtlCoversLate, NothingMissing, Of, PortCount, SynCount;
    var p := run.packets[n];
    assert run.packets[..n + 1] == run.packets[..n] + [p];
    OfStep(run.packets[..n], p, p.meta.srcIp);
    NothingIsLost(cfg, hash, run, n + 1, p.meta.srcIp, late, Ms(p));
    CountsOf(cfg, hash, run, n + 1, p.meta.srcIp, Of(run.packets[..n], p.meta.srcIp), p);
  }

  // --- and exactly when ---

  /** A packet, one of the same source so late that the source looks idle, and another source's sweep. */
  function Backdated(cfg: Config, recent: QueuedPacket, stale: QueuedPacket, other: QueuedPacket): History {
    Interrupted(cfg, [recent, stale], other, [])
  }

  /** The late packet sets the last-seen stamp back, so the sweep forgets the recent one. */
  lemma BackdatedIsForgotten(cfg: Config, run: Run, recent: QueuedPacket, stale: QueuedPacket, other: QueuedPacket)
    requires FromOnly([recent, stale], 1) && other.meta.hasIp && other.meta.srcIp == 2
    requires Ms(stale) < Ms(other) - cfg.idleTtlMs
    requires IsRun(cfg, Zero, run) && run.packets == Backdated(cfg, recent, stale, other)
    ensures var n := |run.packets|;
            |run.states[n]| == ShardCount(cfg) && 1 !in Home(Zero, run.states[n], 1)
    ensures Of(run.packets, 1) == [recent, stale]
  {
    hide IsRun, Home, Ms, Of, Repeat;
    SweepForgets(cfg, run, [recent, stale], other, []);
    OfInterrupted(cfg, [recent, stale], other, []);
    assert [recent, stale] + [] == [recent, stale];
  }

  lemma SeenOf(recent: QueuedPacket, stale: QueuedPacket, portCutoff: int, synCutoff: int)
    requires KeyOf(stale) != KeyOf(recent)
    ensures IsConnectionAttempt(recent) && Ms(recent) >= portCutoff ==>
              recent.meta.dstPort in PortsProbed([recent, stale], portCutoff)
    ensures IsSynOnly(recent) && Ms(recent) >= synCutoff ==> KeyOf(recent) in HalfOpen([recent, stale], synCutoff)
  {
    hide Ms, IsConnectionAttempt, IsSynOnly, IsAck, KeyOf;
    var h := [recent, stale];
    assert h[0] == recent && h[1] == stale;
    assert IsSynOnly(recent) ==> IsHalfOpenAt(h, 0);
  }

  /** A source forgotten while its recent packet is still in a window misses it. */
  lemma BackdatedIsMissed(cfg: Config, run: Run, recent: QueuedPacket, stale: QueuedPacket, other: QueuedPacket, latest: int)
    requires FromOnly([recent, stale], 1) && other.meta.hasIp && other.meta.srcIp == 2
    requires Ms(stale) < Ms(other) - cfg.idleTtlMs && KeyOf(stale) != KeyOf(recent)
    requires IsRun(cfg, Zero, run) && run.packets == Backdated(cfg, recent, stale, other)
    requires (IsConnectionAttempt(recent) && Ms(recent) >= latest - cfg.portScanWindowMs) ||
             (IsSynOnly(recent) && Ms(recent) >= latest - cfg.synFloodWindowMs)
    ensures !NothingMissing(cfg, Zero, run, |run.packets|, 1, latest)
  {
    hide IsRun, Home, Ms, IsConnectionAttempt, IsSynOnly, KeyOf, PortsProbed, HalfOpen, Of;
    BackdatedIsForgotten(cfg, run, recent, stale, other);
    SeenOf(recent, stale, latest - cfg.portScanWindowMs, latest - cfg.synFloodWindowMs);
    assert run.packets[..|run.packets|] == run.packets;
  }

  /** At literal times, with window and time-to-live both 100 ms: after probes at 150 and 0 ms, sweeps at 160 ms
      forget the first although it is 10 ms old. */
  lemma LateProbeHidesAnother(cfg: Config, run: Run)
    requires cfg.portScanWindowMs == cfg.idleTtlMs == 100
    requires IsRun(cfg, Zero, run)
    requires run.packets == Backdated(cfg, Datagram(150, 1, 8), Datagram(0, 1, 7), Datagram(160, 2, 7))
    ensures !NothingMissing(cfg, Zero, run, |run.packets|, 1, 160)
  {
    DatagramIs(150, 1, 8);
    DatagramIs(0, 1, 7);
    DatagramIs(160, 2, 7);
    hide IsRun, Ms, IsConnectionAttempt, NothingMissing;
    BackdatedIsMissed(cfg, run, Datagram(150, 1, 8), Datagram(0, 1, 7), Datagram(160, 2, 7), 160);
  }

  lemma BackdatedLateness(cfg: Config, recent: QueuedPacket, stale: QueuedPacket, other: QueuedPacket, late: int)
    requires Ms(stale) == 0 && Ms(recent) == late && late >= 0 && Ms(other) >= 0
    ensures LateBy(Backdated(cfg, recent, stale, other), late)
    ensures UpTo(Backdated(cfg, recent, stale, other), Max(late, Ms(other)))
  {
    hide Ms;
    var log := Backdated(cfg, recent, stale, other);
    forall i | 0 <= i < |log| ensures log[i] == if i == 0 then recent else if i == 1 then stale else other {}
  }

  /** A time-to-live that does not cover the lateness loses an event in some run that forces no drop. */
  lemma ShortTtlLosesLate(cfg: Config, late: int) returns (run: Run, latest: int)
    requires cfg.portScanWindowMs >= 0 && cfg.synFloodWindowMs >= 0 && late >= 0 && cfg.maxTrackedIpsPerShard >= 2
    requires !TtlCoversLate(cfg, late)
    ensures IsRun(cfg, Zero, run) && LateBy(run.packets, late) && Unforced(cfg, Zero, run)
    ensures UpTo(run.packets, latest) && !NothingMissing(cfg, Zero, run, |run.packets|, 1, latest)
  {
    var now := AfterIdle(cfg);
    var recent := if cfg.idleTtlMs < cfg.portScanWindowMs + late then Datagram(late, 1, 7) else SynTo(late, FloodKey(7));
    var stale, other := Datagram(0, 1, 8), Datagram(now, 2, 0);
    DatagramIs(late, 1, 7);
    SynIs(late, FloodKey(7));
    DatagramIs(0, 1, 8);
    DatagramIs(now, 2, 0);
    assert KeyOf(stale) != KeyOf(recent) && FromOnly([recent, stale], 1);
    hide IsRun, Unforced, LateBy, UpTo, Ms, IsConnectionAttempt, IsSynOnly, NothingMissing, KeyOf;
    latest := Max(late, now);
    BackdatedLateness(cfg, recent, stale, other, late);
    run := InterruptionRuns(cfg, [recent, stale], other, []);
    BackdatedIsMissed(cfg, run, recent, stale, other, latest);
  }

  /** The exact condition: in runs at most `late` out of order that force no drop, nothing inside the windows
      of the latest time is ever missing, if and only if the time-to-live covers the windows and the lateness. */
  lemma NothingLostIffTtlCoversLate(cfg: Config, late: int)
    requires cfg.portScanWindowMs >= 0 && cfg.synFloodWindowMs >= 0 && late >= 0 && cfg.maxTrackedIpsPerShard >= 2
    ensures TtlCoversLate(cfg, late) <==>
            forall hash: Ip -> nat, run: Run, n: nat, ip: Ip, latest: int |
              && IsRun(cfg, hash, run) && LateBy(run.packets, late) && Unforced(cfg, hash, run)
              && n <= |run.packets| && UpTo(run.packets[..n], latest)
              :: NothingMissing(cfg, hash, run, n, ip, latest)
  {
    hide LateBy, Unforced, NothingMissing, UpTo, TtlCoversLate;
    if TtlCoversLate(cfg, late) {
      forall hash: Ip -> nat, run: Run, n: nat, ip: Ip, latest: int |
        && IsRun(cfg, hash, run) && LateBy(run.packets, late) && Unforced(cfg, hash, run)
        && n <= |run.packets| && UpTo(run.packets[..n], latest)
        ensures NothingMissing(cfg, hash, run, n, ip, latest)
      {
        NothingIsLost(cfg, hash, run, n, ip, late, latest);
      }
    } else {
      var run, latest := ShortTtlLosesLate(cfg, late);
      assert run.packets[..|run.packets|] == run.packets;
    }
  }
}
