/** Families of runs with two sources in one shard: one is observed, then idle while the other keeps the shard
    sweeping, then observed again. */
module FlowScenarios {
  import opened Packets
  import opened FlowModel
  import opened FlowHistory
  import opened FlowRuns
  import opened FlowLimits
  import opened FlowSources
  import opened FlowWork

  // --- packets ---

  function TimeOf(ms: int): Timeval { Timeval(ms / 1000, ms % 1000 * 1000) }

  function Datagram(ms: int, src: Ip, port: Port): QueuedPacket {
    QueuedPacket(
      ParsedPacket(TimeOf(ms), 0, 0, [], [], true, src, 0, 0, 0, UDP, 2000, port, 0, None, 0), [])
  }

  function SynTo(ms: int, key: FlowKey): QueuedPacket {
    QueuedPacket(
      ParsedPacket(TimeOf(ms), 0, 0, [], [], true, key.srcIp, key.dstIp, 0, 0, TCP, key.srcPort, key.dstPort, 2, None, 0), [])
  }

  lemma DatagramIs(ms: int, src: Ip, port: Port)
    ensures var p := Datagram(ms, src, port);
            Ms(p) == ms && IsConnectionAttempt(p) && !IsTcp(p) && p.meta.dstPort == port
  {}

  lemma SynIs(ms: int, key: FlowKey)
    ensures var p := SynTo(ms, key);
            Ms(p) == ms && IsSynOnly(p) && IsConnectionAttempt(p) && KeyOf(p) == key
  {}

  // --- runs ---

  /** Puts every source in the first shard. */
  function Zero(ip: Ip): nat { 0 }

  function Repeat(p: QueuedPacket, n: nat): (h: History)
    ensures |h| == n && forall q <- h :: q == p
  {
    seq(n, _ => p)
  }

  predicate FromOnly(h: History, ip: Ip) { forall p <- h :: p.meta.hasIp && p.meta.srcIp == ip }

  /** Source 1, then source 2 for a whole sweep interval, then source 1 again. */
  function Interrupted(cfg: Config, first: History, other: QueuedPacket, second: History): History {
    first + Repeat(other, Interval(cfg)) + second
  }

  /** The first packets' source is idle by the time the other one sends. */
  ghost predicate IsInterruption(cfg: Config, first: History, other: QueuedPacket, second: History) {
    && first != [] && FromOnly(first, 1) && FromOnly(second, 1)
    && other.meta.hasIp && other.meta.srcIp == 2
    && Ms(first[|first| - 1]) < Ms(other) - cfg.idleTtlMs
  }

  lemma {:induction false} OfConcat(a: History, b: History, ip: Ip)
    ensures Of(a + b, ip) == Of(a, ip) + Of(b, ip)
  {
    if b == [] {
      assert a + b == a;
    } else {
      hide Of;
      var front, last := b[..|b| - 1], b[|b| - 1];
      assert b == front + [last] && a + b == a + front + [last];
      OfConcat(a, front, ip);
      OfStep(front, last, ip);
      OfStep(a + front, last, ip);
    }
  }

  lemma {:induction false} OfOwn(h: History, ip: Ip)
    requires FromOnly(h, ip)
    ensures Of(h, ip) == h
  {
    if h != [] {
      hide Of;
      var front, last := h[..|h| - 1], h[|h| - 1];
      assert h == front + [last] && last in h;
      OfOwn(front, ip);
      OfStep(front, last, ip);
    }
  }

  lemma OfOther(h: History, ip: Ip, other: Ip)
    requires FromOnly(h, other) && ip != other
    ensures Of(h, ip) == []
  {
    OfMembers(h, ip);
    assert Of(h, ip) != [] ==> Of(h, ip)[0] in Of(h, ip);
  }

  lemma OfInterrupted(cfg: Config, first: History, other: QueuedPacket, second: History)
    requires IsInterruption(cfg, first, other, second)
    ensures Of(first + Repeat(other, Interval(cfg)), 1) == first
    ensures Of(Interrupted(cfg, first, other, second), 1) == first + second
  {
    var idle := Repeat(other, Interval(cfg));
    OfConcat(first, idle, 1);
    OfConcat(first + idle, second, 1);
    OfOwn(first, 1);
    OfOther(idle, 1, 2);
    OfOwn(second, 1);
  }

  /** While source 1 survives the interruption, no sweep has taken place in it. */
  lemma {:induction false} SurvivalMeansNoSweep(cfg: Config, run: Run, first: History, other: QueuedPacket, second: History,
                                                j: nat)
    requires IsInterruption(cfg, first, other, second) && j <= Interval(cfg)
    requires IsRun(cfg, Zero, run) && run.packets == Interrupted(cfg, first, other, second)
    ensures |run.states[|first| + j]| == ShardCount(cfg)
    ensures 1 in Home(Zero, run.states[|first| + j], 1) ==> run.states[|first| + j][0].observationsSinceSweep >= j
  {
    hide ShardStep, IsIdle, Ms, ShardCount, Interval, RecordAfter;
    var n := |first| + j;
    RunKeepsShards(cfg, Zero, run, n);
    if j > 0 && 1 in Home(Zero, run.states[n], 1) {
      var s, s' := run.states[n - 1][0], run.states[n][0];
      SurvivalMeansNoSweep(cfg, run, first, other, second, j - 1);
      assert run.packets[n - 1] == other;
      assert TrackerStep(cfg, Zero, run.states[n - 1], other, run.states[n], run.alerts[n - 1]);
      ShardStepAt(cfg, s, other, s', run.alerts[n - 1], 1);
      LastSeenDuring(cfg, run, first, other, second, j - 1);
      NoSweepCounts(cfg, s, other, s', run.alerts[n - 1]);
    }
  }

  lemma NoSweepCounts(cfg: Config, s: ShardState, p: QueuedPacket, s': ShardState, alerts: seq<Alert>)
    requires ShardStep(cfg, s, p, s', alerts) && !SweepDue(cfg, s)
    ensures s'.observationsSinceSweep == s.observationsSinceSweep + 1
  {}

  lemma LastSeenDuring(cfg: Config, run: Run, first: History, other: QueuedPacket, second: History, j: nat)
    requires IsInterruption(cfg, first, other, second) && j <= Interval(cfg)
    requires IsRun(cfg, Zero, run) && run.packets == Interrupted(cfg, first, other, second)
    requires |run.states[|first| + j]| == ShardCount(cfg)
    ensures 1 in Home(Zero, run.states[|first| + j], 1) ==> IsIdle(cfg, Home(Zero, run.states[|first| + j], 1)[1], Ms(other))
  {
    hide ShardStep, TrackerStep, Of, Ms, RecordAfter;
    var log := run.packets[..|first| + j];
    assert log == first + Repeat(other, j);
    OfConcat(first, Repeat(other, j), 1);
    OfOwn(first, 1);
    OfOther(Repeat(other, j), 1, 2);
    assert Of(log, 1) == first;
    var latest := UpperBound(log);
    var k := TrackedIsSuffix(cfg, Zero, run, |first| + j, 1, 0, latest);
    if k < |first| {
      LastSeenIsLast(cfg, first[k..]);
      assert first[k..][|first[k..]| - 1] == first[|first| - 1];
    }
  }

  /** By the end of the interruption the idle source has been forgotten. */
  lemma SweepForgets(cfg: Config, run: Run, first: History, other: QueuedPacket, second: History)
    requires IsInterruption(cfg, first, other, second)
    requires IsRun(cfg, Zero, run) && run.packets == Interrupted(cfg, first, other, second)
    ensures |run.states[|first| + Interval(cfg)]| == ShardCount(cfg)
    ensures 1 !in Home(Zero, run.states[|first| + Interval(cfg)], 1)
  {
    hide TrackerStep, Home;
    SurvivalMeansNoSweep(cfg, run, first, other, second, Interval(cfg));
    RunBounded(cfg, Zero, run, |first| + Interval(cfg));
    assert run.states[|first| + Interval(cfg)][0] in run.states[|first| + Interval(cfg)];
  }

  /** A source's own packets never restart its record. */
  lemma {:induction false} OwnPacketsTracked(cfg: Config, run: Run, n: nat, h: History, k: nat, own: History)
    requires IsRun(cfg, Zero, run) && n + |own| <= |run.packets| && run.packets[n..n + |own|] == own && FromOnly(own, 1)
    requires |run.states[n]| == ShardCount(cfg) && TracksFrom(cfg, Home(Zero, run.states[n], 1), 1, h, k, None)
    ensures |run.states[n + |own|]| == ShardCount(cfg)
    ensures TracksFrom(cfg, Home(Zero, run.states[n + |own|], 1), 1, h + own, k, None)
  {
    hide TrackerStep, TracksFrom, SourceStep, Home;
    if own == [] {
      assert h + own == h;
    } else {
      var m := |own| - 1;
      assert run.packets[n..n + m] == own[..m] && run.packets[n + m] == own[m];
      assert own[m] in own && forall p <- own[..m] :: p in own;
      OwnPacketsTracked(cfg, run, n, h, k, own[..m]);
      var t, t' := run.states[n + m], run.states[n + m + 1];
      TrackerStepAt(cfg, Zero, t, own[m], t', run.alerts[n + m], 1);
      assert h + own == h + own[..m] + [own[m]];
      OwnPacketTracked(cfg, Home(Zero, t, 1), own[m], Home(Zero, t', 1), h + own[..m], k);
    }
  }

  lemma OwnPacketTracked(cfg: Config, s: map<Ip, IpRecord>, p: QueuedPacket, s': map<Ip, IpRecord>, h: History, k: nat)
    requires TracksFrom(cfg, s, 1, h, k, None) && SourceStep(cfg, s, p, s', 1)
    requires p.meta.hasIp && p.meta.srcIp == 1
    ensures TracksFrom(cfg, s', 1, h + [p], k, None)
  {
    RecordAfterStep(cfg, h, k, p);
  }

  lemma RestartPoint(cfg: Config, run: Run, first: History, other: QueuedPacket, second: History)
    requires IsInterruption(cfg, first, other, second)
    requires IsRun(cfg, Zero, run) && run.packets == Interrupted(cfg, first, other, second)
    ensures var t := run.states[|first| + Interval(cfg)];
            |t| == ShardCount(cfg) && TracksFrom(cfg, Home(Zero, t, 1), 1, first, |first|, None)
  {
    hide TrackerStep, Of, Home, RecordAfter, Unforced, LateBy;
    var n := |first| + Interval(cfg);
    OfInterrupted(cfg, first, other, second);
    SweepForgets(cfg, run, first, other, second);
    assert run.packets[..n] == first + Repeat(other, Interval(cfg));
    var latest := UpperBound(run.packets[..n]);
    var k := TrackedIsSuffix(cfg, Zero, run, n, 1, 0, latest);
  }

  /** From the end of the interruption on, the source's record is that of its later packets alone. */
  lemma RestartedRecord(cfg: Config, run: Run, first: History, other: QueuedPacket, second: History, own: History)
    requires IsInterruption(cfg, first, other, second) && own <= second
    requires IsRun(cfg, Zero, run) && run.packets == Interrupted(cfg, first, other, second)
    ensures var t := run.states[|first| + Interval(cfg) + |own|];
            |t| == ShardCount(cfg) && RecordOf(Home(Zero, t, 1), 1) == RecordAfter(cfg, own)
  {
    hide TrackerStep, Home, RecordAfter;
    RestartPoint(cfg, run, first, other, second);
    var n := |first| + Interval(cfg);
    assert run.packets[n..n + |own|] == own && forall p <- own :: p in second;
    OwnPacketsTracked(cfg, run, n, first, |first|, own);
    assert (first + own)[|first|..] == own;
  }

  /** After the interruption the tracker answers as if the source's first packets had never been. */
  lemma InterruptedAlerts(cfg: Config, run: Run, first: History, other: QueuedPacket, second: History)
    requires IsInterruption(cfg, first, other, second) && second != [] && InOrder(second)
    requires IsRun(cfg, Zero, run) && run.packets == Interrupted(cfg, first, other, second)
    ensures run.alerts[|run.packets| - 1] == NaiveAlerts(cfg, second)
  {
    hide TrackerStep, NaiveAlerts, InOrder, Home, ObserveRecord, RecordAfter;
    var m := |second| - 1;
    var n := |first| + Interval(cfg) + m;
    var p := second[m];
    assert second == second[..m] + [p] && run.packets[n] == p && p in second;
    RestartedRecord(cfg, run, first, other, second, second[..m]);
    assert TrackerStep(cfg, Zero, run.states[n], p, run.states[n + 1], run.alerts[n]);
    TrackerStepAt(cfg, Zero, run.states[n], p, run.states[n + 1], run.alerts[n], 1);
    UninterruptedIsRecount(cfg, second[..m], p);
  }

  /** The never-evicting detector remembers them. */
  lemma InterruptedSolo(cfg: Config, first: History, other: QueuedPacket, second: History)
    requires IsInterruption(cfg, first, other, second) && second != []
    ensures SoloAlerts(cfg, Interrupted(cfg, first, other, second)) == NaiveAlerts(cfg, first + second)
  {
    hide NaiveAlerts;
    var log := Interrupted(cfg, first, other, second);
    OfInterrupted(cfg, first, other, second);
    assert log[|log| - 1] == second[|second| - 1] && second[|second| - 1] in second;
  }

  lemma TwoFit(cfg: Config, hash: Ip -> nat, log: History, p: QueuedPacket)
    requires cfg.maxTrackedIpsPerShard >= 2 && p.meta.srcIp in {1, 2} && forall q <- log :: q.meta.srcIp in {1, 2}
    ensures CapSufficesAt(cfg, hash, log, p)
  {
    hide Ms, ShardIndex;
    var shards := ShardCount(cfg);
    var active :=
      ActiveIps(hash, shards, ShardIndex(hash, shards, p.meta.srcIp), log, Ms(p) - cfg.idleTtlMs) + {p.meta.srcIp};
    assert active <= {1, 2};
    SubsetCardinality(active, {1, 2});
  }

  /** With room for two records, a run of two sources never forces a drop. */
  lemma TwoSourcesFit(cfg: Config, hash: Ip -> nat, run: Run)
    requires IsRun(cfg, hash, run) && cfg.maxTrackedIpsPerShard >= 2
    requires forall p <- run.packets :: p.meta.srcIp in {1, 2}
    ensures Unforced(cfg, hash, run)
  {
    hide TrackerStep, CapSufficesAt, UnforcedAt;
    var log := run.packets;
    forall n | 0 <= n < |log| ensures CapSufficesAt(cfg, hash, log[..n + 1], log[n]) {
      assert log[n] in log && forall p <- log[..n + 1] :: p in log;
      TwoFit(cfg, hash, log[..n + 1], log[n]);
    }
    CapSufficesIsUnforced(cfg, hash, run);
  }

  /** An interruption has a run, and it forces no drop. */
  lemma InterruptionRuns(cfg: Config, first: History, other: QueuedPacket, second: History) returns (run: Run)
    requires IsInterruption(cfg, first, other, second) && cfg.maxTrackedIpsPerShard >= 2
    ensures IsRun(cfg, Zero, run) && run.packets == Interrupted(cfg, first, other, second) && Unforced(cfg, Zero, run)
  {
    hide IsRun, Unforced;
    run := RunExists(cfg, Zero, Interrupted(cfg, first, other, second));
    forall p <- run.packets ensures p.meta.srcIp in {1, 2} {
      assert p in first || p == other || p in second;
    }
    TwoSourcesFit(cfg, Zero, run);
  }
}
