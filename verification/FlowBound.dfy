/** The bound on tracked records is reached: between sweeps a shard holds an interval's worth of records beyond
    its cap. */
module FlowBound {
  import opened Packets
  import opened Arithmetic
  import opened FlowModel
  import opened FlowHistory
  import opened FlowRuns
  import opened FlowLimits
  import opened FlowWork
  import opened FlowSources
  import opened FlowScenarios

  const ALL_IPS := 0x1_0000_0000

  function Cap(cfg: Config): (n: nat)
    ensures n >= 1
  {
    Max(cfg.maxTrackedIpsPerShard, 1)
  }

  function Lesser(a: nat, b: nat): nat { if a <= b then a else b }

  /** One packet from each of `n` sources, all at once. */
  function Crowd(n: nat): (h: History)
    requires n <= ALL_IPS
    ensures |h| == n && forall i | 0 <= i < n :: h[i] == Datagram(0, i, 0)
  {
    seq(n, i requires 0 <= i < n => Datagram(0, i, 0))
  }

  lemma CrowdFrom(n: nat, ip: Ip)
    requires n <= ALL_IPS
    ensures forall p <- Of(Crowd(n), ip) :: Ms(p) == 0
    ensures Of(Crowd(n), ip) != [] ==> ip < n
  {
    DatagramIs(0, ip, 0);
    hide Ms, Of;
    OfMembers(Crowd(n), ip);
    forall p <- Of(Crowd(n), ip) ensures Ms(p) == 0 && ip < n {
      var i :| 0 <= i < n && Crowd(n)[i] == p;
    }
    assert Of(Crowd(n), ip) != [] ==> Of(Crowd(n), ip)[0] in Of(Crowd(n), ip);
  }

  /** Every tracked source is one of the crowd seen so far, last seen at time zero. */
  lemma CrowdTracked(cfg: Config, run: Run, n: nat)
    requires |run.packets| <= ALL_IPS && IsRun(cfg, Zero, run) && run.packets == Crowd(|run.packets|)
    requires n <= |run.packets|
    ensures |run.states[n]| == ShardCount(cfg)
    ensures forall ip <- run.states[n][0].perIp :: ip < n && run.states[n][0].perIp[ip].lastSeenMs == 0
  {
    hide TrackerStep, Of, Ms, RecordAfter;
    RunBounded(cfg, Zero, run, n);
    assert run.packets[..n] == Crowd(n);
    var latest := UpperBound(Crowd(n));
    forall ip <- run.states[n][0].perIp ensures ip < n && run.states[n][0].perIp[ip].lastSeenMs == 0 {
      var k := TrackedIsSuffix(cfg, Zero, run, n, ip, 0, latest);
      var h := Of(Crowd(n), ip);
      CrowdFrom(n, ip);
      LastSeenIsLast(cfg, h[k..]);
      assert h[|h| - 1] in h;
    }
  }

  /** A sweep at which nobody is idle leaves as many records as the cap takes. */
  lemma CrowdSwept(cfg: Config, before: map<Ip, IpRecord>, after: map<Ip, IpRecord>, keep: Ip)
    requires cfg.idleTtlMs >= 0 && Swept(cfg, before, after, 0, keep) && keep in before
    requires forall ip <- before :: before[ip].lastSeenMs == 0
    ensures |after| == Lesser(|before|, Cap(cfg))
  {
    assert NotIdle(cfg, before, 0, keep) == before.Keys;
    assert |after| == |after.Keys| && |before| == |before.Keys|;
    assert |before| >= 1 by { assert before.Keys == before.Keys - {keep} + {keep}; }
  }

  lemma CrowdStep(cfg: Config, s: ShardState, p: QueuedPacket, s': ShardState, alerts: seq<Alert>)
    requires cfg.idleTtlMs >= 0 && ShardStep(cfg, s, p, s', alerts) && Ms(p) == 0 && p.meta.srcIp !in s.perIp
    requires forall ip <- s.perIp :: s.perIp[ip].lastSeenMs == 0
    ensures SweepDue(cfg, s) ==> |s'.perIp| == Lesser(|s.perIp| + 1, Cap(cfg)) && s'.observationsSinceSweep == 0
    ensures !SweepDue(cfg, s) ==>
              |s'.perIp| == |s.perIp| + 1 && s'.observationsSinceSweep == s.observationsSinceSweep + 1
  {
    ObservedAt(cfg, RecordOf(s.perIp, p.meta.srcIp), p);
    hide ObserveRecord, Swept, Ms;
    var touched := Touched(cfg, s.perIp, p);
    assert touched.Keys == s.perIp.Keys + {p.meta.srcIp};
    assert |touched| == |touched.Keys| && |s.perIp| == |s.perIp.Keys|;
    if SweepDue(cfg, s) {
      CrowdSwept(cfg, touched, s'.perIp, p.meta.srcIp);
    }
  }

  /** After `j` sweeps and `r` more sources, the cap's worth of the swept ones and all of the newer. */
  lemma {:induction false} CrowdCount(cfg: Config, run: Run, j: nat, r: nat, n: nat)
    requires cfg.idleTtlMs >= 0 && |run.packets| <= ALL_IPS
    requires IsRun(cfg, Zero, run) && run.packets == Crowd(|run.packets|)
    requires r < Interval(cfg) && n == j * Interval(cfg) + r <= |run.packets|
    ensures |run.states[n]| == ShardCount(cfg)
    ensures run.states[n][0].observationsSinceSweep == r
    ensures |run.states[n][0].perIp| == Lesser(j * Interval(cfg), Cap(cfg)) + r
    decreases n
  {
    hide TrackerStep, ShardStep, Cap;
    RunBounded(cfg, Zero, run, n);
    if r > 0 {
      CrowdCount(cfg, run, j, r - 1, n - 1);
      CrowdNext(cfg, run, n - 1);
    } else if j > 0 {
      MulSucc(j - 1, Interval(cfg));
      CrowdCount(cfg, run, j - 1, Interval(cfg) - 1, n - 1);
      CrowdNext(cfg, run, n - 1);
    }
  }

  lemma CrowdNext(cfg: Config, run: Run, n: nat)
    requires cfg.idleTtlMs >= 0 && |run.packets| <= ALL_IPS
    requires IsRun(cfg, Zero, run) && run.packets == Crowd(|run.packets|) && n < |run.packets|
    ensures |run.states[n]| == |run.states[n + 1]| == ShardCount(cfg)
    ensures var s, s' := run.states[n][0], run.states[n + 1][0];
            if s.observationsSinceSweep + 1 >= Interval(cfg)
            then |s'.perIp| == Lesser(|s.perIp| + 1, Cap(cfg)) && s'.observationsSinceSweep == 0
            else |s'.perIp| == |s.perIp| + 1 && s'.observationsSinceSweep == s.observationsSinceSweep + 1
  {
    DatagramIs(0, n, 0);
    CrowdTracked(cfg, run, n);
    hide ShardStep, Ms;
    var p := run.packets[n];
    assert p == Datagram(0, n, 0);
    assert TrackerStep(cfg, Zero, run.states[n], p, run.states[n + 1], run.alerts[n]);
    CrowdStep(cfg, run.states[n][0], p, run.states[n + 1][0], run.alerts[n]);
  }

  /** The first multiple of the interval at or above the cap. */
  lemma SweepsToFill(cap: nat, interval: nat) returns (j: nat)
    requires interval >= 1
    ensures cap <= j * interval < cap + interval
  {
    j := 0;
    while j * interval < cap
      invariant j * interval < cap + interval
      decreases cap + interval - j * interval
    {
      MulSucc(j, interval);
      j := j + 1;
    }
  }

  /** For every configuration that does not make everybody idle at once, and leaves enough addresses: a run in
      which the first shard holds one cap plus one interval less one records, the most that any run allows. */
  lemma BoundIsReached(cfg: Config) returns (run: Run, n: nat)
    requires cfg.idleTtlMs >= 0 && Cap(cfg) + 2 * Interval(cfg) <= ALL_IPS
    ensures IsRun(cfg, Zero, run) && n <= |run.packets| && run.states[n] != []
    ensures |run.states[n][0].perIp| == Cap(cfg) + Interval(cfg) - 1
    ensures forall s <- run.states[n] :: |s.perIp| <= Cap(cfg) + Interval(cfg) - 1
  {
    hide IsRun, Cap, Interval;
    var j := SweepsToFill(Cap(cfg), Interval(cfg));
    n := j * Interval(cfg) + (Interval(cfg) - 1);
    run := RunExists(cfg, Zero, Crowd(n));
    CrowdCount(cfg, run, j, Interval(cfg) - 1, n);
    TrackedBound(cfg, run, n);
  }

  lemma TrackedBound(cfg: Config, run: Run, n: nat)
    requires IsRun(cfg, Zero, run) && n <= |run.packets|
    ensures forall s <- run.states[n] :: |s.perIp| <= Cap(cfg) + Interval(cfg) - 1
  {
    TrackedStateIsBounded(cfg, Zero, run, n);
  }

  /** The defaults: a cap of 1024 and a sweep every 256 packets let a shard hold 1279 records. */
  lemma DefaultsExceedTheCap(cfg: Config) returns (run: Run, n: nat)
    requires cfg.maxTrackedIpsPerShard == 1024 && cfg.sweepIntervalPackets == 256 && cfg.idleTtlMs == 60000
    ensures IsRun(cfg, Zero, run) && n <= |run.packets| && run.states[n] != []
    ensures |run.states[n][0].perIp| == 1279
  {
    hide IsRun;
    run, n := BoundIsReached(cfg);
  }
}
