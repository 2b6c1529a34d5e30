/** What holds of the tracker whatever the timestamps: no under-counting, debouncing, bounded state and work. */
module FlowLimits {
  import opened Packets
  import opened Arithmetic
  import opened FlowModel
  import opened FlowHistory
  import opened FlowRuns

  // --- one uninterrupted record ---

  lemma {:induction false} RecordTracks(cfg: Config, h: History, portMax: int, synMax: int)
    requires forall p <- h :: IsConnectionAttempt(p) ==> Ms(p) <= portMax
    requires forall p <- h :: IsTcp(p) ==> Ms(p) <= synMax
    ensures var r := RecordAfter(cfg, h);
            && PortsTrack(r.recentDstPorts, h, portMax - cfg.portScanWindowMs)
            && OrderCovers(r.pendingSyns, r.pendingSynOrder)
            && PendingTracks(r.pendingSyns, LatestSyns(h), synMax - cfg.synFloodWindowMs)
  {
    hide ObserveRecord, PortsStep, SynsStep, PortsTrack, OrderCovers, PendingTracks;
    if h == [] {
      EmptyTracks(portMax - cfg.portScanWindowMs, synMax - cfg.synFloodWindowMs);
    } else {
      var front, p := h[..|h| - 1], h[|h| - 1];
      assert h == front + [p];
      assert forall q <- front :: q in h;
      RecordTracks(cfg, front, portMax, synMax);
      var r := RecordAfter(cfg, front);
      RecordStep(cfg, r, p);
      var r' := ObserveRecord(cfg, r, p).record;
      PortsTrackStep(cfg, r, front, p, r', portMax - cfg.portScanWindowMs, portMax - cfg.portScanWindowMs);
      OrderCoversStep(cfg, r, p, r');
      PendingTracksStep(cfg, r, front, p, r', synMax - cfg.synFloodWindowMs, synMax - cfg.synFloodWindowMs);
    }
  }

  lemma EmptyTracks(portBound: int, synBound: int)
    ensures PortsTrack([], [], portBound)
    ensures OrderCovers(map[], [])
    ensures PendingTracks(map[], LatestSyns([]), synBound)
  {
    assert PortsCutAt([], Attempts([]), portBound, 0);
  }

  /** Out-of-order delivery never under-counts: nothing inside the window of the greatest timestamp a rule
      has processed is missing, whatever order the packets came in. */
  lemma NeverUndercounts(cfg: Config, h: History, portMax: int, synMax: int)
    requires forall p <- h :: IsConnectionAttempt(p) ==> Ms(p) <= portMax
    requires forall p <- h :: IsTcp(p) ==> Ms(p) <= synMax
    ensures PortsProbed(h, portMax - cfg.portScanWindowMs) <= PortSet(RecordAfter(cfg, h).recentDstPorts)
    ensures HalfOpen(h, synMax - cfg.synFloodWindowMs) <= RecordAfter(cfg, h).pendingSyns.Keys
    ensures OrderCovers(RecordAfter(cfg, h).pendingSyns, RecordAfter(cfg, h).pendingSynOrder)
  {
    hide RecordAfter;
    RecordTracks(cfg, h, portMax, synMax);
    PortsCovered(RecordAfter(cfg, h).recentDstPorts, h, portMax - cfg.portScanWindowMs);
    LatestSynsAreHalfOpen(h, synMax - cfg.synFloodWindowMs);
  }

  lemma PortsCovered(fifo: seq<PortEvent>, h: History, bound: int)
    requires PortsTrack(fifo, h, bound)
    ensures PortsProbed(h, bound) <= PortSet(fifo)
  {
    AttemptsArePorts(h, bound);
    var all := Attempts(h);
    var k: nat :| k <= |all| && PortsCutAt(fifo, all, bound, k);
    forall e | e in all && e.ms >= bound ensures e in fifo {
      var i :| 0 <= i < |all| && all[i] == e;
      assert i >= k && fifo[i - k] == e;
    }
  }

  /** With timestamps in order, the uninterrupted record raises exactly the recount's alerts. */
  lemma {:induction false} UninterruptedIsRecount(cfg: Config, h: History, p: QueuedPacket)
    requires InOrder(h + [p])
    ensures ObserveRecord(cfg, RecordAfter(cfg, h), p).alerts == NaiveAlerts(cfg, h + [p])
    ensures Agrees(cfg, RecordAfter(cfg, h), h, Ms(p))
  {
    hide Agrees, ObserveRecord, NaiveAlerts, Ms;
    if h == [] {
      EmptyAgrees(cfg, Ms(p));
    } else {
      var front, q := h[..|h| - 1], h[|h| - 1];
      assert h == front + [q];
      assert InOrder(h) by { assert forall i | 0 <= i < |h| :: h[i] == (h + [p])[i]; }
      UninterruptedIsRecount(cfg, front, q);
      ObservationIsRecount(cfg, RecordAfter(cfg, front), front, q, Ms(q));
      assert (h + [p])[|h| - 1] == q && (h + [p])[|h|] == p;
      AgreesLater(cfg, RecordAfter(cfg, h), h, Ms(q), Ms(p));
    }
    ObservationIsRecount(cfg, RecordAfter(cfg, h), h, p, Ms(p));
  }

  // --- debouncing ---

  predicate Raised(alerts: seq<Alert>, kind: AnomalyType) {
    exists a <- alerts :: a.kind == kind
  }

  /** When a rule alerted over an uninterrupted record. */
  function AlertTimes(cfg: Config, h: History, kind: AnomalyType): seq<int> {
    if h == [] then []
    else
      var front, p := h[..|h| - 1], h[|h| - 1];
      AlertTimes(cfg, front, kind) +
      if Raised(ObserveRecord(cfg, RecordAfter(cfg, front), p).alerts, kind) then [Ms(p)] else []
  }

  function StampOf(r: IpRecord, kind: AnomalyType): Option<int> {
    if kind == PortScan then r.lastPortScanAlertMs else r.lastSynFloodAlertMs
  }

  /** Whether a rule looks at a packet and finds its count at the threshold. */
  predicate OverThreshold(cfg: Config, r': IpRecord, p: QueuedPacket, kind: AnomalyType) {
    if kind == PortScan
    then IsConnectionAttempt(p) && |PortSet(r'.recentDstPorts)| >= cfg.portScanDistinctPortThreshold
    else IsTcp(p) && |r'.pendingSyns.Keys| >= cfg.synFloodPendingThreshold
  }

  /** One observation: a rule alerts exactly when over threshold and not debounced, and stamps the time. */
  lemma RaisedIff(cfg: Config, r: IpRecord, p: QueuedPacket, kind: AnomalyType)
    requires kind == PortScan || kind == SynFlood
    ensures var o := ObserveRecord(cfg, r, p);
            && Raised(o.alerts, kind) == (OverThreshold(cfg, o.record, p, kind) && DebounceAllows(cfg, StampOf(r, kind), Ms(p)))
            && StampOf(o.record, kind) == if Raised(o.alerts, kind) then Some(Ms(p)) else StampOf(r, kind)
  {
    hide ObserveRecord;
    RecordAlerts(cfg, r, p);
    var o := ObserveRecord(cfg, r, p);
    var ports, syns := |PortSet(o.record.recentDstPorts)|, |o.record.pendingSyns.Keys|;
    if PortRuleFires(cfg, p, ports, r.lastPortScanAlertMs) {
      assert o.alerts[0].kind == PortScan;
    }
    if SynRuleFires(cfg, p, syns, r.lastSynFloodAlertMs) {
      assert o.alerts[|o.alerts| - 1].kind == SynFlood;
    }
  }

  lemma {:induction false} StampIsLastAlert(cfg: Config, h: History, kind: AnomalyType)
    requires kind == PortScan || kind == SynFlood
    ensures var times := AlertTimes(cfg, h, kind);
            StampOf(RecordAfter(cfg, h), kind) == if times == [] then None else Some(times[|times| - 1])
  {
    hide ObserveRecord, Ms, Raised, StampOf;
    if h == [] {
      assert StampOf(EMPTY_RECORD, kind) == None by { StampOfEmpty(kind); }
    } else {
      StampIsLastAlert(cfg, h[..|h| - 1], kind);
      RaisedIff(cfg, RecordAfter(cfg, h[..|h| - 1]), h[|h| - 1], kind);
    }
  }

  lemma StampOfEmpty(kind: AnomalyType)
    ensures StampOf(EMPTY_RECORD, kind) == None
  {}

  /** Debounce limits: alerts `i` and `j` of one rule lie at least `(j - i)` debounce intervals apart in
      packet time, whatever order the packets came in. */
  lemma {:induction false} DebounceLimits(cfg: Config, h: History, kind: AnomalyType, i: nat, j: nat)
    requires kind == PortScan || kind == SynFlood
    requires i <= j < |AlertTimes(cfg, h, kind)|
    ensures AlertTimes(cfg, h, kind)[j] - AlertTimes(cfg, h, kind)[i] >= (j - i) * cfg.alertDebounceMs
  {
    hide ObserveRecord, Ms, Raised, StampOf;
    var front, p := h[..|h| - 1], h[|h| - 1];
    var times := AlertTimes(cfg, front, kind);
    if j < |times| {
      DebounceLimits(cfg, front, kind, i, j);
    } else if i < j {
      StampIsLastAlert(cfg, front, kind);
      RaisedIff(cfg, RecordAfter(cfg, front), p, kind);
      DebounceLimits(cfg, front, kind, i, j - 1);
      MulSucc(j - 1 - i, cfg.alertDebounceMs);
    }
  }

  lemma {:induction false} AlertTimesPast(cfg: Config, h: History, kind: AnomalyType, latest: int)
    requires forall p <- h :: Ms(p) <= latest
    ensures forall t <- AlertTimes(cfg, h, kind) :: t <= latest
  {
    hide ObserveRecord, Ms, Raised;
    if h != [] {
      assert h[|h| - 1] in h && forall p <- h[..|h| - 1] :: p in h;
      AlertTimesPast(cfg, h[..|h| - 1], kind, latest);
    }
  }

  /** Debounce covers: an over-threshold check either alerts or comes less than one interval after an
      alert of the same rule, which with timestamps in order is no later than the check; the first one always
      alerts, however small its timestamp. */
  lemma DebounceCovers(cfg: Config, h: History, p: QueuedPacket, kind: AnomalyType)
    requires kind == PortScan || kind == SynFlood
    requires OverThreshold(cfg, RecordAfter(cfg, h + [p]), p, kind)
    ensures Raised(ObserveRecord(cfg, RecordAfter(cfg, h), p).alerts, kind) ||
            exists t <- AlertTimes(cfg, h, kind) ::
              Ms(p) - t < cfg.alertDebounceMs && (InOrder(h + [p]) ==> t <= Ms(p))
    ensures AlertTimes(cfg, h, kind) == [] ==> Raised(ObserveRecord(cfg, RecordAfter(cfg, h), p).alerts, kind)
  {
    hide ObserveRecord, Ms, Raised, StampOf, OverThreshold;
    assert (h + [p])[..|h|] == h;
    RaisedIff(cfg, RecordAfter(cfg, h), p, kind);
    StampIsLastAlert(cfg, h, kind);
    var times := AlertTimes(cfg, h, kind);
    if InOrder(h + [p]) {
      assert (h + [p])[|h|] == p && forall i | 0 <= i < |h| :: h[i] == (h + [p])[i];
      AlertTimesPast(cfg, h, kind, Ms(p));
    }
    assert times != [] ==> times[|times| - 1] in times;
  }

  // --- bounded state ---

  ghost predicate ShardBounded(cfg: Config, s: ShardState) {
    && s.observationsSinceSweep <= Max(cfg.sweepIntervalPackets, 1) - 1
    && |s.perIp| <= Max(cfg.maxTrackedIpsPerShard, 1) + s.observationsSinceSweep
  }

  ghost predicate HomeShards(hash: Ip -> nat, t: Tracker) {
    forall i | 0 <= i < |t| :: forall ip <- t[i].perIp :: ShardIndex(hash, |t|, ip) == i
  }

  lemma ShardStepBounded(cfg: Config, s: ShardState, p: QueuedPacket, s': ShardState, alerts: seq<Alert>)
    requires ShardBounded(cfg, s) && ShardStep(cfg, s, p, s', alerts)
    ensures ShardBounded(cfg, s')
    ensures s'.perIp.Keys <= s.perIp.Keys + {p.meta.srcIp}
  {
    hide ObserveRecord;
    var touched := s.perIp[p.meta.srcIp := ObserveRecord(cfg, RecordOf(s.perIp, p.meta.srcIp), p).record];
    assert touched.Keys == s.perIp.Keys + {p.meta.srcIp};
    assert |touched.Keys| == |touched| && |s.perIp.Keys| == |s.perIp| && |s'.perIp.Keys| == |s'.perIp|;
  }

  lemma {:induction false} RunBounded(cfg: Config, hash: Ip -> nat, run: Run, n: nat)
    requires IsRun(cfg, hash, run) && n <= |run.packets|
    ensures |run.states[n]| == if cfg.numShards == 0 then 1 else cfg.numShards
    ensures forall s <- run.states[n] :: ShardBounded(cfg, s)
    ensures HomeShards(hash, run.states[n])
    ensures forall i, ip | 0 <= i < |run.states[n]| && ip in run.states[n][i].perIp :: i == hash(ip) % |run.states[n]|
  {
    hide ShardStep, ShardBounded;
    if n == 0 {
      EmptyShardBounded(cfg);
    } else {
      RunBounded(cfg, hash, run, n - 1);
      var t, p, t' := run.states[n - 1], run.packets[n - 1], run.states[n];
      assert TrackerStep(cfg, hash, t, p, t', run.alerts[n - 1]);
      if p.meta.hasIp {
        var i := ShardIndex(hash, |t|, p.meta.srcIp);
        ShardStepBounded(cfg, t[i], p, t'[i], run.alerts[n - 1]);
        forall s <- t' ensures ShardBounded(cfg, s) {
          var j :| 0 <= j < |t'| && t'[j] == s;
          if j != i { assert s == t[j]; }
        }
      }
    }
  }

  lemma RunKeepsShards(cfg: Config, hash: Ip -> nat, run: Run, n: nat)
    requires IsRun(cfg, hash, run) && n <= |run.packets|
    ensures |run.states[n]| == ShardCount(cfg)
  {
    RunBounded(cfg, hash, run, n);
  }

  lemma EmptyShardBounded(cfg: Config)
    ensures ShardBounded(cfg, ShardState(map[], 0))
  {}

  /** What `tracked_ip_count` adds up. */
  function TrackedCount(t: Tracker): nat {
    if t == [] then 0 else TrackedCount(t[..|t| - 1]) + |t[|t| - 1].perIp|
  }

  function TrackedIps(t: Tracker): set<Ip> {
    set s <- t, ip <- s.perIp :: ip
  }

  ghost predicate DisjointShards(t: Tracker) {
    forall i, j | 0 <= i < j < |t| :: t[i].perIp.Keys !! t[j].perIp.Keys
  }

  lemma {:induction false} CountIsDistinctIps(t: Tracker)
    requires DisjointShards(t)
    ensures TrackedCount(t) == |TrackedIps(t)|
  {
    if t == [] {
      assert TrackedIps(t) == {};
    } else {
      LastShardIps(t);
      hide TrackedIps;
      CountIsDistinctIps(t[..|t| - 1]);
    }
  }

  lemma LastShardIps(t: Tracker)
    requires t != [] && DisjointShards(t)
    ensures var front, last := t[..|t| - 1], t[|t| - 1];
            && DisjointShards(front)
            && TrackedIps(t) == TrackedIps(front) + last.perIp.Keys
            && |TrackedIps(t)| == |TrackedIps(front)| + |last.perIp|
  {
    var front, last := t[..|t| - 1], t[|t| - 1];
    assert t == front + [last];
    forall ip ensures ip in TrackedIps(t) <==> ip in TrackedIps(front) || ip in last.perIp {
      if s :| s in front && ip in s.perIp { assert s in t; }
      if ip in last.perIp { assert last in t; }
    }
    assert TrackedIps(front) !! last.perIp.Keys;
    assert |last.perIp.Keys| == |last.perIp|;
  }

  lemma {:induction false} CountBound(t: Tracker, bound: nat)
    requires forall s <- t :: |s.perIp| <= bound
    ensures TrackedCount(t) <= |t| * bound
  {
    if t != [] {
      var front := t[..|t| - 1];
      assert forall s <- front :: s in t;
      CountBound(front, bound);
      assert t[|t| - 1] in t;
      MulSucc(|front|, bound);
    }
  }

  /** After every packet of every run, `tracked_ip_count` is the number of distinct tracked sources and
      stays under the shard count times one cap plus less than one sweep interval. */
  lemma TrackedStateIsBounded(cfg: Config, hash: Ip -> nat, run: Run, n: nat)
    requires IsRun(cfg, hash, run) && n <= |run.packets|
    ensures var bound := Max(cfg.maxTrackedIpsPerShard, 1) + Max(cfg.sweepIntervalPackets, 1) - 1;
            && (forall s <- run.states[n] :: |s.perIp| <= bound)
            && TrackedCount(run.states[n]) == |TrackedIps(run.states[n])|
            && TrackedCount(run.states[n]) <= ShardCount(cfg) * bound
  {
    RunBounded(cfg, hash, run, n);
    CountIsDistinctIps(run.states[n]);
    CountBound(run.states[n], Max(cfg.maxTrackedIpsPerShard, 1) + Max(cfg.sweepIntervalPackets, 1) - 1);
  }
}
