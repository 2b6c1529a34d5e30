/** The tracker's work is amortised constant: expiry pops and sweep steps over any run of one shard. */
module FlowWork {
  import opened Packets
  import opened FlowModel
  import opened FlowHistory
  import opened FlowLimits
  import opened Arithmetic

  /** The loop iterations of one observation: expiry pops, and steps of the sweep's two passes. */
  datatype Work = Work(pops: nat, sweepSteps: nat)

  datatype ShardRun = ShardRun(packets: History, states: seq<ShardState>, alerts: seq<seq<Alert>>, work: seq<Work>)

  const EMPTY_RUN := ShardRun([], [ShardState(map[], 0)], [], [])

  ghost predicate IsShardRun(cfg: Config, run: ShardRun) {
    && |run.states| == |run.packets| + 1
    && |run.alerts| == |run.work| == |run.packets|
    && run.states[0] == ShardState(map[], 0)
    && forall i | 0 <= i < |run.packets| ::
         WorkedStep(cfg, run.states[i], run.packets[i], run.states[i + 1], run.alerts[i], run.work[i])
  }

  /** One observation with the work it took. */
  ghost predicate WorkedStep(cfg: Config, s: ShardState, p: QueuedPacket, s': ShardState, alerts: seq<Alert>, w: Work) {
    && ShardStep(cfg, s, p, s', alerts)
    && w.pops == PopsAt(cfg, s, p)
    && w.sweepSteps <= if SweepDue(cfg, s) then 2 * |s.perIp.Keys + {p.meta.srcIp}| else 0
  }

  function PopsAt(cfg: Config, s: ShardState, p: QueuedPacket): nat {
    ObserveRecord(cfg, RecordOf(s.perIp, p.meta.srcIp), p).pops
  }

  function TotalPops(work: seq<Work>): nat {
    if work == [] then 0 else TotalPops(work[..|work| - 1]) + work[|work| - 1].pops
  }

  function TotalSweepSteps(work: seq<Work>): nat {
    if work == [] then 0 else TotalSweepSteps(work[..|work| - 1]) + work[|work| - 1].sweepSteps
  }

  // --- the potential: queue entries held by the shard ---

  function QueueLength(r: IpRecord): nat { |r.recentDstPorts| + |r.pendingSynOrder| }

  ghost function Pick(records: map<Ip, IpRecord>): (ip: Ip)
    requires |records| > 0
    ensures ip in records
  {
    var ip :| ip in records;
    ip
  }

  ghost function Load(records: map<Ip, IpRecord>): nat
    decreases |records|
  {
    if |records| == 0 then 0
    else
      var ip := Pick(records);
      LessWithout(records, ip);
      QueueLength(records[ip]) + Load(records - {ip})
  }

  lemma LessWithout(records: map<Ip, IpRecord>, ip: Ip)
    requires ip in records
    ensures |records - {ip}| < |records|
  {
    assert (records - {ip}).Keys == records.Keys - {ip};
    assert |records.Keys - {ip}| == |records.Keys| - 1;
    assert |(records - {ip}).Keys| == |records - {ip}| && |records.Keys| == |records|;
  }

  lemma WithoutCommutes(records: map<Ip, IpRecord>, a: Ip, b: Ip)
    ensures records - {a} - {b} == records - {b} - {a}
  {}

  /** The sum does not depend on the order in which records are picked. */
  lemma {:induction false} LoadWithout(records: map<Ip, IpRecord>, ip: Ip)
    requires ip in records
    ensures Load(records) == QueueLength(records[ip]) + Load(records - {ip})
    decreases |records|
  {
    hide QueueLength, Pick;
    LessWithout(records, ip);
    var picked := Pick(records);
    if picked != ip {
      LessWithout(records, picked);
      LoadWithout(records - {picked}, ip);
      WithoutCommutes(records, picked, ip);
      LoadWithout(records - {ip}, picked);
    }
  }

  /** Evicting records only lowers the potential. */
  lemma {:induction false} LoadOfSubmap(part: map<Ip, IpRecord>, whole: map<Ip, IpRecord>)
    requires part.Keys <= whole.Keys && forall ip <- part :: part[ip] == whole[ip]
    ensures Load(part) <= Load(whole)
    decreases |whole|
  {
    if part != whole {
      var ip :| ip in whole && ip !in part;
      LessWithout(whole, ip);
      LoadOfSubmap(part, whole - {ip});
      LoadWithout(whole, ip);
    }
  }

  /** One observation pushes at most two entries, and every pop comes out of the queues. */
  lemma PopsArePaid(cfg: Config, r: IpRecord, p: QueuedPacket)
    ensures var o := ObserveRecord(cfg, r, p);
            o.pops + QueueLength(o.record) <= QueueLength(r) + 2
  {
    ExpiredPortsBound(WithAttempt(r.recentDstPorts, p), Ms(p) - cfg.portScanWindowMs);
    ExpiredSynsBound(WithSyn(r.pendingSynOrder, p), Ms(p) - cfg.synFloodWindowMs);
  }

  /** Updating one record changes the potential by its queues alone. */
  lemma LoadUpdated(records: map<Ip, IpRecord>, ip: Ip, r: IpRecord)
    ensures Load(records[ip := r]) + QueueLength(RecordOf(records, ip)) == Load(records) + QueueLength(r)
  {
    hide QueueLength, Load;
    var updated := records[ip := r];
    LoadWithout(updated, ip);
    assert updated - {ip} == records - {ip};
    if ip in records {
      LoadWithout(records, ip);
    } else {
      assert records - {ip} == records;
      EmptyRecordIsFree();
    }
  }

  lemma SweptIsSubmap(cfg: Config, s: ShardState, p: QueuedPacket, s': ShardState, alerts: seq<Alert>)
    requires ShardStep(cfg, s, p, s', alerts)
    ensures var touched := Touched(cfg, s.perIp, p);
            s'.perIp.Keys <= touched.Keys && forall ip <- s'.perIp :: s'.perIp[ip] == touched[ip]
  {
    hide ObserveRecord;
  }

  lemma StepIsPaid(cfg: Config, s: ShardState, p: QueuedPacket, s': ShardState, alerts: seq<Alert>)
    requires ShardStep(cfg, s, p, s', alerts)
    ensures PopsAt(cfg, s, p) + Load(s'.perIp) <= Load(s.perIp) + 2
  {
    hide ObserveRecord, QueueLength, Load, ShardStep;
    var r := RecordOf(s.perIp, p.meta.srcIp);
    PopsArePaid(cfg, r, p);
    LoadUpdated(s.perIp, p.meta.srcIp, ObserveRecord(cfg, r, p).record);
    SweptIsSubmap(cfg, s, p, s', alerts);
    LoadOfSubmap(s'.perIp, Touched(cfg, s.perIp, p));
  }

  lemma EmptyRecordIsFree()
    ensures QueueLength(EMPTY_RECORD) == 0
  {}

  lemma {:induction false} PopsAmortised(cfg: Config, run: ShardRun, n: nat)
    requires IsShardRun(cfg, run) && n <= |run.packets|
    ensures TotalPops(run.work[..n]) + Load(run.states[n].perIp) <= 2 * n
  {
    hide ShardStep, PopsAt, Load;
    if n == 0 {
      assert Load(map[]) == 0 by { EmptyLoad(); }
    } else {
      PopsAmortised(cfg, run, n - 1);
      assert run.work[..n][..n - 1] == run.work[..n - 1];
      StepIsPaid(cfg, run.states[n - 1], run.packets[n - 1], run.states[n], run.alerts[n - 1]);
    }
  }

  lemma EmptyLoad()
    ensures Load(map[]) == 0
  {}

  // --- sweeps ---

  function Sweeps(cfg: Config, run: ShardRun, n: nat): nat
    requires n <= |run.states|
  {
    if n == 0 then 0 else Sweeps(cfg, run, n - 1) + if SweepDue(cfg, run.states[n - 1]) then 1 else 0
  }

  function Interval(cfg: Config): (n: nat)
    ensures n >= 1
  {
    Max(cfg.sweepIntervalPackets, 1)
  }

  function AtLeastOne(n: nat): (m: nat)
    ensures m >= 1
  {
    if n == 0 then 1 else n
  }

  /** What one sweep can cost: two passes over a cap of records and an interval's worth of new ones. */
  function SweepCost(cfg: Config): nat { 2 * (Max(cfg.maxTrackedIpsPerShard, 1) + Interval(cfg)) }

  lemma {:induction false} StatesBounded(cfg: Config, run: ShardRun, n: nat)
    requires IsShardRun(cfg, run) && n <= |run.packets|
    ensures ShardBounded(cfg, run.states[n])
  {
    hide ShardStep, PopsAt, ShardBounded;
    if n == 0 {
      EmptyShardBounded(cfg);
    } else {
      StatesBounded(cfg, run, n - 1);
      assert WorkedStep(cfg, run.states[n - 1], run.packets[n - 1], run.states[n], run.alerts[n - 1], run.work[n - 1]);
      ShardStepBounded(cfg, run.states[n - 1], run.packets[n - 1], run.states[n], run.alerts[n - 1]);
    }
  }

  /** An observation costs nothing unless it sweeps, and then no more than one sweep. */
  lemma StepCost(cfg: Config, s: ShardState, p: QueuedPacket, s': ShardState, alerts: seq<Alert>, w: Work)
    requires WorkedStep(cfg, s, p, s', alerts, w) && ShardBounded(cfg, s)
    ensures w.sweepSteps <= if SweepDue(cfg, s) then SweepCost(cfg) else 0
  {
    hide ShardStep, PopsAt;
    assert |s.perIp.Keys| == |s.perIp|;
  }

  lemma {:induction false} SweepsPaid(cfg: Config, run: ShardRun, n: nat, cost: nat)
    requires IsShardRun(cfg, run) && n <= |run.packets| && cost == SweepCost(cfg)
    ensures TotalSweepSteps(run.work[..n]) <= Sweeps(cfg, run, n) * cost
  {
    hide WorkedStep, SweepCost, ShardBounded, SweepDue;
    if n > 0 {
      SweepsPaid(cfg, run, n - 1, cost);
      assert run.work[..n][..n - 1] == run.work[..n - 1];
      StatesBounded(cfg, run, n - 1);
      StepCost(cfg, run.states[n - 1], run.packets[n - 1], run.states[n], run.alerts[n - 1], run.work[n - 1]);
      MulSucc(Sweeps(cfg, run, n - 1), cost);
    }
  }

  /** A sweep is due at the end of an interval and resets its count; any other observation adds one. */
  lemma CountStep(cfg: Config, s: ShardState, p: QueuedPacket, s': ShardState, alerts: seq<Alert>, w: Work, interval: nat)
    requires WorkedStep(cfg, s, p, s', alerts, w) && ShardBounded(cfg, s) && interval == Interval(cfg)
    ensures s'.observationsSinceSweep == if SweepDue(cfg, s) then 0 else s.observationsSinceSweep + 1
    ensures SweepDue(cfg, s) <==> s.observationsSinceSweep == interval - 1
  {
    hide ObserveRecord, Swept;
  }

  lemma NextCount(n: nat, sweeps: nat, interval: nat, rest: nat, due: bool)
    requires n == sweeps * interval + rest && (due ==> rest == interval - 1)
    ensures n + 1 == (sweeps + if due then 1 else 0) * interval + if due then 0 else rest + 1
  {
    MulSucc(sweeps, interval);
  }

  /** Completed intervals and observations since the last sweep account for every observation. */
  lemma {:induction false} SweepCount(cfg: Config, run: ShardRun, n: nat, interval: nat)
    requires IsShardRun(cfg, run) && n <= |run.packets| && interval == Interval(cfg)
    ensures n == Sweeps(cfg, run, n) * interval + run.states[n].observationsSinceSweep
  {
    hide WorkedStep, ShardBounded, Interval, SweepDue;
    if n > 0 {
      var s := run.states[n - 1];
      SweepCount(cfg, run, n - 1, interval);
      StatesBounded(cfg, run, n - 1);
      CountStep(cfg, s, run.packets[n - 1], run.states[n], run.alerts[n - 1], run.work[n - 1], interval);
      NextCount(n - 1, Sweeps(cfg, run, n - 1), interval, s.observationsSinceSweep, SweepDue(cfg, s));
    }
  }

  lemma BelowInterval(cfg: Config, s: ShardState)
    requires ShardBounded(cfg, s)
    ensures s.observationsSinceSweep < Interval(cfg)
  {}

  /** Over any `n` observations on a shard: at most `2n` expiry pops, and at most two passes over
      `max(cap, 1) + S` records for each of the `n / S` sweeps. */
  lemma WorkIsAmortisedConstant(cfg: Config, run: ShardRun, n: nat)
    requires IsShardRun(cfg, run) && n <= |run.packets|
    ensures TotalPops(run.work[..n]) <= 2 * n
    ensures var cap, interval := AtLeastOne(cfg.maxTrackedIpsPerShard), AtLeastOne(cfg.sweepIntervalPackets);
            TotalSweepSteps(run.work[..n]) <= n / interval * (2 * (cap + interval))
  {
    assert SweepCost(cfg) == 2 * (AtLeastOne(cfg.maxTrackedIpsPerShard) + AtLeastOne(cfg.sweepIntervalPackets));
    assert Interval(cfg) == AtLeastOne(cfg.sweepIntervalPackets);
    hide WorkedStep, Interval, SweepCost, AtLeastOne;
    PopsAmortised(cfg, run, n);
    StatesBounded(cfg, run, n);
    BelowInterval(cfg, run.states[n]);
    SweepsPaid(cfg, run, n, SweepCost(cfg));
    SweepCount(cfg, run, n, Interval(cfg));
    Quotient(n, Interval(cfg), Sweeps(cfg, run, n), run.states[n].observationsSinceSweep);
  }

  lemma Quotient(n: nat, interval: nat, sweeps: nat, rest: nat)
    requires n == sweeps * interval + rest && rest < interval
    ensures n / interval == sweeps
  {
    assert sweeps * interval == interval * sweeps;
    DivModUnique(n, interval, sweeps, rest);
  }
}
