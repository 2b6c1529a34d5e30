/** The sharded tracker object, and what every sequence of calls to it guarantees. */
module FlowTracker {
  import opened Packets
  import opened FlowModel
  import opened FlowRules
  import opened FlowRuns
  import opened FlowLimits
  import opened FlowShard
  import opened FlowWork

  class FlowTracker {
    const cfg: Config
    const hash: Ip -> nat
    const shards: seq<Shard>
    ghost var Repr: set<object>
    /** Every packet observed so far, the states in between and the alerts raised. */
    ghost var run: Run

    ghost predicate Valid()
      reads this, Repr
      ensures Valid() ==> this in Repr
    {
      && ShardsValid()
      && IsRun(cfg, hash, run)
      && Shows(run.states[|run.packets|])
    }

    /** Each shard owns its records and shares nothing with the others. */
    ghost predicate ShardsValid()
      reads this, Repr
      ensures ShardsValid() ==> this in Repr
    {
      && this in Repr
      && |shards| == ShardCount(cfg)
      && (forall i | 0 <= i < |shards| ::
            && shards[i] in Repr && shards[i].Repr <= Repr && this !in shards[i].Repr
            && shards[i].cfg == cfg && shards[i].Valid())
      && (forall i, j | 0 <= i < |shards| && 0 <= j < |shards| && i != j :: shards[i].Repr !! shards[j].Repr)
    }

    ghost predicate Shows(t: Tracker)
      requires ShardsValid()
      reads this, Repr
    {
      |t| == |shards| && forall i | 0 <= i < |shards| :: t[i] == shards[i].View()
    }

    constructor (cfg: Config, hash: Ip -> nat)
      ensures Valid() && fresh(Repr)
      ensures this.cfg == cfg && this.hash == hash && run == Run([], [InitTracker(cfg)], [])
      ensures |shards| == if cfg.numShards == 0 then 1 else cfg.numShards
      ensures forall shard <- shards :: shard.perIp == map[] && shard.observationsSinceSweep == 0
    {
      this.cfg, this.hash := cfg, hash;
      var made;
      ghost var owned;
      made, owned := NewShards(cfg, ShardCount(cfg));
      shards := made;
      Repr := {this} + owned;
      run := Run([], [InitTracker(cfg)], []);
    }

    /** One shard observes a packet; the others are untouched. */
    method ObserveAt(i: nat, p: QueuedPacket) returns (alerts: seq<Alert>)
      requires ShardsValid() && i < |shards|
      modifies Repr
      ensures ShardsValid() && fresh(Repr - old(Repr)) && run == old(run)
      ensures ShardStep(cfg, old(shards[i].View()), p, shards[i].View(), alerts)
      ensures forall j | 0 <= j < |shards| && j != i :: shards[j].View() == old(shards[j].View())
    {
      hide ShardStep, Shard.Valid, Shard.Consistent, Shard.View;
      alerts := shards[i].Observe(cfg, p);
      Repr := Repr + shards[i].Repr;
    }

    /** One packet; its shard's lock is held throughout, so calls on one shard are serialised. */
    method Observe(p: QueuedPacket) returns (alerts: seq<Alert>)
      requires Valid()
      modifies Repr
      ensures Valid() && fresh(Repr - old(Repr))
      ensures exists t :: run == Extended(old(run), p, t, alerts)
    {
      hide TrackerStep, ShardStep, Shard.Valid, Shard.Consistent, Shard.View;
      ghost var t := run.states[|run.packets|];
      ghost var t' := t;
      if p.meta.hasIp {
        var i := ShardIndex(hash, |shards|, p.meta.srcIp);
        alerts := ObserveAt(i, p);
        t' := t[i := shards[i].View()];
        ShardStepIsTrackerStep(cfg, hash, t, p, t', alerts);
      } else {
        alerts := [];
        OtherTrafficIsIgnored(cfg, hash, t, p);
      }
      ExtendedIsRun(cfg, hash, run, p, t', alerts);
      run := Extended(run, p, t', alerts);
    }

    lemma ShownIps(t: Tracker)
      requires ShardsValid() && Shows(t)
      ensures TrackedIps(t) == set shard <- shards, ip <- shard.perIp :: ip
    {
      hide Shard.Valid;
      forall ip ensures ip in TrackedIps(t) <==> ip in set shard <- shards, ip <- shard.perIp :: ip {
        if ip in TrackedIps(t) {
          var i :| 0 <= i < |t| && ip in t[i].perIp;
          assert shards[i] in shards;
        }
        if shard :| shard in shards && ip in shard.perIp {
          var i :| 0 <= i < |shards| && shards[i] == shard;
          assert t[i] in t;
        }
      }
    }

    /** What `tracked_ip_count` reports is what the run's last state tracks. */
    method TrackedIpCount() returns (total: nat)
      requires Valid()
      ensures total == TrackedCount(run.states[|run.packets|])
      ensures total == |TrackedIps(run.states[|run.packets|])|
      ensures total == |set shard <- shards, ip <- shard.perIp :: ip|
    {
      hide Shard.Valid, Shard.Consistent, Shard.View, TrackedCount, TrackedIps;
      ghost var t := run.states[|run.packets|];
      total := 0;
      CountNone(t);
      for i := 0 to |shards|
        invariant total == TrackedCount(t[..i])
      {
        CountNext(t, i);
        shards[i].ViewSize();
        total := total + |shards[i].perIp|;
      }
      assert t[..|shards|] == t;
      assert TrackedIps(t) == set shard <- shards, ip <- shard.perIp :: ip by { ShownIps(t); }
      TrackedStateIsBounded(cfg, hash, run, |run.packets|);
    }
  }

  /** In all calls so far, the cap has forced no sweep to drop a record. */
  ghost predicate UnforcedSoFar(tracker: FlowTracker)
    requires tracker.Valid()
    reads tracker, tracker.Repr
  {
    Unforced(tracker.cfg, tracker.hash, tracker.run)
  }

  /** What any sequence of calls has raised is what the solo detectors raise on its packets. */
  lemma TrackerIsSoloRun(tracker: FlowTracker)
    requires tracker.Valid() && UnforcedSoFar(tracker)
    requires Chronological(tracker.run.packets) && TtlCoversRules(tracker.cfg)
    ensures tracker.run.alerts == SoloRun(tracker.cfg, tracker.run.packets)
  {
    hide SoloAlerts, TrackerStep, Chronological, UnforcedAt, TtlCoversRules;
    EvictionAndShardingInvisible(tracker.cfg, tracker.hash, tracker.run);
  }

  /** So each source's alert stream is that of a detector which saw only that source and never evicted. */
  lemma TrackerIsSolo(tracker: FlowTracker, ip: Ip)
    requires tracker.Valid() && UnforcedSoFar(tracker)
    requires Chronological(tracker.run.packets) && TtlCoversRules(tracker.cfg)
    ensures AlertStream(tracker.run, |tracker.run.packets|, ip) == NaiveStream(tracker.cfg, Of(tracker.run.packets, ip))
  {
    EachSourceIsSolo(tracker.cfg, tracker.hash, tracker.run, ip);
  }

  /** The loops of each of its shards have done amortised constant work: at most two pops an observation, and
      two passes over a cap and an interval's worth of records for each sweep interval completed. */
  lemma ShardWorkIsBounded(tracker: FlowTracker, i: nat)
    requires tracker.Valid() && i < |tracker.shards|
    ensures var run := tracker.shards[i].history;
            var n := |run.packets|;
            && |run.work| == n && TotalPops(run.work) <= 2 * n
            && var cap := AtLeastOne(tracker.cfg.maxTrackedIpsPerShard);
               var interval := AtLeastOne(tracker.cfg.sweepIntervalPackets);
               TotalSweepSteps(run.work) <= n / interval * (2 * (cap + interval))
  {
    hide IsRun, AtLeastOne, TotalPops, TotalSweepSteps, WorkedStep, Shard.Consistent, Shard.View;
    var run := tracker.shards[i].history;
    WorkIsAmortisedConstant(tracker.cfg, run, |run.packets|);
    assert run.work[..|run.packets|] == run.work;
  }

  method NewShards(ghost cfg: Config, n: nat) returns (shards: seq<Shard>, ghost owned: set<object>)
    ensures |shards| == n && fresh(owned)
    ensures forall i | 0 <= i < n :: shards[i] in owned && shards[i].Repr <= owned && shards[i].cfg == cfg
    ensures forall i | 0 <= i < n :: shards[i].Valid() && shards[i].View() == ShardState(map[], 0)
    ensures forall i, j | 0 <= i < n && 0 <= j < n && i != j :: shards[i].Repr !! shards[j].Repr
  {
    hide Shard.Valid, Shard.Consistent, Shard.View;
    shards, owned := [], {};
    for k := 0 to n
      invariant |shards| == k && fresh(owned)
      invariant forall i | 0 <= i < k :: shards[i] in owned && shards[i].Repr <= owned && shards[i].cfg == cfg
      invariant forall i | 0 <= i < k :: shards[i].Valid() && shards[i].View() == ShardState(map[], 0)
      invariant forall i, j | 0 <= i < k && 0 <= j < k && i != j :: shards[i].Repr !! shards[j].Repr
    {
      var shard := new Shard(cfg);
      shards, owned := shards + [shard], owned + {shard} + shard.Repr;
    }
  }

  lemma CountNone(t: Tracker)
    ensures TrackedCount(t[..0]) == 0
  {}

  lemma CountNext(t: Tracker, i: nat)
    requires i < |t|
    ensures TrackedCount(t[..i + 1]) == TrackedCount(t[..i]) + |t[i].perIp|
  {
    assert t[..i + 1][..i] == t[..i];
  }

  lemma ShardStepIsTrackerStep(cfg: Config, hash: Ip -> nat, t: Tracker, p: QueuedPacket, t': Tracker, alerts: seq<Alert>)
    requires p.meta.hasIp && t != [] && |t'| == |t|
    requires var i := ShardIndex(hash, |t|, p.meta.srcIp); t' == t[i := t'[i]] && ShardStep(cfg, t[i], p, t'[i], alerts)
    ensures TrackerStep(cfg, hash, t, p, t', alerts)
  {
    hide ShardStep;
  }

  lemma OtherTrafficIsIgnored(cfg: Config, hash: Ip -> nat, t: Tracker, p: QueuedPacket)
    requires !p.meta.hasIp
    ensures TrackerStep(cfg, hash, t, p, t, [])
  {}
}
