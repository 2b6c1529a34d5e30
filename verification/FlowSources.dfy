/** One source in a run of the sharded tracker: what is tracked of it is always the record of a suffix of its
    packets, and what a sweep forgot is bounded by how late packets may be. */
module FlowSources {
  import opened Packets
  import opened FlowModel
  import opened FlowHistory
  import opened FlowRules
  import opened FlowRuns
  import opened FlowLimits

  /** The records of the shard a source belongs to. */
  function Home(hash: Ip -> nat, t: Tracker, ip: Ip): map<Ip, IpRecord>
    requires t != []
  {
    t[ShardIndex(hash, |t|, ip)].perIp
  }

  /** One observation on a shard, as seen by one source of it. */
  ghost predicate SourceStep(cfg: Config, s: map<Ip, IpRecord>, p: QueuedPacket, s': map<Ip, IpRecord>, ip: Ip) {
    if p.meta.hasIp && p.meta.srcIp == ip then
      ip in s' && s'[ip] == ObserveRecord(cfg, RecordOf(s, ip), p).record
    else
      ip in s' ==> ip in s && s'[ip] == s[ip]
  }

  predicate IsIdle(cfg: Config, r: IpRecord, now: int) { r.lastSeenMs < now - cfg.idleTtlMs }

  lemma ShardStepAt(cfg: Config, s: ShardState, p: QueuedPacket, s': ShardState, alerts: seq<Alert>, ip: Ip)
    requires ShardStep(cfg, s, p, s', alerts) && p.meta.hasIp
    ensures SourceStep(cfg, s.perIp, p, s'.perIp, ip)
    ensures ip in s.perIp && ip !in s'.perIp && !CapForcesDrop(cfg, s, p) ==> IsIdle(cfg, s.perIp[ip], Ms(p))
    ensures ip in s.perIp && ip in s'.perIp && ip != p.meta.srcIp && SweepDue(cfg, s) ==> !IsIdle(cfg, s.perIp[ip], Ms(p))
  {
    hide ObserveRecord, Swept, NotIdle;
    var touched := Touched(cfg, s.perIp, p);
    if SweepDue(cfg, s) {
      SweptAt(cfg, touched, s'.perIp, Ms(p), p.meta.srcIp, ip);
    }
  }

  lemma SweptAt(cfg: Config, s: map<Ip, IpRecord>, s': map<Ip, IpRecord>, now: int, keep: Ip, ip: Ip)
    requires Swept(cfg, s, s', now, keep) && keep in s
    ensures ip in s' ==> ip in s && s'[ip] == s[ip]
    ensures keep in s'
    ensures ip in s && ip !in s' && |NotIdle(cfg, s, now, keep)| <= Max(cfg.maxTrackedIpsPerShard, 1) ==>
              IsIdle(cfg, s[ip], now)
    ensures ip in s' && ip != keep ==> !IsIdle(cfg, s[ip], now)
  {
    assert ip in s' ==> ip in NotIdle(cfg, s, now, keep);
    if |NotIdle(cfg, s, now, keep)| <= Max(cfg.maxTrackedIpsPerShard, 1) {
      UnforcedSweepKeeps(cfg, s, s', now, keep);
    }
  }

  /** One packet, as seen by any one source of the whole tracker. */
  lemma TrackerStepAt(cfg: Config, hash: Ip -> nat, t: Tracker, p: QueuedPacket, t': Tracker, alerts: seq<Alert>, ip: Ip)
    requires t != [] && TrackerStep(cfg, hash, t, p, t', alerts)
    ensures |t'| == |t| && SourceStep(cfg, Home(hash, t, ip), p, Home(hash, t', ip), ip)
    ensures ip in Home(hash, t, ip) && ip !in Home(hash, t', ip) && UnforcedAt(cfg, hash, t, p) ==>
              p.meta.hasIp && IsIdle(cfg, Home(hash, t, ip)[ip], Ms(p))
    ensures p.meta.hasIp && p.meta.srcIp == ip ==> alerts == ObserveRecord(cfg, RecordOf(Home(hash, t, ip), ip), p).alerts
  {
    hide ObserveRecord, Swept, CapForcesDrop, IsIdle;
    if p.meta.hasIp {
      var mine, i := ShardIndex(hash, |t|, p.meta.srcIp), ShardIndex(hash, |t|, ip);
      if i == mine {
        ShardStepAt(cfg, t[i], p, t'[i], alerts, ip);
      }
    }
  }

  // --- how late packets may be ---

  /** No IP packet is more than `late` milliseconds older than one that came before it. */
  ghost predicate LateBy(log: History, late: int) {
    forall i, j | 0 <= i <= j < |log| && log[i].meta.hasIp && log[j].meta.hasIp :: Ms(log[i]) - late <= Ms(log[j])
  }

  /** The last packet of a source is at most that much older than any of its packets. */
  lemma {:induction false} LastIsRecent(log: History, late: int, ip: Ip)
    requires LateBy(log, late)
    ensures var h := Of(log, ip); h != [] ==> forall q <- h :: Ms(q) - late <= Ms(h[|h| - 1])
  {
    hide Ms;
    if log != [] {
      var front, p := log[..|log| - 1], log[|log| - 1];
      if p.meta.hasIp && p.meta.srcIp == ip {
        OfMembers(front, ip);
        forall q <- Of(front, ip) ensures Ms(q) - late <= Ms(p) {
          var i :| 0 <= i < |front| && front[i] == q;
          assert log[i] == q;
        }
      } else {
        LastIsRecent(front, late, ip);
      }
    }
  }

  // --- what is tracked is the record of a suffix ---

  /** The record a tracker keeps of a source is that of its packets from the `k`-th on, and everything before
      is older than `bound` if there is one. */
  ghost predicate TracksFrom(cfg: Config, s: map<Ip, IpRecord>, ip: Ip, h: History, k: nat, bound: Option<int>) {
    && k <= |h|
    && (ip in s <==> k < |h|)
    && RecordOf(s, ip) == RecordAfter(cfg, h[k..])
    && (bound.Some? ==> forall i | 0 <= i < k :: Ms(h[i]) < bound.value)
  }

  lemma RecordAfterStep(cfg: Config, h: History, k: nat, p: QueuedPacket)
    requires k <= |h|
    ensures RecordAfter(cfg, (h + [p])[k..]) == ObserveRecord(cfg, RecordAfter(cfg, h[k..]), p).record
  {
    hide ObserveRecord;
    assert (h + [p])[k..] == h[k..] + [p];
    assert (h[k..] + [p])[..|h[k..]|] == h[k..];
  }

  lemma LastSeenIsLast(cfg: Config, h: History)
    requires h != []
    ensures RecordAfter(cfg, h).lastSeenMs == Ms(h[|h| - 1])
  {
    ObservedAt(cfg, RecordAfter(cfg, h[..|h| - 1]), h[|h| - 1]);
  }

  lemma ObservedAt(cfg: Config, r: IpRecord, p: QueuedPacket)
    ensures ObserveRecord(cfg, r, p).record.lastSeenMs == Ms(p)
  {}

  /** One packet moves the suffix: it grows, stays, or restarts behind everything when a sweep forgets it. */
  lemma TracksStep(cfg: Config, s: map<Ip, IpRecord>, p: QueuedPacket, s': map<Ip, IpRecord>, ip: Ip, h: History, h': History,
                   k: nat, bound: Option<int>) returns (k': nat)
    requires TracksFrom(cfg, s, ip, h, k, bound) && SourceStep(cfg, s, p, s', ip)
    requires h' == if p.meta.hasIp && p.meta.srcIp == ip then h + [p] else h
    requires bound.Some? && ip in s && ip !in s' ==> forall q <- h :: Ms(q) < bound.value
    ensures TracksFrom(cfg, s', ip, h', k', bound)
  {
    hide ObserveRecord, Ms;
    if p.meta.hasIp && p.meta.srcIp == ip {
      k' := k;
      RecordAfterStep(cfg, h, k, p);
      assert forall i | 0 <= i < k :: h'[i] == h[i];
    } else if ip in s' || ip !in s {
      k' := k;
    } else {
      k' := |h|;
      assert h[|h|..] == [];
    }
  }

  /** In every state of every run, whatever the order of timestamps, each tracked source is answered by the
      record of a suffix of its packets; with packets at most `late` out of order and no forced drops, what
      precedes the suffix is older than the latest time less the time-to-live, plus the lateness. */
  lemma {:induction false} TrackedIsSuffix(cfg: Config, hash: Ip -> nat, run: Run, n: nat, ip: Ip, late: int, latest: int)
    returns (k: nat)
    requires IsRun(cfg, hash, run) && n <= |run.packets|
    requires forall p <- run.packets[..n] :: p.meta.hasIp ==> Ms(p) <= latest
    ensures |run.states[n]| == ShardCount(cfg)
    ensures TracksFrom(cfg, Home(hash, run.states[n], ip), ip, Of(run.packets[..n], ip), k, None)
    ensures LateBy(run.packets, late) && Unforced(cfg, hash, run) ==>
              TracksFrom(cfg, Home(hash, run.states[n], ip), ip, Of(run.packets[..n], ip), k,
                         Some(latest - cfg.idleTtlMs + late))
  {
    hide TracksFrom, TrackerStep, UnforcedAt, LateBy, SourceStep, IsIdle, Ms, Of;
    if n == 0 {
      k := 0;
      NothingTracked(cfg, hash, ip, run.packets[..0], None);
      NothingTracked(cfg, hash, ip, run.packets[..0], Some(latest - cfg.idleTtlMs + late));
    } else {
      var log, p, t, t' := run.packets[..n - 1], run.packets[n - 1], run.states[n - 1], run.states[n];
      assert run.packets[..n] == log + [p];
      assert forall q <- log :: q in run.packets[..n];
      var before := TrackedIsSuffix(cfg, hash, run, n - 1, ip, late, latest);
      OfStep(log, p, ip);
      TrackerStepAt(cfg, hash, t, p, t', run.alerts[n - 1], ip);
      var bound := if LateBy(run.packets, late) && Unforced(cfg, hash, run) then Some(latest - cfg.idleTtlMs + late) else None;
      if bound.Some? && ip in Home(hash, t, ip) && ip !in Home(hash, t', ip) {
        LateByPrefix(run.packets, late, n - 1);
        assert p in run.packets[..n];
        IdleIsOld(cfg, Home(hash, t, ip), ip, log, before, bound, late, Ms(p));
      }
      k := TracksStep(cfg, Home(hash, t, ip), p, Home(hash, t', ip), ip, Of(log, ip), Of(log + [p], ip), before, bound);
      WithoutBound(cfg, Home(hash, t', ip), ip, Of(log + [p], ip), k, bound);
    }
  }

  lemma WithoutBound(cfg: Config, s: map<Ip, IpRecord>, ip: Ip, h: History, k: nat, bound: Option<int>)
    requires TracksFrom(cfg, s, ip, h, k, bound)
    ensures TracksFrom(cfg, s, ip, h, k, None)
  {}

  lemma NothingTracked(cfg: Config, hash: Ip -> nat, ip: Ip, log: History, bound: Option<int>)
    requires log == []
    ensures TracksFrom(cfg, Home(hash, InitTracker(cfg), ip), ip, Of(log, ip), 0, bound)
  {}

  lemma LateByPrefix(log: History, late: int, n: nat)
    requires LateBy(log, late) && n <= |log|
    ensures LateBy(log[..n], late)
  {}

  /** Whatever an idle source sent is older than the sweep's time less the time-to-live, plus the lateness. */
  lemma IdleIsOld(cfg: Config, s: map<Ip, IpRecord>, ip: Ip, log: History, k: nat, bound: Option<int>, late: int, now: int)
    requires TracksFrom(cfg, s, ip, Of(log, ip), k, bound) && LateBy(log, late)
    requires ip in s && IsIdle(cfg, s[ip], now)
    ensures forall q <- Of(log, ip) :: Ms(q) < now - cfg.idleTtlMs + late
  {
    hide LateBy, Ms, RecordAfter;
    var h := Of(log, ip);
    LastIsRecent(log, late, ip);
    LastSeenIsLast(cfg, h[k..]);
  }

  // --- a condition on the packets alone under which no drop is forced ---

  lemma NotIdleIsActive(cfg: Config, hash: Ip -> nat, run: Run, n: nat)
    requires IsRun(cfg, hash, run) && n < |run.packets| && run.packets[n].meta.hasIp
    ensures |run.states[n]| == ShardCount(cfg)
    ensures var p := run.packets[n];
            var shard := ShardIndex(hash, |run.states[n]|, p.meta.srcIp);
            NotIdle(cfg, Touched(cfg, run.states[n][shard].perIp, p), Ms(p), p.meta.srcIp) <=
            ActiveIps(hash, ShardCount(cfg), shard, run.packets[..n + 1], Ms(p) - cfg.idleTtlMs) + {p.meta.srcIp}
  {
    hide ObserveRecord, TrackerStep, Ms, Of;
    var p, t, log := run.packets[n], run.states[n], run.packets[..n];
    var latest := UpperBound(log);
    var _ := TrackedIsSuffix(cfg, hash, run, n, p.meta.srcIp, 0, latest);
    RunBounded(cfg, hash, run, n);
    var shard := ShardIndex(hash, |t|, p.meta.srcIp);
    forall ip <- NotIdle(cfg, Touched(cfg, t[shard].perIp, p), Ms(p), p.meta.srcIp) | ip != p.meta.srcIp
      ensures ip in ActiveIps(hash, ShardCount(cfg), shard, run.packets[..n + 1], Ms(p) - cfg.idleTtlMs)
    {
      var k := TrackedIsSuffix(cfg, hash, run, n, ip, 0, latest);
      var h := Of(log, ip);
      LastSeenIsLast(cfg, h[k..]);
      OfMembers(log, ip);
      assert h[|h| - 1] in h;
      assert h[|h| - 1] in run.packets[..n + 1];
    }
  }

  lemma {:induction false} UpperBound(log: History) returns (latest: int)
    ensures forall p <- log :: Ms(p) <= latest
  {
    latest := 0;
    if log != [] {
      latest := UpperBound(log[..|log| - 1]);
      latest := Max(latest, Ms(log[|log| - 1]));
      assert log == log[..|log| - 1] + [log[|log| - 1]];
    }
  }

  /** If the sources active within the time-to-live always fit, no drop is ever forced. */
  lemma CapSufficesIsUnforced(cfg: Config, hash: Ip -> nat, run: Run)
    requires IsRun(cfg, hash, run) && CapSuffices(cfg, hash, run.packets)
    ensures Unforced(cfg, hash, run)
  {
    hide TrackerStep, NotIdle, ActiveIps, Touched, Ms;
    forall n | 0 <= n < |run.packets| ensures UnforcedAt(cfg, hash, run.states[n], run.packets[n]) {
      var p := run.packets[n];
      if p.meta.hasIp {
        assert CapSufficesAt(cfg, hash, run.packets[..n + 1], p);
        NotIdleIsActive(cfg, hash, run, n);
        var shard := ShardIndex(hash, ShardCount(cfg), p.meta.srcIp);
        SubsetCardinality(NotIdle(cfg, Touched(cfg, run.states[n][shard].perIp, p), Ms(p), p.meta.srcIp),
                          ActiveIps(hash, ShardCount(cfg), shard, run.packets[..n + 1], Ms(p) - cfg.idleTtlMs)
                          + {p.meta.srcIp});
      }
    }
  }

  /** The same whole-run theorem from conditions on the configuration and the packets alone. */
  lemma InvisibleWhenCapSuffices(cfg: Config, hash: Ip -> nat, run: Run)
    requires IsRun(cfg, hash, run)
    requires Chronological(run.packets) && TtlCoversRules(cfg) && CapSuffices(cfg, hash, run.packets)
    ensures Invisible(cfg, run)
  {
    CapSufficesIsUnforced(cfg, hash, run);
    hide IsRun, CapSuffices, Chronological, TtlCoversRules, Unforced, Invisible;
    EvictionAndShardingInvisible(cfg, hash, run);
  }

  // --- every sequence of packets has a run ---

  lemma SubsetOfSize(s: set<Ip>, keep: Ip, size: nat) returns (part: set<Ip>)
    requires keep in s && 1 <= size <= |s|
    ensures part <= s && keep in part && |part| == size
  {
    part := {keep};
    while |part| < size
      invariant part <= s && keep in part && |part| <= size
      decreases size - |part|
    {
      assert |s - part| == |s| - |part|;
      var ip :| ip in s - part;
      part := part + {ip};
    }
  }

  lemma SweepExists(cfg: Config, before: map<Ip, IpRecord>, now: int, keep: Ip) returns (after: map<Ip, IpRecord>)
    requires keep in before
    ensures Swept(cfg, before, after, now, keep)
  {
    var alive := NotIdle(cfg, before, now, keep);
    assert keep in alive;
    var size := if |alive| <= cfg.maxTrackedIpsPerShard then |alive| else Max(cfg.maxTrackedIpsPerShard, 1);
    var kept := SubsetOfSize(alive, keep, size);
    assert |alive - kept| == |alive| - |kept|;
    after := map ip | ip in kept :: before[ip];
    assert after.Keys == kept && |after| == |after.Keys|;
  }

  lemma StepExists(cfg: Config, hash: Ip -> nat, t: Tracker, p: QueuedPacket) returns (t': Tracker, alerts: seq<Alert>)
    ensures TrackerStep(cfg, hash, t, p, t', alerts)
  {
    hide ObserveRecord, Swept;
    t', alerts := t, [];
    if p.meta.hasIp && t != [] {
      var i := ShardIndex(hash, |t|, p.meta.srcIp);
      var touched := Touched(cfg, t[i].perIp, p);
      alerts := ObserveRecord(cfg, RecordOf(t[i].perIp, p.meta.srcIp), p).alerts;
      if SweepDue(cfg, t[i]) {
        var after := SweepExists(cfg, touched, Ms(p), p.meta.srcIp);
        t' := t[i := ShardState(after, 0)];
      } else {
        t' := t[i := ShardState(touched, t[i].observationsSinceSweep + 1)];
      }
    }
  }

  /** The tracker never gets stuck: any sequence of packets has a run. */
  lemma {:induction false} RunExists(cfg: Config, hash: Ip -> nat, log: History) returns (run: Run)
    ensures IsRun(cfg, hash, run) && run.packets == log
  {
    hide TrackerStep;
    if log == [] {
      run := Run([], [InitTracker(cfg)], []);
    } else {
      var front := RunExists(cfg, hash, log[..|log| - 1]);
      var t', alerts := StepExists(cfg, hash, front.states[|front.packets|], log[|log| - 1]);
      run := Run(log, front.states + [t'], front.alerts + [alerts]);
      assert run.packets == front.packets + [log[|log| - 1]];
    }
  }
}
