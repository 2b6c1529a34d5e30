/** Whole runs of the sharded, evicting tracker. */
module FlowRuns {
  import opened Packets
  import opened FlowModel
  import opened FlowHistory
  import opened FlowRules

  /** The packets of one source, in arrival order. */
  function Of(log: History, ip: Ip): History {
    if log == [] then []
    else
      var p := log[|log| - 1];
      Of(log[..|log| - 1], ip) + if p.meta.hasIp && p.meta.srcIp == ip then [p] else []
  }

  /** What a detector that never evicts, fed only the last packet's source, raises at that packet. */
  function SoloAlerts(cfg: Config, log: History): seq<Alert>
    requires log != []
  {
    var p := log[|log| - 1];
    if p.meta.hasIp then
      assert Of(log, p.meta.srcIp) != [];
      NaiveAlerts(cfg, Of(log, p.meta.srcIp))
    else []
  }

  datatype Run = Run(packets: History, states: seq<Tracker>, alerts: seq<seq<Alert>>)

  ghost predicate IsRun(cfg: Config, hash: Ip -> nat, run: Run) {
    && |run.states| == |run.packets| + 1
    && |run.alerts| == |run.packets|
    && run.states[0] == InitTracker(cfg)
    && forall i | 0 <= i < |run.packets| ::
         TrackerStep(cfg, hash, run.states[i], run.packets[i], run.states[i + 1], run.alerts[i])
  }

  /** A run and one more step. */
  function Extended(run: Run, p: QueuedPacket, t: Tracker, alerts: seq<Alert>): Run {
    Run(run.packets + [p], run.states + [t], run.alerts + [alerts])
  }

  lemma ExtendedIsRun(cfg: Config, hash: Ip -> nat, run: Run, p: QueuedPacket, t: Tracker, alerts: seq<Alert>)
    requires IsRun(cfg, hash, run)
    requires TrackerStep(cfg, hash, run.states[|run.packets|], p, t, alerts)
    ensures IsRun(cfg, hash, Extended(run, p, t, alerts))
  {
    hide TrackerStep;
  }

  /** IP packets arrive with non-decreasing timestamps. */
  ghost predicate Chronological(log: History) {
    forall i, j | 0 <= i <= j < |log| && log[i].meta.hasIp && log[j].meta.hasIp :: Ms(log[i]) <= Ms(log[j])
  }

  /** Timestamps as the capture stamps them: microseconds in range, and in order. */
  ghost predicate StampedInOrder(log: History) {
    && (forall p <- log :: 0 <= p.meta.timestamp.usec < 1_000_000)
    && forall i, j | 0 <= i <= j < |log| :: NotAfter(log[i].meta.timestamp, log[j].meta.timestamp)
  }

  lemma StampedIsChronological(log: History)
    requires StampedInOrder(log)
    ensures Chronological(log)
  {
    forall i, j | 0 <= i <= j < |log| ensures Ms(log[i]) <= Ms(log[j]) {
      assert log[i] in log && log[j] in log;
      MsKeepsOrder(log[i].meta.timestamp, log[j].meta.timestamp);
    }
  }

  /** Whether a sweep ending this observation has to drop a record that is not idle. */
  predicate CapForcesDrop(cfg: Config, s: ShardState, p: QueuedPacket) {
    && SweepDue(cfg, s)
    && |NotIdle(cfg, Touched(cfg, s.perIp, p), Ms(p), p.meta.srcIp)| > Max(cfg.maxTrackedIpsPerShard, 1)
  }

  predicate UnforcedAt(cfg: Config, hash: Ip -> nat, t: Tracker, p: QueuedPacket) {
    p.meta.hasIp && t != [] ==> !CapForcesDrop(cfg, t[ShardIndex(hash, |t|, p.meta.srcIp)], p)
  }

  /** The cap never forces a drop. */
  ghost predicate Unforced(cfg: Config, hash: Ip -> nat, run: Run)
    requires |run.states| > |run.packets|
  {
    forall n | 0 <= n < |run.packets| :: UnforcedAt(cfg, hash, run.states[n], run.packets[n])
  }

  /** Sources of one shard with a packet at or after `cutoff`. */
  function ActiveIps(hash: Ip -> nat, shards: nat, shard: nat, log: History, cutoff: int): set<Ip>
    requires shards > 0
  {
    set p <- log | p.meta.hasIp && ShardIndex(hash, shards, p.meta.srcIp) == shard && Ms(p) >= cutoff :: p.meta.srcIp
  }

  /** A condition on the packets alone: at every one, the sources of its shard active within the idle
      time-to-live fit under the cap. */
  ghost predicate CapSuffices(cfg: Config, hash: Ip -> nat, log: History) {
    forall n | 0 <= n < |log| && log[n].meta.hasIp :: CapSufficesAt(cfg, hash, log[..n + 1], log[n])
  }

  ghost predicate CapSufficesAt(cfg: Config, hash: Ip -> nat, log: History, p: QueuedPacket) {
    var shards := ShardCount(cfg);
    |ActiveIps(hash, shards, ShardIndex(hash, shards, p.meta.srcIp), log, Ms(p) - cfg.idleTtlMs) + {p.meta.srcIp}|
      <= Max(cfg.maxTrackedIpsPerShard, 1)
  }

  // --- the invariant of a run ---

  /** A record's last-seen stamp is the time of its source's last packet, and no packet was later. */
  ghost predicate LastSeen(r: IpRecord, h: History) {
    && h != []
    && r.lastSeenMs == Ms(h[|h| - 1])
    && forall p <- h :: Ms(p) <= r.lastSeenMs
  }

  /** Every source of this shard is answered as its full history would answer. */
  ghost predicate ShardOk(cfg: Config, hash: Ip -> nat, shards: nat, shard: nat, s: map<Ip, IpRecord>, log: History, t: int)
    requires shards > 0
  {
    && (forall ip: Ip | ShardIndex(hash, shards, ip) == shard :: Follows(cfg, ip, RecordOf(s, ip), Of(log, ip), t))
    && (forall ip <- s :: ShardIndex(hash, shards, ip) == shard && LastSeen(s[ip], Of(log, ip)))
  }

  ghost predicate TrackerOk(cfg: Config, hash: Ip -> nat, t: Tracker, log: History, now: int) {
    && t != []
    && (forall p <- log :: p.meta.hasIp ==> Ms(p) <= now)
    && forall i | 0 <= i < |t| :: ShardOk(cfg, hash, |t|, i, t[i].perIp, log, now)
  }

  lemma OfStep(log: History, p: QueuedPacket, ip: Ip)
    ensures Of(log + [p], ip) == if p.meta.hasIp && p.meta.srcIp == ip then Of(log, ip) + [p] else Of(log, ip)
  {
    assert (log + [p])[..|log|] == log;
  }

  lemma {:induction false} OfMembers(log: History, ip: Ip)
    ensures forall p <- Of(log, ip) :: p in log && p.meta.hasIp && p.meta.srcIp == ip
  {
    if log != [] {
      OfMembers(log[..|log| - 1], ip);
    }
  }

  lemma InitOk(cfg: Config, hash: Ip -> nat, now: int)
    ensures TrackerOk(cfg, hash, InitTracker(cfg), [], now)
  {
    hide Follows;
    forall ip: Ip ensures Follows(cfg, ip, EMPTY_RECORD, [], now) {
      EmptyFollows(cfg, ip, now);
    }
  }

  /** A packet that is not this shard's leaves it in order. */
  lemma OtherShardOk(cfg: Config, hash: Ip -> nat, shards: nat, shard: nat, s: map<Ip, IpRecord>, log: History, p: QueuedPacket,
                     t: int, t': int)
    requires shards > 0 && ShardOk(cfg, hash, shards, shard, s, log, t) && t <= t'
    requires p.meta.hasIp ==> ShardIndex(hash, shards, p.meta.srcIp) != shard
    ensures ShardOk(cfg, hash, shards, shard, s, log + [p], t')
  {
    forall ip: Ip | ShardIndex(hash, shards, ip) == shard
      ensures Of(log + [p], ip) == Of(log, ip) && Follows(cfg, ip, RecordOf(s, ip), Of(log, ip), t')
    {
      OfStep(log, p, ip);
      FollowsLater(cfg, ip, RecordOf(s, ip), Of(log, ip), t, t');
    }
  }

  lemma ObservedLastSeen(cfg: Config, r: IpRecord, h: History, p: QueuedPacket)
    requires forall q <- h :: Ms(q) <= Ms(p)
    ensures LastSeen(ObserveRecord(cfg, r, p).record, h + [p])
  {}

  /** Observing a packet, as seen by one source. */
  lemma TouchedSource(cfg: Config, s: map<Ip, IpRecord>, log: History, p: QueuedPacket, t: int, ip: Ip)
    requires p.meta.hasIp && t <= Ms(p) && forall q <- log :: q.meta.hasIp ==> Ms(q) <= t
    requires Follows(cfg, ip, RecordOf(s, ip), Of(log, ip), t) && (ip in s ==> LastSeen(s[ip], Of(log, ip)))
    ensures var s' := Touched(cfg, s, p);
            && Follows(cfg, ip, RecordOf(s', ip), Of(log + [p], ip), Ms(p))
            && (ip in s' ==> LastSeen(s'[ip], Of(log + [p], ip)))
  {
    hide Follows, ObserveRecord, LastSeen, Ms, Of;
    OfStep(log, p, ip);
    if ip == p.meta.srcIp {
      ObservationFollows(cfg, ip, RecordOf(s, ip), Of(log, ip), p, t);
      OfMembers(log, ip);
      ObservedLastSeen(cfg, RecordOf(s, ip), Of(log, ip), p);
    } else {
      FollowsLater(cfg, ip, RecordOf(s, ip), Of(log, ip), t, Ms(p));
    }
  }

  /** Observing a packet updates its own source and no other. */
  lemma TouchedOk(cfg: Config, hash: Ip -> nat, shards: nat, shard: nat, s: map<Ip, IpRecord>, log: History,
                  p: QueuedPacket, t: int)
    requires shards > 0 && p.meta.hasIp && t <= Ms(p) && shard == ShardIndex(hash, shards, p.meta.srcIp)
    requires forall q <- log :: q.meta.hasIp ==> Ms(q) <= t
    requires ShardOk(cfg, hash, shards, shard, s, log, t)
    ensures ObserveRecord(cfg, RecordOf(s, p.meta.srcIp), p).alerts == NaiveAlerts(cfg, Of(log, p.meta.srcIp) + [p])
    ensures ShardOk(cfg, hash, shards, shard, Touched(cfg, s, p), log + [p], Ms(p))
  {
    hide Follows, NaiveAlerts, ObserveRecord, LastSeen, Ms, Of, RecordOf;
    ObservationFollows(cfg, p.meta.srcIp, RecordOf(s, p.meta.srcIp), Of(log, p.meta.srcIp), p, t);
    forall ip: Ip | ShardIndex(hash, shards, ip) == shard
      ensures Follows(cfg, ip, RecordOf(Touched(cfg, s, p), ip), Of(log + [p], ip), Ms(p))
      ensures ip in Touched(cfg, s, p) ==> LastSeen(Touched(cfg, s, p)[ip], Of(log + [p], ip))
    {
      TouchedSource(cfg, s, log, p, t, ip);
    }
  }

  /** A sweep that the cap does not force keeps exactly the records that are not idle, even at cap zero. */
  lemma UnforcedSweepKeeps(cfg: Config, s: map<Ip, IpRecord>, s': map<Ip, IpRecord>, now: int, keep: Ip)
    requires Swept(cfg, s, s', now, keep) && keep in s
    requires |NotIdle(cfg, s, now, keep)| <= Max(cfg.maxTrackedIpsPerShard, 1)
    ensures s'.Keys == NotIdle(cfg, s, now, keep) && forall ip <- s' :: s'[ip] == s[ip]
  {
    var alive := NotIdle(cfg, s, now, keep);
    assert keep in alive;
    if |alive| > cfg.maxTrackedIpsPerShard {
      assert |s'.Keys| == |s'|;
      assert |alive - s'.Keys| == |alive| - |s'.Keys|;
    }
  }

  /** Forgetting an idle source is invisible. */
  lemma IdleSourceFollows(cfg: Config, ip: Ip, r: IpRecord, h: History, now: int)
    requires LastSeen(r, h) && r.lastSeenMs < now - cfg.idleTtlMs && TtlCoversRules(cfg)
    requires Follows(cfg, ip, r, h, now)
    ensures Follows(cfg, ip, EMPTY_RECORD, h, now)
  {
    hide Ms, QueuesInOrder, OrderCovers, PortsTrack, PendingTracks, StampsAgree, NeverStamped, TtlCoversRules, InOrder;
    assert h[|h| - 1] in h;
    ForgottenFollows(cfg, ip, h, r.lastSeenMs, now);
  }

  /** A sweep that the cap does not force forgets only sources whose history no longer matters. */
  lemma SweptOk(cfg: Config, hash: Ip -> nat, shards: nat, shard: nat, s: map<Ip, IpRecord>, s': map<Ip, IpRecord>, log: History,
                now: int, keep: Ip)
    requires shards > 0 && ShardOk(cfg, hash, shards, shard, s, log, now)
    requires Swept(cfg, s, s', now, keep) && keep in s
    requires |NotIdle(cfg, s, now, keep)| <= Max(cfg.maxTrackedIpsPerShard, 1)
    requires TtlCoversRules(cfg)
    ensures ShardOk(cfg, hash, shards, shard, s', log, now)
  {
    UnforcedSweepKeeps(cfg, s, s', now, keep);
    hide Follows, Swept, LastSeen, TtlCoversRules;
    forall ip: Ip | ShardIndex(hash, shards, ip) == shard ensures Follows(cfg, ip, RecordOf(s', ip), Of(log, ip), now) {
      if ip in s && ip !in s' {
        assert ip !in NotIdle(cfg, s, now, keep);
        IdleSourceFollows(cfg, ip, s[ip], Of(log, ip), now);
      } else {
        assert RecordOf(s', ip) == RecordOf(s, ip);
      }
    }
  }

  lemma SubsetCardinality<T>(a: set<T>, b: set<T>)
    requires a <= b
    ensures |a| <= |b|
  {
    assert b == a + (b - a);
  }

  lemma ShardStepOk(cfg: Config, hash: Ip -> nat, shards: nat, s: ShardState, log: History, p: QueuedPacket,
                    s': ShardState, alerts: seq<Alert>, t: int)
    requires shards == ShardCount(cfg) && p.meta.hasIp && t <= Ms(p)
    requires forall q <- log :: q.meta.hasIp ==> Ms(q) <= t
    requires ShardOk(cfg, hash, shards, ShardIndex(hash, shards, p.meta.srcIp), s.perIp, log, t)
    requires ShardStep(cfg, s, p, s', alerts)
    requires TtlCoversRules(cfg) && !CapForcesDrop(cfg, s, p)
    ensures alerts == NaiveAlerts(cfg, Of(log, p.meta.srcIp) + [p])
    ensures ShardOk(cfg, hash, shards, ShardIndex(hash, shards, p.meta.srcIp), s'.perIp, log + [p], Ms(p))
  {
    hide Follows, ObserveRecord, NaiveAlerts, ShardOk, Swept, NotIdle;
    var me := p.meta.srcIp;
    var shard := ShardIndex(hash, shards, me);
    TouchedOk(cfg, hash, shards, shard, s.perIp, log, p, t);
    var touched := Touched(cfg, s.perIp, p);
    if SweepDue(cfg, s) {
      SweptOk(cfg, hash, shards, shard, touched, s'.perIp, log + [p], Ms(p), me);
    }
  }

  /** One step of the tracker raises the alerts of the solo detector and keeps the invariant. */
  lemma TrackerStepOk(cfg: Config, hash: Ip -> nat, t: Tracker, log: History, p: QueuedPacket, t': Tracker,
                      alerts: seq<Alert>, now: int, now': int)
    requires |t| == ShardCount(cfg) && TrackerOk(cfg, hash, t, log, now)
    requires TrackerStep(cfg, hash, t, p, t', alerts)
    requires now <= now' && (p.meta.hasIp ==> now' == Ms(p))
    requires TtlCoversRules(cfg) && UnforcedAt(cfg, hash, t, p)
    ensures alerts == SoloAlerts(cfg, log + [p])
    ensures |t'| == |t| && TrackerOk(cfg, hash, t', log + [p], now')
  {
    hide ShardOk, ShardStep, CapForcesDrop, NaiveAlerts;
    if p.meta.hasIp {
      var mine := ShardIndex(hash, |t|, p.meta.srcIp);
      ShardStepOk(cfg, hash, |t|, t[mine], log, p, t'[mine], alerts, now);
      OfStep(log, p, p.meta.srcIp);
    }
    forall i | 0 <= i < |t| ensures ShardOk(cfg, hash, |t'|, i, t'[i].perIp, log + [p], now') {
      if !p.meta.hasIp || i != ShardIndex(hash, |t|, p.meta.srcIp) {
        OtherShardOk(cfg, hash, |t|, i, t[i].perIp, log, p, now, now');
      }
    }
  }

  /** The time of the latest IP packet, or `start` before there is one. */
  function Latest(log: History, start: int): int {
    if log == [] then start
    else if log[|log| - 1].meta.hasIp then Ms(log[|log| - 1])
    else Latest(log[..|log| - 1], start)
  }

  lemma {:induction false} LatestIsPast(log: History, start: int, n: nat)
    requires n < |log| && Chronological(log) && log[n].meta.hasIp
    requires forall p <- log :: p.meta.hasIp ==> start <= Ms(p)
    ensures Latest(log[..n], start) <= Ms(log[n])
  {
    LatestIsSome(log[..n], start);
  }

  lemma {:induction false} LatestIsSome(log: History, start: int)
    ensures Latest(log, start) == start || exists p <- log :: p.meta.hasIp && Ms(p) == Latest(log, start)
  {
    if log != [] && !log[|log| - 1].meta.hasIp {
      LatestIsSome(log[..|log| - 1], start);
    }
  }

  function Earliest(log: History): int {
    if log == [] then 0
    else var rest := Earliest(log[1..]); if Ms(log[0]) < rest then Ms(log[0]) else rest
  }

  lemma {:induction false} EarliestBounds(log: History)
    ensures forall p <- log :: Earliest(log) <= Ms(p)
  {
    if log != [] {
      EarliestBounds(log[1..]);
      assert log == [log[0]] + log[1..];
    }
  }

  lemma {:induction false} RunOk(cfg: Config, hash: Ip -> nat, run: Run, n: nat)
    requires IsRun(cfg, hash, run) && n <= |run.packets|
    requires Chronological(run.packets) && TtlCoversRules(cfg) && Unforced(cfg, hash, run)
    ensures |run.states[n]| == ShardCount(cfg)
    ensures TrackerOk(cfg, hash, run.states[n], run.packets[..n], Latest(run.packets[..n], Earliest(run.packets)))
    ensures forall i | 0 <= i < n :: run.alerts[i] == SoloAlerts(cfg, run.packets[..i + 1])
  {
    hide TrackerOk, TrackerStep, UnforcedAt, SoloAlerts, Chronological, Earliest, TtlCoversRules;
    var start := Earliest(run.packets);
    if n == 0 {
      InitOk(cfg, hash, start);
      assert run.packets[..0] == [];
    } else {
      RunOk(cfg, hash, run, n - 1);
      var log, p := run.packets[..n - 1], run.packets[n - 1];
      assert run.packets[..n] == log + [p] && (log + [p])[..n - 1] == log;
      EarliestBounds(run.packets);
      if p.meta.hasIp {
        LatestIsPast(run.packets, start, n - 1);
        assert run.packets[..n - 1 + 1] == log + [p];
      }
      TrackerStepOk(cfg, hash, run.states[n - 1], log, p, run.states[n], run.alerts[n - 1],
                    Latest(log, start), Latest(log + [p], start));
    }
  }

  /** Every packet raises exactly what a detector that never evicts, fed only that packet's source, raises. */
  ghost predicate Invisible(cfg: Config, run: Run)
    requires |run.alerts| == |run.packets|
  {
    forall i | 0 <= i < |run.packets| :: run.alerts[i] == SoloAlerts(cfg, run.packets[..i + 1])
  }

  /** Idle eviction, sharding and sweeping are invisible, as long as the cap forces no drop. */
  lemma EvictionAndShardingInvisible(cfg: Config, hash: Ip -> nat, run: Run)
    requires IsRun(cfg, hash, run)
    requires Chronological(run.packets) && TtlCoversRules(cfg) && Unforced(cfg, hash, run)
    ensures Invisible(cfg, run)
  {
    RunOk(cfg, hash, run, |run.packets|);
  }

  /** What the solo detectors raise at each packet: a function of the packets alone. */
  function SoloRun(cfg: Config, log: History): (alerts: seq<seq<Alert>>)
    ensures |alerts| == |log| && forall i | 0 <= i < |log| :: alerts[i] == SoloAt(cfg, log, i)
  {
    seq(|log|, i requires 0 <= i < |log| => SoloAt(cfg, log, i))
  }

  function SoloAt(cfg: Config, log: History, i: nat): seq<Alert>
    requires i < |log|
  {
    SoloAlerts(cfg, log[..i + 1])
  }

  /** The alerts a run raised for one source among its first `n` packets. */
  function AlertStream(run: Run, n: nat, ip: Ip): seq<Alert>
    requires n <= |run.packets| == |run.alerts|
  {
    if n == 0 then []
    else
      var p := run.packets[n - 1];
      AlertStream(run, n - 1, ip) + if p.meta.hasIp && p.meta.srcIp == ip then run.alerts[n - 1] else []
  }

  /** Everything the never-evicting detector raises over one source's history. */
  function NaiveStream(cfg: Config, h: History): seq<Alert> {
    if h == [] then [] else NaiveStream(cfg, h[..|h| - 1]) + NaiveAlerts(cfg, h)
  }

  lemma SoloStep(cfg: Config, log: History, p: QueuedPacket)
    ensures SoloAlerts(cfg, log + [p]) == if p.meta.hasIp then NaiveAlerts(cfg, Of(log, p.meta.srcIp) + [p]) else []
  {
    hide NaiveAlerts, Of;
    OfStep(log, p, p.meta.srcIp);
  }

  lemma NaiveStreamStep(cfg: Config, h: History, p: QueuedPacket)
    ensures NaiveStream(cfg, h + [p]) == NaiveStream(cfg, h) + NaiveAlerts(cfg, h + [p])
  {
    hide NaiveAlerts;
    assert (h + [p])[..|h|] == h;
  }

  lemma {:induction false} StreamOf(cfg: Config, run: Run, n: nat, ip: Ip)
    requires n <= |run.packets| == |run.alerts| && Invisible(cfg, run)
    ensures AlertStream(run, n, ip) == NaiveStream(cfg, Of(run.packets[..n], ip))
  {
    hide NaiveAlerts, SoloAlerts, Of, NaiveStream;
    if n == 0 {
      EmptyStream(cfg, run.packets[..0], ip);
    } else {
      StreamOf(cfg, run, n - 1, ip);
      var log, p := run.packets[..n - 1], run.packets[n - 1];
      assert run.packets[..n - 1 + 1] == run.packets[..n] == log + [p];
      OfStep(log, p, ip);
      SoloStep(cfg, log, p);
      NaiveStreamStep(cfg, Of(log, ip), p);
    }
  }

  lemma EmptyStream(cfg: Config, log: History, ip: Ip)
    requires log == []
    ensures NaiveStream(cfg, Of(log, ip)) == []
  {}

  /** Each source's alert stream is that of a detector which saw only this source and never evicted. */
  lemma EachSourceIsSolo(cfg: Config, hash: Ip -> nat, run: Run, ip: Ip)
    requires IsRun(cfg, hash, run)
    requires Chronological(run.packets) && TtlCoversRules(cfg) && Unforced(cfg, hash, run)
    ensures AlertStream(run, |run.packets|, ip) == NaiveStream(cfg, Of(run.packets, ip))
  {
    EvictionAndShardingInvisible(cfg, hash, run);
    StreamOf(cfg, run, |run.packets|, ip);
    assert run.packets[..|run.packets|] == run.packets;
  }

  /** Configurations that differ at most in shard count, sweep interval, time-to-live and cap. */
  predicate SameRules(a: Config, b: Config) {
    a == b.(numShards := a.numShards, sweepIntervalPackets := a.sweepIntervalPackets,
            idleTtlMs := a.idleTtlMs, maxTrackedIpsPerShard := a.maxTrackedIpsPerShard)
  }

  lemma SameRulesFireAlike(a: Config, b: Config, p: QueuedPacket, ports: nat, syns: nat, last: Stamps)
    requires SameRules(a, b)
    ensures RuleAlerts(a, p, ports, syns, last) == RuleAlerts(b, p, ports, syns, last)
    ensures RuleStamps(a, p, ports, syns, last) == RuleStamps(b, p, ports, syns, last)
  {}

  lemma {:induction false} SameRulesSameStamps(a: Config, b: Config, h: History)
    requires SameRules(a, b)
    ensures NaiveStamps(a, h) == NaiveStamps(b, h)
    ensures h != [] ==> NaiveAlerts(a, h) == NaiveAlerts(b, h)
  {
    hide RuleAlerts, RuleStamps;
    if h != [] {
      SameRulesSameStamps(a, b, h[..|h| - 1]);
      SameRulesFireAlike(a, b, h[|h| - 1], PortCount(a, h), SynCount(a, h), NaiveStamps(a, h[..|h| - 1]));
    }
  }

  /** Two trackers with the same rules but any shard counts, hashes, sweep intervals, time-to-lives and
      caps raise the same alerts at every packet. */
  lemma TuningIsInvisible(a: Config, hashA: Ip -> nat, runA: Run, b: Config, hashB: Ip -> nat, runB: Run)
    requires IsRun(a, hashA, runA) && IsRun(b, hashB, runB) && runA.packets == runB.packets
    requires SameRules(a, b) && Chronological(runA.packets)
    requires TtlCoversRules(a) && Unforced(a, hashA, runA)
    requires TtlCoversRules(b) && Unforced(b, hashB, runB)
    ensures runA.alerts == runB.alerts
  {
    EvictionAndShardingInvisible(a, hashA, runA);
    EvictionAndShardingInvisible(b, hashB, runB);
    hide SoloAlerts, UnforcedAt, Chronological, TrackerStep;
    forall i | 0 <= i < |runA.packets| ensures runA.alerts[i] == runB.alerts[i] {
      SameRulesSolo(a, b, runA.packets[..i + 1]);
    }
  }

  lemma SameRulesSolo(a: Config, b: Config, log: History)
    requires SameRules(a, b) && log != []
    ensures SoloAlerts(a, log) == SoloAlerts(b, log)
  {
    hide SameRules, NaiveAlerts;
    SameRulesSameStamps(a, b, Of(log, log[|log| - 1].meta.srcIp));
  }
}
