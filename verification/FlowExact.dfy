/** Exactly when eviction is invisible: the time-to-live must cover both windows and the debounce. For every
    configuration that falls short, some run in order and within the cap gives the eviction away. */
module FlowExact {
  import opened Packets
  import opened FlowModel
  import opened FlowHistory
  import opened FlowRules
  import opened FlowRuns
  import opened FlowScenarios

  // --- scans: the i-th datagram goes to port i ---

  function Scan(ms: int, from: nat, n: nat): (h: History)
    requires from + n <= ALL_PORTS
    ensures |h| == n && forall i | 0 <= i < n :: h[i] == Datagram(ms, 1, from + i)
  {
    seq(n, i requires 0 <= i < n => Datagram(ms, 1, from + i))
  }

  ghost predicate IsScan(h: History) {
    forall i | 0 <= i < |h| :: IsConnectionAttempt(h[i]) && !IsTcp(h[i]) && h[i].meta.dstPort == i
  }

  /** No packet is more than `window` older than another. */
  ghost predicate Within(h: History, window: int) {
    forall p <- h, q <- h :: Ms(p) - window <= Ms(q)
  }

  lemma WithinFront(h: History, window: int)
    requires Within(h, window) && h != []
    ensures Within(h[..|h| - 1], window)
    ensures forall q <- h :: Ms(h[|h| - 1]) - window <= Ms(q)
  {
    assert h[|h| - 1] in h;
    assert forall p <- h[..|h| - 1] :: p in h;
  }

  lemma {:induction false} ScanPorts(h: History, cutoff: int)
    requires IsScan(h) && forall p <- h :: Ms(p) >= cutoff
    ensures |PortsProbed(h, cutoff)| == |h|
    ensures forall port <- PortsProbed(h, cutoff) :: port < |h|
  {
    hide IsConnectionAttempt, Ms;
    if h == [] {
      assert PortsProbed(h, cutoff) == {};
    } else {
      var n := |h| - 1;
      var front := h[..n];
      assert h[n] in h && forall p <- front :: p in h;
      ScanPorts(front, cutoff);
      ProbedStep(front, h[n], cutoff);
      assert h == front + [h[n]];
    }
  }

  lemma ProbedStep(h: History, p: QueuedPacket, cutoff: int)
    ensures PortsProbed(h + [p], cutoff) ==
            PortsProbed(h, cutoff) + if IsConnectionAttempt(p) && Ms(p) >= cutoff then {p.meta.dstPort} else {}
  {
    hide IsConnectionAttempt, Ms;
    var all := h + [p];
    assert all[|h|] == p;
    forall port | port in PortsProbed(h, cutoff) ensures port in PortsProbed(all, cutoff) {
      var i :| 0 <= i < |h| && IsConnectionAttempt(h[i]) && Ms(h[i]) >= cutoff && h[i].meta.dstPort == port;
      assert all[i] == h[i];
    }
  }

  lemma ScanCount(cfg: Config, h: History)
    requires IsScan(h) && h != [] && Within(h, cfg.portScanWindowMs)
    ensures PortCount(cfg, h) == |h|
  {
    hide Ms;
    WithinFront(h, cfg.portScanWindowMs);
    ScanPorts(h, Ms(h[|h| - 1]) - cfg.portScanWindowMs);
  }

  /** What a datagram makes the never-evicting detector raise. */
  lemma DatagramAlerts(cfg: Config, h: History)
    requires h != [] && IsConnectionAttempt(h[|h| - 1]) && !IsTcp(h[|h| - 1])
    ensures var p, last := h[|h| - 1], NaiveStamps(cfg, h[..|h| - 1]).portScan;
            var fires := PortCount(cfg, h) >= cfg.portScanDistinctPortThreshold && DebounceAllows(cfg, last, Ms(p));
            && NaiveAlerts(cfg, h) ==
               (if fires
                then [Alert(PortScan, p.meta.srcIp, p.meta.dstIp, 0, 0, DistinctPorts(PortCount(cfg, h), cfg.portScanWindowMs))]
                else [])
            && NaiveStamps(cfg, h).portScan == if fires then Some(Ms(p)) else last
  {
    hide PortCount, SynCount, Ms;
  }

  lemma {:induction false} ScanQuiet(cfg: Config, h: History)
    requires IsScan(h) && Within(h, cfg.portScanWindowMs) && |h| < cfg.portScanDistinctPortThreshold
    ensures NaiveStamps(cfg, h).portScan == None
  {
    hide NaiveStamps, Ms, PortCount, Within;
    if h == [] {
      NoStamps(cfg);
    } else {
      WithinFront(h, cfg.portScanWindowMs);
      ScanQuiet(cfg, h[..|h| - 1]);
      ScanCount(cfg, h);
      DatagramAlerts(cfg, h);
    }
  }

  lemma NoStamps(cfg: Config)
    ensures NaiveStamps(cfg, []) == Stamps(None, None)
  {}

  /** The threshold's worth of probes fires, and so does any probe at a threshold of zero. */
  lemma ScanFires(cfg: Config, h: History)
    requires IsScan(h) && |h| == Max(cfg.portScanDistinctPortThreshold, 1)
    requires cfg.portScanDistinctPortThreshold == 0 || Within(h, cfg.portScanWindowMs)
    ensures NaiveAlerts(cfg, h) != [] && NaiveStamps(cfg, h).portScan == Some(Ms(h[|h| - 1]))
  {
    hide NaiveStamps, NaiveAlerts, Ms, PortCount, Within;
    if |h| == 1 {
      NoStamps(cfg);
      assert h[..0] == [];
    } else {
      WithinFront(h, cfg.portScanWindowMs);
      ScanQuiet(cfg, h[..|h| - 1]);
    }
    if cfg.portScanDistinctPortThreshold > 0 {
      ScanCount(cfg, h);
    }
    DatagramAlerts(cfg, h);
  }

  lemma ScanIs(ms: int, from: nat, n: nat)
    requires from + n <= ALL_PORTS
    ensures FromOnly(Scan(ms, from, n), 1) && forall p <- Scan(ms, from, n) :: Ms(p) == ms
    ensures forall i | 0 <= i < n ::
              var p := Scan(ms, from, n)[i]; IsConnectionAttempt(p) && !IsTcp(p) && p.meta.dstPort == from + i
  {
    forall i | 0 <= i < n ensures
        var p := Scan(ms, from, n)[i]; IsConnectionAttempt(p) && !IsTcp(p) && p.meta.dstPort == from + i && Ms(p) == ms
    {
      DatagramIs(ms, 1, from + i);
    }
  }

  // --- floods: the i-th SYN opens the i-th connection ---

  function FloodKey(i: nat): FlowKey
    requires i < ALL_KEYS
  {
    FlowKey(1, i / 0x1_0000_0000, i / 0x1_0000 % 0x1_0000, i % 0x1_0000)
  }

  lemma KeysDiffer(i: nat)
    requires i < ALL_KEYS
    ensures KeyIndex(FloodKey(i)) == i
  {
    assert i / 0x1_0000 / 0x1_0000 == i / 0x1_0000_0000;
  }

  function Flood(ms: int, from: nat, n: nat): (h: History)
    requires from + n <= ALL_KEYS
    ensures |h| == n && forall i | 0 <= i < n :: h[i] == SynTo(ms, FloodKey(from + i))
  {
    seq(n, i requires 0 <= i < n => SynTo(ms, FloodKey(from + i)))
  }

  ghost predicate IsFlood(h: History) {
    forall i | 0 <= i < |h| :: IsSynOnly(h[i]) && KeyIndex(KeyOf(h[i])) == i
  }

  lemma {:induction false} FloodKeys(h: History, cutoff: int)
    requires IsFlood(h) && forall p <- h :: Ms(p) >= cutoff
    ensures |HalfOpen(h, cutoff)| == |h|
    ensures forall k <- HalfOpen(h, cutoff) :: KeyIndex(k) < |h|
  {
    hide IsHalfOpenAt, IsSynOnly, IsAck, KeyIndex, Ms;
    if h == [] {
      assert HalfOpen(h, cutoff) == {};
    } else {
      var n := |h| - 1;
      var front, p := h[..n], h[n];
      assert p in h && forall q <- front :: q in h;
      FloodKeys(front, cutoff);
      assert h == front + [p];
      SynIsNotAck(p);
      forall k ensures k in HalfOpen(h, cutoff) <==> k in HalfOpen(front, cutoff) + {KeyOf(p)} {
        HalfOpenStep(front, p, cutoff, k);
      }
      assert HalfOpen(h, cutoff) == HalfOpen(front, cutoff) + {KeyOf(p)};
    }
  }

  lemma SynIsNotAck(p: QueuedPacket)
    ensures !(IsSynOnly(p) && IsAck(p))
  {}

  lemma FloodCount(cfg: Config, h: History)
    requires IsFlood(h) && h != [] && Within(h, cfg.synFloodWindowMs)
    ensures SynCount(cfg, h) == |h|
  {
    hide Ms;
    WithinFront(h, cfg.synFloodWindowMs);
    FloodKeys(h, Ms(h[|h| - 1]) - cfg.synFloodWindowMs);
  }

  /** Whether a SYN-flood alert reporting `n` connections is among these. */
  ghost predicate ReportsSyns(cfg: Config, alerts: seq<Alert>, n: nat) {
    exists a <- alerts :: a.kind == SynFlood && a.detail == PendingSyns(n, cfg.synFloodWindowMs)
  }

  /** What a TCP packet makes the never-evicting detector report of half-open connections. */
  lemma SynReport(cfg: Config, h: History, n: nat)
    requires h != [] && IsTcp(h[|h| - 1])
    ensures var p, last := h[|h| - 1], NaiveStamps(cfg, h[..|h| - 1]).synFlood;
            var fires := SynCount(cfg, h) >= cfg.synFloodPendingThreshold && DebounceAllows(cfg, last, Ms(p));
            && (ReportsSyns(cfg, NaiveAlerts(cfg, h), n) <==> fires && n == SynCount(cfg, h))
            && NaiveStamps(cfg, h).synFlood == if fires then Some(Ms(p)) else last
  {
    hide PortCount, SynCount, Ms, NaiveStamps, PortRuleFires;
    var alerts := NaiveAlerts(cfg, h);
    var p, stamps := h[|h| - 1], NaiveStamps(cfg, h[..|h| - 1]);
    if SynRuleFires(cfg, p, SynCount(cfg, h), stamps.synFlood) {
      var a := alerts[|alerts| - 1];
      assert a in alerts && a.kind == SynFlood && a.detail == PendingSyns(SynCount(cfg, h), cfg.synFloodWindowMs);
    }
    StampsAt(cfg, h);
  }

  lemma StampsAt(cfg: Config, h: History)
    requires h != []
    ensures NaiveStamps(cfg, h) ==
            RuleStamps(cfg, h[|h| - 1], PortCount(cfg, h), SynCount(cfg, h), NaiveStamps(cfg, h[..|h| - 1]))
  {}

  lemma {:induction false} FloodQuiet(cfg: Config, h: History)
    requires IsFlood(h) && Within(h, cfg.synFloodWindowMs) && |h| < cfg.synFloodPendingThreshold
    ensures NaiveStamps(cfg, h).synFlood == None
  {
    hide NaiveStamps, NaiveAlerts, Ms, SynCount, Within;
    if h == [] {
      NoStamps(cfg);
    } else {
      WithinFront(h, cfg.synFloodWindowMs);
      FloodQuiet(cfg, h[..|h| - 1]);
      FloodCount(cfg, h);
      SynReport(cfg, h, 0);
    }
  }

  lemma FloodIs(ms: int, from: nat, n: nat)
    requires from + n <= ALL_KEYS
    ensures FromOnly(Flood(ms, from, n), 1) && forall p <- Flood(ms, from, n) :: Ms(p) == ms
    ensures forall i | 0 <= i < n ::
              var p := Flood(ms, from, n)[i]; IsSynOnly(p) && KeyIndex(KeyOf(p)) == from + i
  {
    hide KeyIndex;
    forall i | 0 <= i < n ensures
        var p := Flood(ms, from, n)[i]; IsSynOnly(p) && KeyIndex(KeyOf(p)) == from + i && Ms(p) == ms
    {
      SynIs(ms, FloodKey(from + i));
      KeysDiffer(from + i);
    }
  }

  // --- what the never-evicting detector notices across an interruption ---

  /** The later time: just past the time-to-live, and not before the first packets. */
  function AfterIdle(cfg: Config): int { Max(cfg.idleTtlMs + 1, 0) }

  /** A scan that straddles the interruption is one scan, all of it inside a window longer than the idle time. */
  lemma ScanAcross(cfg: Config, n: nat)
    requires 1 <= n <= ALL_PORTS && cfg.portScanWindowMs >= 0 && cfg.idleTtlMs < cfg.portScanWindowMs
    ensures var h := Scan(0, 0, n - 1) + Scan(AfterIdle(cfg), n - 1, 1);
            IsScan(h) && Within(h, cfg.portScanWindowMs)
  {
    hide Ms, IsConnectionAttempt;
    ScanIs(0, 0, n - 1);
    ScanIs(AfterIdle(cfg), n - 1, 1);
  }

  /** Forgetting a probe that is still in the window changes the port rule's answer to the next one. */
  lemma ForgottenProbes(cfg: Config, n: nat)
    requires cfg.portScanWindowMs >= 0 && cfg.portScanDistinctPortThreshold <= ALL_PORTS
    requires cfg.idleTtlMs < cfg.portScanWindowMs && n == Max(cfg.portScanDistinctPortThreshold, 2)
    ensures NaiveAlerts(cfg, Scan(0, 0, n - 1) + Scan(AfterIdle(cfg), n - 1, 1)) !=
            NaiveAlerts(cfg, Scan(AfterIdle(cfg), n - 1, 1))
  {
    hide NaiveAlerts, NaiveStamps, PortCount, Ms, IsConnectionAttempt, Within;
    var first, second := Scan(0, 0, n - 1), Scan(AfterIdle(cfg), n - 1, 1);
    var h := first + second;
    ScanAcross(cfg, n);
    ScanIs(AfterIdle(cfg), n - 1, 1);
    ScanCount(cfg, h);
    DatagramAlerts(cfg, h);
    hide IsScan;
    SingleProbe(cfg, second[0]);
    assert second == [second[0]] && second[..0] == [];
    DatagramAlerts(cfg, second);
    NoStamps(cfg);
    if cfg.portScanDistinctPortThreshold >= 2 {
      ScanFires(cfg, h);
    }
  }

  lemma SingleProbe(cfg: Config, p: QueuedPacket)
    requires IsConnectionAttempt(p) && cfg.portScanWindowMs >= 0
    ensures PortCount(cfg, [p]) == 1
  {
    hide Ms, IsConnectionAttempt;
    assert [] + [p] == [p];
    ProbedStep([], p, Ms(p) - cfg.portScanWindowMs);
    assert PortsProbed([], Ms(p) - cfg.portScanWindowMs) == {};
  }

  lemma FloodAcross(cfg: Config, n: nat)
    requires 1 <= n <= ALL_KEYS && cfg.synFloodWindowMs >= 0 && cfg.idleTtlMs < cfg.synFloodWindowMs
    ensures var first, second := Flood(0, 0, n - 1), Flood(AfterIdle(cfg), n - 1, 1);
            && IsFlood(first) && Within(first, cfg.synFloodWindowMs)
            && IsFlood(first + second) && Within(first + second, cfg.synFloodWindowMs)
            && IsSynOnly(second[0])
  {
    hide Ms, IsSynOnly, KeyIndex;
    FloodIs(0, 0, n - 1);
    FloodIs(AfterIdle(cfg), n - 1, 1);
  }

  /** Forgetting a half-open connection that is still in the window changes the SYN rule's answer. */
  lemma ForgottenSyns(cfg: Config, n: nat)
    requires cfg.synFloodWindowMs >= 0 && cfg.synFloodPendingThreshold <= ALL_KEYS
    requires cfg.idleTtlMs < cfg.synFloodWindowMs && n == Max(cfg.synFloodPendingThreshold, 2)
    ensures NaiveAlerts(cfg, Flood(0, 0, n - 1) + Flood(AfterIdle(cfg), n - 1, 1)) !=
            NaiveAlerts(cfg, Flood(AfterIdle(cfg), n - 1, 1))
  {
    hide NaiveAlerts, NaiveStamps, SynCount, Ms, IsSynOnly, ReportsSyns, IsFlood, Within;
    var first, second := Flood(0, 0, n - 1), Flood(AfterIdle(cfg), n - 1, 1);
    var h := first + second;
    FloodAcross(cfg, n);
    FloodCount(cfg, h);
    SingleSyn(cfg, second[0]);
    assert second == [second[0]] && second[..0] == [] && h[..n - 1] == first;
    NoStamps(cfg);
    SynIsTcp(second[0]);
    var reported := if cfg.synFloodPendingThreshold >= 2 then n else 1;
    if cfg.synFloodPendingThreshold >= 2 {
      FloodQuiet(cfg, first);
    }
    SynReport(cfg, h, reported);
    SynReport(cfg, second, reported);
  }

  lemma SynIsTcp(p: QueuedPacket)
    requires IsSynOnly(p)
    ensures IsTcp(p)
  {}

  lemma SingleSyn(cfg: Config, p: QueuedPacket)
    requires IsSynOnly(p) && cfg.synFloodWindowMs >= 0
    ensures SynCount(cfg, [p]) == 1
  {
    hide Ms, IsSynOnly;
    var cutoff := Ms(p) - cfg.synFloodWindowMs;
    assert IsHalfOpenAt([p], 0);
    assert HalfOpen([p], cutoff) == {KeyOf(p)};
  }

  /** Forgetting when a rule last alerted lets it alert again too soon. */
  lemma ForgottenStamp(cfg: Config, n: nat)
    requires PortRuleCanAlert(cfg) && AfterIdle(cfg) < cfg.alertDebounceMs
    requires n == Max(cfg.portScanDistinctPortThreshold, 1)
    ensures NaiveAlerts(cfg, Scan(0, 0, n) + Scan(AfterIdle(cfg), 0, n)) != NaiveAlerts(cfg, Scan(AfterIdle(cfg), 0, n))
  {
    hide NaiveAlerts, NaiveStamps, Ms, IsConnectionAttempt;
    var first, second := Scan(0, 0, n), Scan(AfterIdle(cfg), 0, n);
    ScanIs(0, 0, n);
    ScanIs(AfterIdle(cfg), 0, n);
    assert IsScan(first) && IsScan(second) && first[n - 1] in first;
    ScanFires(cfg, first);
    ScanFires(cfg, second);
    StampHolds(cfg, first, second, 0);
  }

  lemma {:induction false} StampHolds(cfg: Config, first: History, second: History, stamp: int)
    requires NaiveStamps(cfg, first).portScan == Some(stamp)
    requires forall p <- second :: IsConnectionAttempt(p) && !IsTcp(p) && Ms(p) - stamp < cfg.alertDebounceMs
    ensures NaiveStamps(cfg, first + second).portScan == Some(stamp)
    ensures second != [] ==> NaiveAlerts(cfg, first + second) == []
  {
    hide NaiveAlerts, NaiveStamps, Ms, IsConnectionAttempt, PortCount;
    if second == [] {
      assert first + second == first;
    } else {
      var h, m := first + second, |second| - 1;
      assert h[..|h| - 1] == first + second[..m] && h[|h| - 1] == second[m];
      StampHolds(cfg, first, second[..m], stamp);
      assert second[m] in second;
      DatagramAlerts(cfg, h);
    }
  }

  /** The same for the SYN rule. */
  lemma FloodFires(cfg: Config, h: History)
    requires IsFlood(h) && |h| == Max(cfg.synFloodPendingThreshold, 1)
    requires cfg.synFloodPendingThreshold == 0 || Within(h, cfg.synFloodWindowMs)
    ensures ReportsSyns(cfg, NaiveAlerts(cfg, h), SynCount(cfg, h))
    ensures NaiveStamps(cfg, h).synFlood == Some(Ms(h[|h| - 1]))
  {
    hide NaiveStamps, NaiveAlerts, Ms, SynCount, Within, ReportsSyns, IsSynOnly;
    if |h| == 1 {
      NoStamps(cfg);
      assert h[..0] == [];
    } else {
      WithinFront(h, cfg.synFloodWindowMs);
      FloodQuiet(cfg, h[..|h| - 1]);
    }
    if cfg.synFloodPendingThreshold > 0 {
      FloodCount(cfg, h);
    }
    SynIsTcp(h[|h| - 1]);
    SynReport(cfg, h, SynCount(cfg, h));
  }

  lemma {:induction false} SynStampHolds(cfg: Config, first: History, second: History, stamp: int, n: nat)
    requires NaiveStamps(cfg, first).synFlood == Some(stamp)
    requires forall p <- second :: IsTcp(p) && Ms(p) - stamp < cfg.alertDebounceMs
    ensures NaiveStamps(cfg, first + second).synFlood == Some(stamp)
    ensures second != [] ==> !ReportsSyns(cfg, NaiveAlerts(cfg, first + second), n)
  {
    hide NaiveAlerts, NaiveStamps, Ms, IsTcp, SynCount, ReportsSyns;
    if second == [] {
      assert first + second == first;
    } else {
      var h, m := first + second, |second| - 1;
      assert h[..|h| - 1] == first + second[..m] && h[|h| - 1] == second[m];
      SynStampHolds(cfg, first, second[..m], stamp, n);
      assert second[m] in second;
      SynReport(cfg, h, n);
    }
  }

  lemma FloodIsTcp(ms: int, n: nat)
    requires n <= ALL_KEYS
    ensures forall p <- Flood(ms, 0, n) :: IsTcp(p) && Ms(p) == ms
    ensures IsFlood(Flood(ms, 0, n))
  {
    hide IsSynOnly, IsTcp, Ms, KeyIndex;
    FloodIs(ms, 0, n);
    forall p <- Flood(ms, 0, n) ensures IsTcp(p) {
      SynIsTcp(p);
    }
  }

  lemma ForgottenSynStamp(cfg: Config, n: nat)
    requires SynRuleCanAlert(cfg) && AfterIdle(cfg) < cfg.alertDebounceMs
    requires n == Max(cfg.synFloodPendingThreshold, 1)
    ensures NaiveAlerts(cfg, Flood(0, 0, n) + Flood(AfterIdle(cfg), 0, n)) != NaiveAlerts(cfg, Flood(AfterIdle(cfg), 0, n))
  {
    hide NaiveAlerts, NaiveStamps, Ms, IsTcp, IsFlood, SynCount, ReportsSyns;
    var first, second := Flood(0, 0, n), Flood(AfterIdle(cfg), 0, n);
    FloodIsTcp(0, n);
    FloodIsTcp(AfterIdle(cfg), n);
    assert first[n - 1] in first;
    FloodFires(cfg, first);
    FloodFires(cfg, second);
    SynStampHolds(cfg, first, second, 0, SynCount(cfg, second));
  }

  // --- the exact condition ---

  /** The interruption whose forgotten part shows up, for whichever rule the time-to-live fails. */
  lemma VisibleInterruption(cfg: Config) returns (first: History, second: History)
    requires !TtlCoversRules(cfg)
    ensures first != [] && second != [] && FromOnly(first, 1) && FromOnly(second, 1)
    ensures (forall p <- first :: Ms(p) == 0) && forall p <- second :: Ms(p) == AfterIdle(cfg)
    ensures NaiveAlerts(cfg, first + second) != NaiveAlerts(cfg, second)
  {
    hide NaiveAlerts, Ms;
    var later := AfterIdle(cfg);
    if PortRuleCanAlert(cfg) && cfg.portScanWindowMs >= 0 && cfg.idleTtlMs < cfg.portScanWindowMs {
      var n := Max(cfg.portScanDistinctPortThreshold, 2);
      first, second := Scan(0, 0, n - 1), Scan(later, n - 1, 1);
      ScanIs(0, 0, n - 1);
      ScanIs(later, n - 1, 1);
      ForgottenProbes(cfg, n);
    } else if SynRuleCanAlert(cfg) && cfg.synFloodWindowMs >= 0 && cfg.idleTtlMs < cfg.synFloodWindowMs {
      var n := Max(cfg.synFloodPendingThreshold, 2);
      first, second := Flood(0, 0, n - 1), Flood(later, n - 1, 1);
      FloodIs(0, 0, n - 1);
      FloodIs(later, n - 1, 1);
      ForgottenSyns(cfg, n);
    } else if PortRuleCanAlert(cfg) {
      var n := Max(cfg.portScanDistinctPortThreshold, 1);
      first, second := Scan(0, 0, n), Scan(later, 0, n);
      ScanIs(0, 0, n);
      ScanIs(later, 0, n);
      ForgottenStamp(cfg, n);
    } else {
      var n := Max(cfg.synFloodPendingThreshold, 1);
      first, second := Flood(0, 0, n), Flood(later, 0, n);
      FloodIs(0, 0, n);
      FloodIs(later, 0, n);
      ForgottenSynStamp(cfg, n);
    }
  }

  lemma InterruptionInOrder(cfg: Config, first: History, other: QueuedPacket, second: History, ms: int, later: int)
    requires (forall p <- first :: Ms(p) == ms) && Ms(other) == later && ms <= later
    requires forall p <- second :: Ms(p) == later
    ensures Chronological(Interrupted(cfg, first, other, second)) && InOrder(second)
  {
    hide Ms;
    var log := Interrupted(cfg, first, other, second);
    forall i | 0 <= i < |log| ensures Ms(log[i]) == if i < |first| then ms else later {
      assert if i < |first| then log[i] in first else log[i] == other || log[i] in second;
    }
  }

  /** A time-to-live that falls short shows, in some run that is in order and forces no drop. */
  lemma ShortTtlIsVisible(cfg: Config) returns (run: Run)
    requires cfg.maxTrackedIpsPerShard >= 2 && !TtlCoversRules(cfg)
    ensures IsRun(cfg, Zero, run) && Chronological(run.packets) && Unforced(cfg, Zero, run) && !Invisible(cfg, run)
  {
    hide NaiveAlerts, IsRun, Unforced, Chronological, TtlCoversRules, SoloAlerts, Ms;
    var first, second := VisibleInterruption(cfg);
    var other := Datagram(AfterIdle(cfg), 2, 0);
    DatagramIs(AfterIdle(cfg), 2, 0);
    assert first[|first| - 1] in first;
    InterruptionInOrder(cfg, first, other, second, 0, AfterIdle(cfg));
    run := InterruptionRuns(cfg, first, other, second);
    assert |run.alerts| == |run.packets| by { RunShape(cfg, run); }
    InterruptedAlerts(cfg, run, first, other, second);
    InterruptedSolo(cfg, first, other, second);
    assert run.packets[..|run.packets| - 1 + 1] == run.packets;
  }

  lemma RunShape(cfg: Config, run: Run)
    requires IsRun(cfg, Zero, run)
    ensures |run.alerts| == |run.packets| && |run.states| == |run.packets| + 1
  {}

  /** The exact condition: every run in order that forces no drop is invisible if and only if, for each rule
      that can alert at all, the time-to-live covers its window and its debounce. */
  lemma InvisibleIffTtlCovers(cfg: Config)
    requires cfg.maxTrackedIpsPerShard >= 2
    ensures TtlCoversRules(cfg) <==>
            forall hash: Ip -> nat, run: Run |
              IsRun(cfg, hash, run) && Chronological(run.packets) && Unforced(cfg, hash, run) :: Invisible(cfg, run)
  {
    hide TtlCoversRules, Chronological, Invisible, Unforced;
    if TtlCoversRules(cfg) {
      forall hash: Ip -> nat, run: Run |
        IsRun(cfg, hash, run) && Chronological(run.packets) && Unforced(cfg, hash, run)
        ensures Invisible(cfg, run)
      {
        EvictionAndShardingInvisible(cfg, hash, run);
      }
    } else {
      var run := ShortTtlIsVisible(cfg);
    }
  }

  // --- one literal case ---

  /** Two ports within 100 ms are a scan, but a source idle for more than 10 ms is forgotten. */
  const SHORT_TTL := Config(1, 100, 2, 100, 1000, 0, 10, 1, 8)

  /** Two probes of one source 60 ms apart, with another source's in between: in every run of the tracker the
      second probe raises nothing, and recounted over the whole history it is the second port. */
  lemma ShortTtlHidesAScan(run: Run)
    requires IsRun(SHORT_TTL, Zero, run)
    requires run.packets == [Datagram(0, 1, 7), Datagram(50, 2, 7), Datagram(60, 1, 8)]
    ensures run.alerts[2] == [] && SoloAlerts(SHORT_TTL, run.packets) != []
  {
    var first, other, second := [Datagram(0, 1, 7)], Datagram(50, 2, 7), [Datagram(60, 1, 8)];
    DatagramIs(0, 1, 7);
    DatagramIs(50, 2, 7);
    DatagramIs(60, 1, 8);
    assert run.packets == Interrupted(SHORT_TTL, first, other, second);
    hide NaiveAlerts, SoloAlerts, IsRun, TrackerStep, Datagram, Ms, IsConnectionAttempt, IsTcp;
    InterruptedAlerts(SHORT_TTL, run, first, other, second);
    InterruptedSolo(SHORT_TTL, first, other, second);
    TwoProbes(first[0], second[0]);
  }

  lemma TwoProbes(a: QueuedPacket, b: QueuedPacket)
    requires IsConnectionAttempt(a) && IsConnectionAttempt(b) && !IsTcp(a) && !IsTcp(b)
    requires Ms(a) <= Ms(b) <= Ms(a) + 100 && a.meta.dstPort != b.meta.dstPort
    ensures NaiveAlerts(SHORT_TTL, [b]) == [] && NaiveAlerts(SHORT_TTL, [a] + [b]) != []
  {
    hide NaiveAlerts, NaiveStamps, Ms, IsConnectionAttempt, IsTcp, PortCount;
    SingleProbe(SHORT_TTL, a);
    SingleProbe(SHORT_TTL, b);
    NoStamps(SHORT_TTL);
    assert [a][..0] == [] && [b][..0] == [] && ([a] + [b])[..1] == [a];
    DatagramAlerts(SHORT_TTL, [a]);
    DatagramAlerts(SHORT_TTL, [b]);
    TwoPorts(a, b);
    DatagramAlerts(SHORT_TTL, [a] + [b]);
  }

  lemma TwoPorts(a: QueuedPacket, b: QueuedPacket)
    requires IsConnectionAttempt(a) && IsConnectionAttempt(b)
    requires Ms(a) <= Ms(b) <= Ms(a) + 100 && a.meta.dstPort != b.meta.dstPort
    ensures PortCount(SHORT_TTL, [a] + [b]) == 2
  {
    hide Ms, IsConnectionAttempt;
    var cutoff := Ms(b) - 100;
    assert [] + [a] == [a] && PortsProbed([], cutoff) == {};
    ProbedStep([], a, cutoff);
    ProbedStep([a], b, cutoff);
    CountsAtLast(SHORT_TTL, [a], b);
  }
}
