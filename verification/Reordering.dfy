/** Two workers can show the tracker packets in another order than they were accepted in, and that changes what
    the flow rules raise. */
module Reordering {
  import opened Packets
  import opened Sequences
  import opened PacketQueue
  import opened WorkerPool
  import opened AnalysisEngine
  import opened SharedAnalysis
  import opened SharedProofs
  import opened FlowHistory
  import opened FlowRuns
  import opened FlowSources
  import opened FlowScenarios
  import FlowExact
  import FlowLate

  // --- building a trace step by step ---

  function Last(tr: SharedTrace): Shared
    requires tr.states != []
  {
    tr.states[|tr.states| - 1]
  }

  function Then(tr: SharedTrace, a: Step, s: Shared): SharedTrace {
    SharedTrace(tr.states + [s], tr.steps + [a])
  }

  ghost predicate Reaches(setup: Setup, tr: SharedTrace, s: Shared) {
    IsSharedTrace(setup, tr) && Last(tr) == s
  }

  lemma ThenReaches(setup: Setup, tr: SharedTrace, s: Shared, a: Step, s': Shared)
    requires Reaches(setup, tr, s) && SharedNext(setup, s, a, s')
    ensures Reaches(setup, Then(tr, a, s'), s')
  {
    hide SharedNext, Starts;
  }

  /** One idle producer, two workers none of which sleeps, an open and empty queue. */
  predicate Ready(s: Shared) {
    && s.pool.producers == [Idle] && |s.pool.workers| == |s.calls| == 2
    && s.pool.queue.items == [] && !s.pool.queue.shutdown
    && forall w <- s.pool.workers :: !Sleeping(w)
  }

  /** The pool takes a batch as soon as there is a packet. */
  predicate Eager(setup: Setup) {
    ValidConfig(setup.pool) && (!setup.pool.linger || setup.pool.batchSize == 1)
  }

  lemma PoolReaches(setup: Setup, tr: SharedTrace, s: Shared, act: Action, pool: State) returns (tr': SharedTrace, s': Shared)
    requires Reaches(setup, tr, s) && |s.calls| == |s.pool.workers| && Next(setup.pool, s.pool, act, pool)
    requires !act.BeginAnalysis? && !act.EndAnalysis?
    ensures Reaches(setup, tr', s') && s' == s.(pool := pool)
  {
    hide Next;
    s' := s.(pool := pool);
    assert SharedNext(setup, s, Pool(act), s');
    ThenReaches(setup, tr, s, Pool(act), s');
    tr' := Then(tr, Pool(act), s');
  }

  // --- a worker fetches a packet ---

  lemma PushNext(setup: Setup, s: State, x: QueuedPacket)
    requires ValidConfig(setup.pool) && s.producers == [Idle] && s.queue.items == [] && !s.queue.shutdown
    ensures Next(setup.pool, s, PushCall(0, x),
                 s.(queue := s.queue.(items := [x]), producers := [WakeConsumer], accepted := s.accepted + [x]))
  {}

  lemma NotifyNext(setup: Setup, s: State)
    requires s.producers == [WakeConsumer] && forall w <- s.workers :: !Sleeping(w)
    ensures Next(setup.pool, s, PushNotify(0, None), s.(producers := [Idle]))
  {}

  lemma PopNext(setup: Setup, s: State, w: nat, x: QueuedPacket)
    requires Eager(setup) && w < |s.workers| && s.workers[w] == Start && s.queue.items == [x]
    ensures Next(setup.pool, s, PopCall(w),
                 s.(queue := s.queue.(items := [], wanted := setup.pool.batchSize),
                    workers := s.workers[w := WakeProducers([x], false)], drained := s.drained + [[x]]))
  {
    assert [x][1..] == [] && [x][..1] == [x];
  }

  /** A packet is pushed and a worker drains it. */
  lemma Fetch(setup: Setup, tr: SharedTrace, s: Shared, w: nat, x: QueuedPacket) returns (tr': SharedTrace, s': Shared)
    requires Reaches(setup, tr, s) && Ready(s) && Eager(setup) && w < 2 && s.pool.workers[w] == Start
    ensures Reaches(setup, tr', s') && Ready(s')
    ensures s'.pool.workers == s.pool.workers[w := WakeProducers([x], false)] && s'.calls == s.calls
    ensures s'.pool.accepted == s.pool.accepted + [x] && s'.run == s.run
  {
    hide Next, Reaches;
    PushNext(setup, s.pool, x);
    var tr1, s1 := PoolReaches(setup, tr, s, PushCall(0, x),
                               s.pool.(queue := s.pool.queue.(items := [x]), producers := [WakeConsumer],
                                       accepted := s.pool.accepted + [x]));
    NotifyNext(setup, s1.pool);
    var tr2, s2 := PoolReaches(setup, tr1, s1, PushNotify(0, None), s1.pool.(producers := [Idle]));
    PopNext(setup, s2.pool, w, x);
    tr', s' := PoolReaches(setup, tr2, s2, PopCall(w),
                           s2.pool.(queue := s2.pool.queue.(items := [], wanted := setup.pool.batchSize),
                                    workers := s2.pool.workers[w := WakeProducers([x], false)],
                                    drained := s2.pool.drained + [[x]]));
  }

  // --- a worker shows it to the tracker ---

  lemma WakeNext(setup: Setup, s: State, w: nat, x: QueuedPacket)
    requires s.producers == [Idle] && w < |s.workers| && s.workers[w] == WakeProducers([x], false)
    ensures Next(setup.pool, s, NotifyProducers(w), s.(workers := s.workers[w := Holding([x])]))
  {
    assert AllWoken(s.producers) == s.producers;
  }

  lemma BeginNext(setup: Setup, s: Shared, w: nat, x: QueuedPacket)
    requires |s.calls| == |s.pool.workers| && w < |s.calls| && s.pool.workers[w] == Holding([x])
    ensures SharedNext(setup, s, Pool(BeginAnalysis(w)),
                       s.(pool := s.pool.(workers := s.pool.workers[w := Analyzing([x])]), calls := s.calls[w := Match(0)]))
  {}

  lemma MatchNext(setup: Setup, s: Shared, w: nat, x: QueuedPacket)
    requires |s.calls| == |s.pool.workers| && w < |s.calls| && s.pool.workers[w] == Analyzing([x]) && s.calls[w] == Match(0)
    ensures SharedNext(setup, s, MatchSignature(w),
                       s.(calls := s.calls[w := Track(0)], sink := s.sink + SignatureAlerts(setup.known, x)))
  {
    hide SignatureAlerts;
  }

  lemma TrackNext(setup: Setup, s: Shared, w: nat, x: QueuedPacket, t: FlowModel.Tracker, alerts: seq<Alert>)
    requires |s.calls| == |s.pool.workers| && w < |s.calls| && s.pool.workers[w] == Analyzing([x]) && s.calls[w] == Track(0)
    requires Tracked(setup, s.run, x, t, alerts)
    ensures SharedNext(setup, s, ObserveFlow(w, t, alerts),
                       s.(calls := s.calls[w := AfterFlow(0, alerts)], run := Extended(s.run, x, t, alerts)))
  {
    hide Tracked;
  }

  lemma Show(setup: Setup, tr: SharedTrace, s: Shared, w: nat, x: QueuedPacket) returns (tr': SharedTrace, s': Shared)
    requires Reaches(setup, tr, s) && Ready(s) && w < 2 && s.pool.workers[w] == WakeProducers([x], false)
    requires s.run.states != []
    ensures Reaches(setup, tr', s') && Ready(s')
    ensures s'.pool.workers == s.pool.workers[w := Analyzing([x])] && s'.pool.accepted == s.pool.accepted
    ensures s'.run.packets == s.run.packets + [x] && s'.run.states != []
  {
    hide Next, Reaches, SharedNext, FlowModel.TrackerStep, SignatureAlerts;
    WakeNext(setup, s.pool, w, x);
    var tr1, s1 := PoolReaches(setup, tr, s, NotifyProducers(w), s.pool.(workers := s.pool.workers[w := Holding([x])]));
    BeginNext(setup, s1, w, x);
    var s2 := s1.(pool := s1.pool.(workers := s1.pool.workers[w := Analyzing([x])]), calls := s1.calls[w := Match(0)]);
    ThenReaches(setup, tr1, s1, Pool(BeginAnalysis(w)), s2);
    var tr2 := Then(tr1, Pool(BeginAnalysis(w)), s2);
    MatchNext(setup, s2, w, x);
    var s3 := s2.(calls := s2.calls[w := Track(0)], sink := s2.sink + SignatureAlerts(setup.known, x));
    ThenReaches(setup, tr2, s2, MatchSignature(w), s3);
    var tr3 := Then(tr2, MatchSignature(w), s3);
    var t, alerts := StepExists(setup.flow, setup.hash, s3.run.states[|s3.run.states| - 1], x);
    TrackNext(setup, s3, w, x, t, alerts);
    s' := s3.(calls := s3.calls[w := AfterFlow(0, alerts)], run := Extended(s3.run, x, t, alerts));
    ThenReaches(setup, tr3, s3, ObserveFlow(w, t, alerts), s');
    tr' := Then(tr3, ObserveFlow(w, t, alerts), s');
    assert s'.pool.workers == s.pool.workers[w := Analyzing([x])];
  }

  // --- two workers ---

  lemma TwoWorkers(setup: Setup) returns (tr: SharedTrace, s: Shared)
    ensures Reaches(setup, tr, s) && Ready(s) && s.pool.workers == [Start, Start]
    ensures s.pool.accepted == [] && s.run.packets == [] && s.run.states != []
  {
    s := Shared(State(EMPTY_QUEUE, [Idle], [Start, Start], Open, 0, 0, [], [], []), [NoCall, NoCall], [], 0,
                Run([], [FlowModel.InitTracker(setup.flow)], []));
    tr := SharedTrace([s], []);
  }

  /** With two workers, whatever two packets are accepted, the tracker may observe them in either order. */
  lemma TwoWorkersReorder(setup: Setup, p: QueuedPacket, q: QueuedPacket, swap: bool) returns (tr: SharedTrace, s: Shared)
    requires Eager(setup)
    ensures Reaches(setup, tr, s) && s.pool.accepted == [p, q]
    ensures s.run.packets == if swap then [q, p] else [p, q]
  {
    hide Reaches;
    var tr0, s0 := TwoWorkers(setup);
    var tr1, s1 := Fetch(setup, tr0, s0, 0, p);
    var tr2, s2 := Fetch(setup, tr1, s1, 1, q);
    assert s2.pool.accepted == [p, q];
    if swap {
      var tr3, s3 := Show(setup, tr2, s2, 1, q);
      tr, s := Show(setup, tr3, s3, 0, p);
      assert s.run.packets == [q, p];
    } else {
      var tr3, s3 := Show(setup, tr2, s2, 0, p);
      tr, s := Show(setup, tr3, s3, 1, q);
      assert s.run.packets == [p, q];
    }
  }

  // --- which changes the flow alerts ---

  /** The second of two packets of one source is answered from the first alone. */
  lemma SecondAlerts(cfg: FlowModel.Config, run: Run, a: QueuedPacket, b: QueuedPacket)
    requires IsRun(cfg, Zero, run) && run.packets == [a, b] && FromOnly([a, b], 1)
    ensures run.alerts[0] == FlowModel.ObserveRecord(cfg, FlowModel.EMPTY_RECORD, a).alerts
    ensures run.alerts[1] == FlowModel.ObserveRecord(cfg, RecordAfter(cfg, [a]), b).alerts
  {
    assert [a, b][0] in [a, b] && [a, b][1] in [a, b];
    assert FlowModel.TrackerStep(cfg, Zero, run.states[0], a, run.states[1], run.alerts[0]);
    assert FlowModel.TrackerStep(cfg, Zero, run.states[1], b, run.states[2], run.alerts[1]);
    hide FlowModel.TrackerStep, FlowModel.ObserveRecord, RecordAfter;
    NothingTracked(cfg, Zero, 1, [], None);
    assert Of([], 1) == [];
    OwnPacketsTracked(cfg, run, 0, [], 0, [a]);
    assert [] + [a] == [a] && [a][0..] == [a];
    TrackerStepAt(cfg, Zero, run.states[0], a, run.states[1], run.alerts[0], 1);
    TrackerStepAt(cfg, Zero, run.states[1], b, run.states[2], run.alerts[1], 1);
  }

  /** Two ports within 100 ms are a scan. */
  predicate TwoPortsScan(cfg: FlowModel.Config) {
    cfg.portScanWindowMs == 100 && cfg.portScanDistinctPortThreshold == 2
  }

  /** 150 ms apart and in order, two probes are none. */
  lemma ApartIsNoScan(cfg: FlowModel.Config, p: QueuedPacket, q: QueuedPacket)
    requires TwoPortsScan(cfg) && FlowModel.IsConnectionAttempt(p) && FlowModel.IsConnectionAttempt(q)
    requires !FlowModel.IsTcp(p) && !FlowModel.IsTcp(q) && FlowModel.Ms(p) + 150 == FlowModel.Ms(q)
    ensures NaiveAlerts(cfg, [p]) == [] && NaiveAlerts(cfg, [p, q]) == []
  {
    hide NaiveAlerts, NaiveStamps, PortCount, FlowModel.Ms, FlowModel.IsConnectionAttempt, FlowModel.IsTcp;
    FlowExact.SingleProbe(cfg, p);
    FlowExact.DatagramAlerts(cfg, [p]);
    OldProbeIsGone(cfg, p, q);
    FlowExact.DatagramAlerts(cfg, [p, q]);
  }

  lemma ApartIsQuiet(cfg: FlowModel.Config, run: Run, p: QueuedPacket, q: QueuedPacket)
    requires TwoPortsScan(cfg) && IsRun(cfg, Zero, run) && run.packets == [p, q] && FromOnly([p, q], 1)
    requires FlowModel.IsConnectionAttempt(p) && FlowModel.IsConnectionAttempt(q)
    requires !FlowModel.IsTcp(p) && !FlowModel.IsTcp(q) && FlowModel.Ms(p) + 150 == FlowModel.Ms(q)
    ensures Concat(run.alerts) == []
  {
    ApartIsNoScan(cfg, p, q);
    SecondAlerts(cfg, run, p, q);
    InOrderAlerts(cfg, p, q);
    hide FlowModel.ObserveRecord, FlowModel.TrackerStep, NaiveAlerts, RecordAfter, FromOnly, FlowModel.IsConnectionAttempt;
    AllEmpty(run.alerts);
  }

  lemma InOrderAlerts(cfg: FlowModel.Config, p: QueuedPacket, q: QueuedPacket)
    requires FlowModel.Ms(p) <= FlowModel.Ms(q)
    ensures FlowModel.ObserveRecord(cfg, FlowModel.EMPTY_RECORD, p).alerts == NaiveAlerts(cfg, [p])
    ensures FlowModel.ObserveRecord(cfg, RecordAfter(cfg, [p]), q).alerts == NaiveAlerts(cfg, [p, q])
  {
    hide FlowModel.ObserveRecord, NaiveAlerts, FlowModel.Ms, RecordAfter, Agrees;
    FlowLate.NoRecord(cfg);
    assert [] + [p] == [p] && [p] + [q] == [p, q];
    FlowLimits.UninterruptedIsRecount(cfg, [], p);
    FlowLimits.UninterruptedIsRecount(cfg, [p], q);
  }

  lemma OldProbeIsGone(cfg: FlowModel.Config, p: QueuedPacket, q: QueuedPacket)
    requires cfg.portScanWindowMs == 100 && FlowModel.Ms(p) + 150 == FlowModel.Ms(q)
    requires FlowModel.IsConnectionAttempt(p) && FlowModel.IsConnectionAttempt(q)
    ensures PortCount(cfg, [p, q]) == 1
  {
    hide FlowModel.Ms, FlowModel.IsConnectionAttempt;
    var cutoff := FlowModel.Ms(q) - 100;
    assert [] + [p] == [p] && [p] + [q] == [p, q] && PortsProbed([], cutoff) == {};
    FlowExact.ProbedStep([], p, cutoff);
    FlowExact.ProbedStep([p], q, cutoff);
  }

  /** Observed the other way round they are a scan: the later one, still at the front of the queue, keeps
      the earlier one in it. */
  lemma ReorderedIsAScan(cfg: FlowModel.Config, run: Run, p: QueuedPacket, q: QueuedPacket)
    requires TwoPortsScan(cfg) && IsRun(cfg, Zero, run) && run.packets == [q, p] && FromOnly([q, p], 1)
    requires FlowModel.IsConnectionAttempt(p) && FlowModel.IsConnectionAttempt(q)
    requires FlowModel.Ms(p) + 150 == FlowModel.Ms(q) && p.meta.dstPort != q.meta.dstPort
    ensures run.alerts[1] != []
  {
    hide FlowModel.ObserveRecord, FlowModel.TrackerStep, FlowModel.Ms, RecordAfter, FlowModel.IsConnectionAttempt;
    SecondAlerts(cfg, run, q, p);
    FlowLate.NoRecord(cfg);
    assert [] + [q] == [q] && [q][..0] == [];
    var e, d := FlowLate.EventOf(q), FlowLate.EventOf(p);
    FlowLate.JoinsFresh(cfg, [], q, []);
    assert [] + [e] == [e];
    FlowLate.JoinsFresh(cfg, [q], p, [e]);
    FlowLate.PortsOf([e] + [d]);
    assert FlowModel.PortSet([e]) == {e.port};
    FirstLeavesNoStamp(cfg, q, e);
    assert ([q] + [p])[..1] == [q];
    RecordAlerts(cfg, RecordAfter(cfg, [q]), p);
    RecordOfTwo(cfg, q, p);
  }

  lemma RecordOfTwo(cfg: FlowModel.Config, a: QueuedPacket, b: QueuedPacket)
    ensures RecordAfter(cfg, [a] + [b]) == FlowModel.ObserveRecord(cfg, RecordAfter(cfg, [a]), b).record
  {
    hide FlowModel.ObserveRecord;
    assert ([a] + [b])[..1] == [a];
  }

  lemma FirstLeavesNoStamp(cfg: FlowModel.Config, q: QueuedPacket, e: FlowModel.PortEvent)
    requires TwoPortsScan(cfg) && RecordAfter(cfg, [q]).recentDstPorts == [e]
    ensures RecordAfter(cfg, [q]).lastPortScanAlertMs == None
  {
    hide FlowModel.ObserveRecord, FlowModel.Ms;
    FlowLate.NoRecord(cfg);
    assert [q][..0] == [];
    RecordAlerts(cfg, FlowModel.EMPTY_RECORD, q);
    assert FlowModel.PortSet([e]) == {e.port};
  }

  /** The same packets accepted in the same order, with two workers: one interleaving raises nothing, the other
      a port scan. */
  lemma TimingChangesFlowAlerts(setup: Setup) returns (a: Shared, trA: SharedTrace, b: Shared, trB: SharedTrace)
    requires Eager(setup) && setup.hash == Zero && TwoPortsScan(setup.flow)
    ensures Reaches(setup, trA, a) && Reaches(setup, trB, b) && a.pool.accepted == b.pool.accepted
    ensures Chronological(a.pool.accepted)
    ensures Concat(a.run.alerts) == [] && Concat(b.run.alerts) != []
  {
    hide Reaches, FlowModel.Ms, FlowModel.IsConnectionAttempt, FlowModel.IsTcp;
    var p, q := Datagram(0, 1, 7), Datagram(150, 1, 8);
    DatagramIs(0, 1, 7);
    DatagramIs(150, 1, 8);
    trA, a := TwoWorkersReorder(setup, p, q, false);
    trB, b := TwoWorkersReorder(setup, p, q, true);
    ReachedRun(setup, trA, a);
    ReachedRun(setup, trB, b);
    assert FromOnly([p, q], 1) && FromOnly([q, p], 1);
    ApartIsQuiet(setup.flow, a.run, p, q);
    ReorderedIsAScan(setup.flow, b.run, p, q);
    NotAllEmpty(b.run.alerts, 1);
  }

  lemma ReachedRun(setup: Setup, tr: SharedTrace, s: Shared)
    requires Reaches(setup, tr, s) && ValidConfig(setup.pool)
    ensures IsRun(setup.flow, setup.hash, s.run)
  {
    hide SharedNext, Starts;
    SharedTraceInv(setup, tr, |tr.steps|);
    InvHasRun(setup, s);
  }

  lemma InvHasRun(setup: Setup, s: Shared)
    requires SharedInv(setup, s)
    ensures IsRun(setup.flow, setup.hash, s.run)
  {
    hide IsRun;
  }

  lemma {:induction false} AllEmpty<T>(parts: seq<seq<T>>)
    requires forall i | 0 <= i < |parts| :: parts[i] == []
    ensures Concat(parts) == []
  {
    if parts != [] {
      AllEmpty(parts[..|parts| - 1]);
    }
  }

  lemma NotAllEmpty<T>(parts: seq<seq<T>>, i: nat)
    requires i < |parts| && parts[i] != []
    ensures Concat(parts) != []
  {
    PartAt(parts, i);
  }
}
