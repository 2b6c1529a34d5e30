/** The engine behind the worker pool: what thread timing cannot change. */
module Delivery {
  import opened Packets
  import opened Entropy
  import opened Sequences
  import opened Signatures
  import opened WorkerPool
  import opened WorkerProofs
  import opened AnalysisEngine
  import opened SharedAnalysis
  import opened SharedProofs
  import FlowModel
  import FlowRules
  import FlowRuns

  /** Dropping the packet at `i`. */
  function Without(packets: seq<QueuedPacket>, i: nat): seq<QueuedPacket>
    requires i < |packets|
  {
    packets[..i] + packets[i + 1..]
  }

  lemma BagWithout(packets: seq<QueuedPacket>, i: nat)
    requires i < |packets|
    ensures multiset(packets) == multiset(Without(packets, i)) + multiset{packets[i]}
  {
    assert packets == packets[..i] + [packets[i]] + packets[i + 1..];
  }

  lemma Cancel(x: multiset<QueuedPacket>, y: multiset<QueuedPacket>, p: QueuedPacket)
    requires x + multiset{p} == y + multiset{p}
    ensures x == y
  {
    assert x == x + multiset{p} - multiset{p} && y == y + multiset{p} - multiset{p};
  }

  /** Where the last packet of a sequence stands in a reordering of it. */
  lemma LastElsewhere(a: seq<QueuedPacket>, b: seq<QueuedPacket>) returns (i: nat)
    requires a != [] && multiset(a) == multiset(b)
    ensures i < |b| && b[i] == a[|a| - 1] && multiset(a[..|a| - 1]) == multiset(Without(b, i))
  {
    var p := a[|a| - 1];
    assert p in multiset(b);
    i :| i < |b| && b[i] == p;
    BagWithout(b, i);
    BagWithout(a, |a| - 1);
    assert Without(a, |a| - 1) == a[..|a| - 1];
    Cancel(multiset(a[..|a| - 1]), multiset(Without(b, i)), p);
  }

  lemma EntropyWithout(cfg: AnalysisConfig, term: Term, packets: seq<QueuedPacket>, i: nat)
    requires i < |packets|
    ensures multiset(AllEntropyAlerts(cfg, term, packets)) ==
            multiset(AllEntropyAlerts(cfg, term, Without(packets, i))) + multiset(EntropyAlerts(cfg, term, packets[i]))
  {
    hide EntropyAlerts;
    AllEntropyConcat(cfg, term, packets[..i], packets[i + 1..]);
    AllEntropyConcat(cfg, term, packets[..i + 1], packets[i + 1..]);
    assert packets == packets[..i + 1] + packets[i + 1..] && packets[..i + 1][..i] == packets[..i];
  }

  lemma SignatureWithout(known: set<Word>, packets: seq<QueuedPacket>, i: nat)
    requires i < |packets|
    ensures multiset(AllSignatureAlerts(known, packets)) ==
            multiset(AllSignatureAlerts(known, Without(packets, i))) + multiset(SignatureAlerts(known, packets[i]))
  {
    hide SignatureAlerts;
    AllSignatureConcat(known, packets[..i], packets[i + 1..]);
    AllSignatureConcat(known, packets[..i + 1], packets[i + 1..]);
    assert packets == packets[..i + 1] + packets[i + 1..] && packets[..i + 1][..i] == packets[..i];
  }

  /** Reordering packets reorders their own alerts and changes none. */
  lemma {:induction false} ReorderingKeepsAlerts(cfg: AnalysisConfig, term: Term, known: set<Word>,
                                                 a: seq<QueuedPacket>, b: seq<QueuedPacket>)
    requires multiset(a) == multiset(b)
    ensures multiset(AllEntropyAlerts(cfg, term, a)) == multiset(AllEntropyAlerts(cfg, term, b))
    ensures multiset(AllSignatureAlerts(known, a)) == multiset(AllSignatureAlerts(known, b))
    decreases |a|
  {
    if a == [] {
      assert |multiset(b)| == |b| == 0;
    } else {
      hide AllEntropyAlerts, AllSignatureAlerts;
      var n := |a| - 1;
      var i := LastElsewhere(a, b);
      ReorderingKeepsAlerts(cfg, term, known, a[..n], Without(b, i));
      assert Without(a, n) == a[..n];
      EntropyWithout(cfg, term, a, n);
      EntropyWithout(cfg, term, b, i);
      SignatureWithout(known, a, n);
      SignatureWithout(known, b, i);
    }
  }

  // --- what thread timing cannot change ---

  lemma {:induction false} TimesOfKind(alerts: seq<Alert>, kind: AnomalyType, a: Alert)
    ensures Times(a, OfKind(alerts, kind)) == if a.kind == kind then Times(a, alerts) else 0
  {
    hide Times;
    NoTimes(a);
    if alerts != [] {
      var front, last := alerts[..|alerts| - 1], alerts[|alerts| - 1];
      TimesOfKind(front, kind, a);
      TimesConcat(a, OfKind(front, kind), if last.kind == kind then [last] else []);
      TimesConcat(a, front, [last]);
      TimesOfOne(a, last);
      assert alerts == front + [last];
    }
  }

  lemma TimesOfOne(a: Alert, b: Alert)
    ensures Times(a, [b]) == if a == b then 1 else 0
  {}

  lemma SameBagOfKind(x: seq<Alert>, y: seq<Alert>, kind: AnomalyType)
    requires multiset(x) == multiset(y)
    ensures multiset(OfKind(x, kind)) == multiset(OfKind(y, kind))
  {
    hide OfKind;
    forall a ensures Times(a, OfKind(x, kind)) == Times(a, OfKind(y, kind)) {
      TimesOfKind(x, kind, a);
      TimesOfKind(y, kind, a);
    }
    SameTimes(OfKind(x, kind), OfKind(y, kind));
  }

  lemma {:induction false} SignaturesOfKind(known: set<Word>, packets: seq<QueuedPacket>, kind: AnomalyType)
    ensures OfKind(AllSignatureAlerts(known, packets), kind) ==
            if kind == SignatureMatch then AllSignatureAlerts(known, packets) else []
  {
    hide SignatureAlerts;
    if packets != [] {
      var n := |packets| - 1;
      SignaturesOfKind(known, packets[..n], kind);
      SignatureKinds(known, packets[n], kind);
      OfKindConcat(AllSignatureAlerts(known, packets[..n]), SignatureAlerts(known, packets[n]), kind);
    }
  }

  lemma {:induction false} FlowOfKind(flow: seq<seq<Alert>>, kind: AnomalyType)
    requires FlowKinds(flow) && (kind == HighEntropyPayload || kind == SignatureMatch)
    ensures OfKind(Concat(flow), kind) == []
  {
    if flow != [] {
      var n := |flow| - 1;
      assert flow[n] in flow && forall alerts <- flow[..n] :: alerts in flow;
      FlowOfKind(flow[..n], kind);
      OfKindAll(flow[n], kind);
      OfKindConcat(Concat(flow[..n]), flow[n], kind);
    }
  }

  /** The three rules' alerts, told apart by kind. */
  lemma KindsApart(setup: Setup, packets: seq<QueuedPacket>, flow: seq<seq<Alert>>)
    requires FlowKinds(flow)
    ensures var all := AllSignatureAlerts(setup.known, packets) + AllEntropyAlerts(setup.engine, setup.term, packets)
                       + Concat(flow);
            && OfKind(all, HighEntropyPayload) == AllEntropyAlerts(setup.engine, setup.term, packets)
            && OfKind(all, SignatureMatch) == AllSignatureAlerts(setup.known, packets)
  {
    hide AllSignatureAlerts, AllEntropyAlerts, Concat, OfKind, FlowKinds;
    var signatures, entropies := AllSignatureAlerts(setup.known, packets), AllEntropyAlerts(setup.engine, setup.term, packets);
    EntropyKinds(setup.engine, setup.term, packets);
    ApartAt(setup, packets, flow, HighEntropyPayload);
    ApartAt(setup, packets, flow, SignatureMatch);
    OfKindAll(entropies, HighEntropyPayload);
    OfKindAll(entropies, SignatureMatch);
  }

  lemma ApartAt(setup: Setup, packets: seq<QueuedPacket>, flow: seq<seq<Alert>>, kind: AnomalyType)
    requires FlowKinds(flow) && (kind == HighEntropyPayload || kind == SignatureMatch)
    ensures var signatures, entropies :=
              AllSignatureAlerts(setup.known, packets), AllEntropyAlerts(setup.engine, setup.term, packets);
            OfKind(signatures + entropies + Concat(flow), kind) ==
            (if kind == SignatureMatch then signatures else []) + OfKind(entropies, kind)
  {
    hide AllSignatureAlerts, AllEntropyAlerts, Concat, OfKind, FlowKinds;
    var signatures, entropies := AllSignatureAlerts(setup.known, packets), AllEntropyAlerts(setup.engine, setup.term, packets);
    SignaturesOfKind(setup.known, packets, kind);
    FlowOfKind(flow, kind);
    OfKindConcat(signatures + entropies, Concat(flow), kind);
    OfKindConcat(signatures, entropies, kind);
  }

  /** However the threads were timed, down to single packets and alerts, and whichever batches fell back: once
      every worker has exited, the entropy and signature alerts in the sink are, as bags, exactly those of the
      accepted packets taken one at a time. */
  lemma TimingDoesNotMatter(setup: Setup, tr: SharedTrace, n: nat)
    requires ValidConfig(setup.pool) && IsSharedTrace(setup, tr) && n <= |tr.steps| && AllExited(tr.states[n])
    ensures var s := tr.states[n];
            && multiset(OfKind(s.sink, HighEntropyPayload)) ==
               multiset(AllEntropyAlerts(setup.engine, setup.term, s.pool.accepted))
            && multiset(OfKind(s.sink, SignatureMatch)) == multiset(AllSignatureAlerts(setup.known, s.pool.accepted))
  {
    SinkIsAccounted(setup, tr, n);
    var s := tr.states[n];
    TrackerKinds(setup.flow, setup.hash, s.run);
    KindsApart(setup, s.pool.accepted, s.run.alerts);
    hide IsSharedTrace, FlowRuns.IsRun, OfKind, AllSignatureAlerts, AllEntropyAlerts, Concat, AllExited, FlowKinds;
    var all := AllSignatureAlerts(setup.known, s.pool.accepted)
               + AllEntropyAlerts(setup.engine, setup.term, s.pool.accepted) + Concat(s.run.alerts);
    SameBagOfKind(s.sink, all, HighEntropyPayload);
    SameBagOfKind(s.sink, all, SignatureMatch);
  }

  /** Two runs of the program on the same packets, in any order, with any pools, queues, trackers and backends,
      raise the same entropy and signature alerts. */
  lemma TwoRunsAgree(a: Setup, trA: SharedTrace, m: nat, b: Setup, trB: SharedTrace, n: nat)
    requires ValidConfig(a.pool) && IsSharedTrace(a, trA) && m <= |trA.steps| && AllExited(trA.states[m])
    requires ValidConfig(b.pool) && IsSharedTrace(b, trB) && n <= |trB.steps| && AllExited(trB.states[n])
    requires a.engine == b.engine && a.term == b.term && a.known == b.known
    requires multiset(trA.states[m].pool.accepted) == multiset(trB.states[n].pool.accepted)
    ensures forall kind | kind == HighEntropyPayload || kind == SignatureMatch ::
              multiset(OfKind(trA.states[m].sink, kind)) == multiset(OfKind(trB.states[n].sink, kind))
  {
    hide SharedNext, Starts, OfKind, AllSignatureAlerts, AllEntropyAlerts, AllExited;
    TimingDoesNotMatter(a, trA, m);
    TimingDoesNotMatter(b, trB, n);
    ReorderingKeepsAlerts(a.engine, a.term, a.known, trA.states[m].pool.accepted, trB.states[n].pool.accepted);
  }

  // --- what it can: one worker keeps the order, two may not ---

  /** With a single worker the tracker sees the packets in the order in which they were drained. */
  ghost predicate SingleFile(s: Shared) {
    && |s.pool.workers| == |s.calls| == 1
    && s.run.packets + Unseen(Held(s.pool.workers[0]), s.calls[0]) == Concat(s.pool.drained)
  }

  lemma SingleFileCallStep(setup: Setup, s: Shared, a: Step, s': Shared)
    requires CallsOk(setup, s) && SingleFile(s) && SharedNext(setup, s, a, s') && !a.Pool?
    ensures SingleFile(s')
  {
    CallStepKeepsCalls(setup, s, a, s');
    UnseenStep(setup, s, a, s');
    hide SharedNext, CallsOk, Concat, Unseen, Held;
    var shown := s'.run.packets[|s.run.packets|..];
    Regroup(s.run.packets, shown, Unseen(BatchOf(s, 0), s'.calls[0]));
  }

  lemma Regroup<T>(a: seq<T>, b: seq<T>, c: seq<T>)
    ensures a + (b + c) == a + b + c
  {}

  lemma SingleFileAnalysisStep(setup: Setup, s: Shared, act: Action, s': Shared)
    requires CallsOk(setup, s) && SingleFile(s) && SharedNext(setup, s, Pool(act), s')
    requires act.BeginAnalysis? || act.EndAnalysis?
    ensures SingleFile(s')
  {
    AnalysisStepKeepsCalls(setup, s, act, s');
    hide SharedNext, CallsOk, Concat, Held, EligiblePackets, Entropies;
    assert BatchOf(s, 0)[0..] == BatchOf(s, 0);
  }

  lemma SingleFileDrain(s: Shared, s': Shared, batch: seq<QueuedPacket>)
    requires SingleFile(s) && s.calls[0] == NoCall && s'.calls == s.calls && s'.run == s.run
    requires DrainsAt(s.pool, s'.pool, 0, batch)
    ensures SingleFile(s')
  {
    hide Concat, Held;
    ConcatSnoc(s.pool.drained, batch);
  }

  lemma SingleFilePoolStep(setup: Setup, s: Shared, act: Action, s': Shared)
    requires CallsOk(setup, s) && SingleFile(s) && SharedNext(setup, s, Pool(act), s')
    requires !act.BeginAnalysis? && !act.EndAnalysis?
    ensures SingleFile(s')
  {
    PoolPart(setup, s, act, s');
    if act.PopCall? || act.PopRecheck? || act.PopTimeout? {
      var batch := PopStepHolds(setup.pool, s.pool, act, s'.pool);
      WaitingHasNoCall(setup, s, act, s'.pool);
      SingleFileDrain(s, s', batch);
    } else {
      OtherStepHolds(setup.pool, s.pool, act, s'.pool);
      hide SharedNext, Next, Concat, Held, CallsOk;
    }
  }

  lemma PoolPart(setup: Setup, s: Shared, act: Action, s': Shared)
    requires SharedNext(setup, s, Pool(act), s') && !act.BeginAnalysis? && !act.EndAnalysis?
    ensures Next(setup.pool, s.pool, act, s'.pool) && s'.calls == s.calls && s'.run == s.run
  {
    hide Next;
  }

  lemma WaitingHasNoCall(setup: Setup, s: Shared, act: Action, pool: State)
    requires CallsOk(setup, s) && Next(setup.pool, s.pool, act, pool) && (act.PopCall? || act.PopRecheck? || act.PopTimeout?)
    ensures act.w < |s.calls| && s.calls[act.w] == NoCall
  {
    hide PopLocked, DrainLocked, CallOk;
  }

  lemma SingleFileStep(setup: Setup, s: Shared, a: Step, s': Shared)
    requires CallsOk(setup, s) && SingleFile(s) && SharedNext(setup, s, a, s')
    ensures SingleFile(s')
  {
    hide CallsOk, SingleFile, SharedNext;
    if !a.Pool? {
      SingleFileCallStep(setup, s, a, s');
    } else if a.a.BeginAnalysis? || a.a.EndAnalysis? {
      SingleFileAnalysisStep(setup, s, a.a, s');
    } else {
      SingleFilePoolStep(setup, s, a.a, s');
    }
  }

  lemma {:induction false} SingleFileTrace(setup: Setup, tr: SharedTrace, n: nat)
    requires ValidConfig(setup.pool) && IsSharedTrace(setup, tr) && n <= |tr.steps|
    requires |tr.states[0].pool.workers| == 1
    ensures SingleFile(tr.states[n])
  {
    hide SharedNext, SingleFile, SharedInv;
    if n == 0 {
      SingleFileStart(setup, tr.states[0]);
    } else {
      SingleFileTrace(setup, tr, n - 1);
      SharedTraceInv(setup, tr, n - 1);
      assert CallsOk(setup, tr.states[n - 1]) by { InvHasCalls(setup, tr.states[n - 1]); }
      SingleFileStep(setup, tr.states[n - 1], tr.steps[n - 1], tr.states[n]);
    }
  }

  lemma InvHasCalls(setup: Setup, s: Shared)
    requires SharedInv(setup, s)
    ensures CallsOk(setup, s)
  {
    hide CallsOk, Inv, SinkAccount, SeenAccount, FlowRuns.IsRun;
  }

  lemma SingleFileStart(setup: Setup, s: Shared)
    requires Starts(setup, s) && |s.pool.workers| == 1
    ensures SingleFile(s)
  {
    assert s.pool.workers[0] in s.pool.workers && s.calls[0] in s.calls;
  }

  /** One worker: the tracker observes the accepted packets in their order. If they are in order of time, the
      time-to-live covers the rules and no drop is forced, every alert in the sink, the flow rules' too, is
      then a function of the accepted packets. */
  lemma OneWorkerKeepsOrder(setup: Setup, tr: SharedTrace, n: nat)
    requires ValidConfig(setup.pool) && IsSharedTrace(setup, tr) && n <= |tr.steps| && AllExited(tr.states[n])
    requires |tr.states[0].pool.workers| == 1
    ensures var s := tr.states[n];
            && s.run.packets == s.pool.accepted && FlowRuns.IsRun(setup.flow, setup.hash, s.run)
            && (FlowRuns.Chronological(s.pool.accepted) && FlowRules.TtlCoversRules(setup.flow)
                && FlowRuns.Unforced(setup.flow, setup.hash, s.run) ==>
                  multiset(s.sink) ==
                  multiset(AllSignatureAlerts(setup.known, s.pool.accepted)
                           + AllEntropyAlerts(setup.engine, setup.term, s.pool.accepted)
                           + Concat(FlowRuns.SoloRun(setup.flow, s.pool.accepted))))
  {
    SinkIsAccounted(setup, tr, n);
    SingleFileTrace(setup, tr, n);
    SharedTraceInv(setup, tr, n);
    var s := tr.states[n];
    ExitedDrained(setup, s);
    assert Unseen(Held(s.pool.workers[0]), s.calls[0]) == [] by { ExitedSeesAll(setup, s); }
    hide IsSharedTrace, AllSignatureAlerts, AllEntropyAlerts, Concat, AllExited, SharedInv, Held, Unseen;
    hide FlowRuns.Chronological, FlowRules.TtlCoversRules, FlowRuns.SoloAlerts, FlowModel.TrackerStep, FlowRuns.UnforcedAt;
    if FlowRuns.Chronological(s.pool.accepted) && FlowRules.TtlCoversRules(setup.flow)
       && FlowRuns.Unforced(setup.flow, setup.hash, s.run) {
      FlowRuns.EvictionAndShardingInvisible(setup.flow, setup.hash, s.run);
      assert s.run.alerts == FlowRuns.SoloRun(setup.flow, s.pool.accepted);
    }
  }

  lemma ExitedSeesAll(setup: Setup, s: Shared)
    requires SharedInv(setup, s) && AllExited(s) && |s.pool.workers| == |s.calls| == 1
    ensures Unseen(Held(s.pool.workers[0]), s.calls[0]) == []
  {
    hide Inv, SinkAccount, SeenAccount, FlowRuns.IsRun;
    assert s.pool.workers[0] in s.pool.workers;
  }
}
