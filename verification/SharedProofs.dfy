/** What every interleaving of analysing workers keeps, and what thread timing cannot change. */
module SharedProofs {
  import opened Packets
  import opened Sequences
  import opened Entropy
  import opened Signatures
  import opened WorkerPool
  import opened WorkerProofs
  import opened AnalysisEngine
  import opened SharedAnalysis
  import FlowModel
  import FlowSources

  // --- the alerts still owed, worker by worker ---

  function OwedAt(setup: Setup, s: Shared, w: nat, a: Alert): nat
    requires CallsOk(setup, s) && w < |s.calls|
  {
    Owed(setup, Held(s.pool.workers[w]), s.calls[w], a)
  }

  function AllOwed(setup: Setup, s: Shared, a: Alert): (v: seq<nat>)
    requires CallsOk(setup, s)
    ensures |v| == |s.calls| && forall w | 0 <= w < |v| :: v[w] == OwedAt(setup, s, w, a)
  {
    seq(|s.calls|, w requires 0 <= w < |s.calls| => OwedAt(setup, s, w, a))
  }

  function UnseenAt(s: Shared, w: nat, q: QueuedPacket): nat
    requires |s.calls| == |s.pool.workers| && w < |s.calls|
  {
    Times(q, Unseen(Held(s.pool.workers[w]), s.calls[w]))
  }

  function AllUnseen(s: Shared, q: QueuedPacket): (v: seq<nat>)
    requires |s.calls| == |s.pool.workers|
    ensures |v| == |s.calls| && forall w | 0 <= w < |v| :: v[w] == UnseenAt(s, w, q)
  {
    seq(|s.calls|, w requires 0 <= w < |s.calls| => UnseenAt(s, w, q))
  }

  /** As often as the drained packets call for an alert, or the tracker has raised it, it is in the sink or owed. */
  ghost predicate SinkAccount(setup: Setup, s: Shared, a: Alert) {
    && CallsOk(setup, s)
    && Times(a, s.sink) + SumOf(AllOwed(setup, s, a)) ==
       OwedFor(setup, Concat(s.pool.drained), a) + Times(a, Concat(s.run.alerts))
  }

  /** As often as a packet was drained, the tracker has observed it or a worker still has to show it. */
  ghost predicate SeenAccount(s: Shared, q: QueuedPacket) {
    && |s.calls| == |s.pool.workers|
    && Times(q, s.run.packets) + SumOf(AllUnseen(s, q)) == Times(q, Concat(s.pool.drained))
  }

  // --- one alert or packet at a time ---

  lemma SignatureHead(known: set<Word>, packets: seq<QueuedPacket>, a: Alert)
    requires packets != []
    ensures Times(a, AllSignatureAlerts(known, packets)) ==
            Times(a, SignatureAlerts(known, packets[0])) + Times(a, AllSignatureAlerts(known, packets[1..]))
  {
    hide SignatureAlerts, Times;
    var head, rest := packets[..1], packets[1..];
    assert packets == head + rest && head[..0] == [];
    AllSignatureConcat(known, head, rest);
    assert AllSignatureAlerts(known, head) == SignatureAlerts(known, packets[0]);
    TimesConcat(a, AllSignatureAlerts(known, head), AllSignatureAlerts(known, rest));
  }

  lemma {:induction false} RaisedConcat(cfg: AnalysisConfig, a: seq<QueuedPacket>, x: seq<real>,
                                        b: seq<QueuedPacket>, y: seq<real>)
    requires |a| == |x| && |b| == |y|
    ensures Raised(cfg, a + b, x + y) == Raised(cfg, a, x) + Raised(cfg, b, y)
  {
    hide EntropyAlert;
    if b == [] {
      assert a + b == a && x + y == x;
    } else {
      var n := |b| - 1;
      RaisedConcat(cfg, a, x, b[..n], y[..n]);
      assert (a + b)[..|a + b| - 1] == a + b[..n] && (x + y)[..|x + y| - 1] == x + y[..n];
    }
  }

  lemma RaisedHead(cfg: AnalysisConfig, eligible: seq<QueuedPacket>, values: seq<real>, j: nat, a: Alert)
    requires |eligible| == |values| && j < |eligible|
    ensures Times(a, Raised(cfg, eligible[j..], values[j..])) ==
            Times(a, EntropyAlert(cfg, eligible[j], values[j])) + Times(a, Raised(cfg, eligible[j + 1..], values[j + 1..]))
  {
    hide EntropyAlert, Times;
    RaisedConcat(cfg, [eligible[j]], [values[j]], eligible[j + 1..], values[j + 1..]);
    assert eligible[j..] == [eligible[j]] + eligible[j + 1..] && values[j..] == [values[j]] + values[j + 1..];
    assert Raised(cfg, [eligible[j]], [values[j]]) == EntropyAlert(cfg, eligible[j], values[j]) by {
      assert [eligible[j]][..0] == [] && [values[j]][..0] == [];
    }
    TimesConcat(a, EntropyAlert(cfg, eligible[j], values[j]), Raised(cfg, eligible[j + 1..], values[j + 1..]));
  }

  lemma OwedForConcat(setup: Setup, a: seq<QueuedPacket>, b: seq<QueuedPacket>, alert: Alert)
    ensures OwedFor(setup, a + b, alert) == OwedFor(setup, a, alert) + OwedFor(setup, b, alert)
  {
    hide Times, AllSignatureAlerts, AllEntropyAlerts;
    AllSignatureConcat(setup.known, a, b);
    AllEntropyConcat(setup.engine, setup.term, a, b);
    TimesConcat(alert, AllSignatureAlerts(setup.known, a), AllSignatureAlerts(setup.known, b));
    TimesConcat(alert, AllEntropyAlerts(setup.engine, setup.term, a), AllEntropyAlerts(setup.engine, setup.term, b));
  }

  lemma NothingOwed(setup: Setup, a: Alert)
    ensures OwedFor(setup, [], a) == 0
  {}

  // --- steps of a call ---

  /** The call a step belongs to. */
  function CallStep(a: Step): nat
    requires !a.Pool?
  {
    a.w
  }

  lemma CallStepKeepsCalls(setup: Setup, s: Shared, a: Step, s': Shared)
    requires CallsOk(setup, s) && SharedNext(setup, s, a, s') && !a.Pool?
    ensures CallsOk(setup, s') && s'.pool == s.pool && a.w < |s.calls|
    ensures s.pool.workers[a.w].Analyzing?
    ensures forall w | 0 <= w < |s.calls| && w != a.w :: s'.calls[w] == s.calls[w]
  {
    hide Entropies, EligiblePackets, SignatureAlerts, EntropyAlert, Tracked;
  }

  /** Each step of a call moves exactly what it sinks from owed to the sink, and a packet's flow alerts become
      owed when the tracker raises them. */
  lemma CallStepOwed(setup: Setup, s: Shared, a: Step, s': Shared, alert: Alert)
    requires CallsOk(setup, s) && SharedNext(setup, s, a, s') && !a.Pool? && CallsOk(setup, s')
    requires a.w < |s.calls|
    ensures Times(alert, s'.sink) + OwedAt(setup, s', a.w, alert) + Times(alert, Concat(s.run.alerts)) ==
            Times(alert, s.sink) + OwedAt(setup, s, a.w, alert) + Times(alert, Concat(s'.run.alerts))
  {
    var w, held := a.w, BatchOf(s, a.w);
    match a
    case MatchSignature(_) => MatchOwed(setup, s, held, s.calls[w].i, alert);
    case ObserveFlow(_, t, alerts) => FlowOwed(setup, s, held, s.calls[w].i, alerts, alert);
    case SinkOne(_) => SinkOwed(setup, s, held, s.calls[w].i, s.calls[w].rest, alert);
    case TakeEntropies(_, outcome) => TakeOwed(setup, held, alert);
    case RaiseOne(_) => RaiseOwed(setup, s, held, s.calls[w].values, s.calls[w].j, alert);
  }

  lemma MatchOwed(setup: Setup, s: Shared, held: seq<QueuedPacket>, i: nat, a: Alert)
    requires i < |held|
    ensures Times(a, s.sink + SignatureAlerts(setup.known, held[i])) + Owed(setup, held, Track(i), a) ==
            Times(a, s.sink) + Owed(setup, held, Match(i), a)
  {
    hide Times, SignatureAlerts, AllSignatureAlerts, AllEntropyAlerts;
    SignatureHead(setup.known, held[i..], a);
    assert held[i..][1..] == held[i + 1..];
    TimesConcat(a, s.sink, SignatureAlerts(setup.known, held[i]));
  }

  lemma FlowOwed(setup: Setup, s: Shared, held: seq<QueuedPacket>, i: nat, alerts: seq<Alert>, a: Alert)
    requires i < |held|
    ensures Owed(setup, held, AfterFlow(i, alerts), a) + Times(a, Concat(s.run.alerts)) ==
            Owed(setup, held, Track(i), a) + Times(a, Concat(s.run.alerts + [alerts]))
  {
    hide Times, AllSignatureAlerts, AllEntropyAlerts, Concat;
    ConcatSnoc(s.run.alerts, alerts);
    TimesConcat(a, Concat(s.run.alerts), alerts);
    NoTimes(a);
  }

  lemma SinkOwed(setup: Setup, s: Shared, held: seq<QueuedPacket>, i: nat, rest: seq<Alert>, a: Alert)
    requires i < |held| && rest != []
    ensures Times(a, s.sink + [rest[0]]) + Owed(setup, held, AfterFlow(i, rest[1..]), a) ==
            Times(a, s.sink) + Owed(setup, held, SinkFlow(i, rest), a)
  {
    hide Times, AllSignatureAlerts, AllEntropyAlerts;
    TimesConcat(a, s.sink, [rest[0]]);
    TimesConcat(a, [rest[0]], rest[1..]);
    assert rest == [rest[0]] + rest[1..];
    NoTimes(a);
  }

  lemma TakeOwed(setup: Setup, held: seq<QueuedPacket>, a: Alert)
    ensures Owed(setup, held, Raise(Entropies(EligiblePackets(setup.engine, held), setup.term), 0), a) ==
            Owed(setup, held, Match(|held|), a)
  {
    hide Times, AllSignatureAlerts, AllEntropyAlerts, Entropies, EligiblePackets;
    RaisedIsAllEntropy(setup.engine, setup.term, held);
    var eligible := EligiblePackets(setup.engine, held);
    assert eligible[0..] == eligible && Entropies(eligible, setup.term)[0..] == Entropies(eligible, setup.term);
    assert held[|held|..] == [];
    NoSignatures(setup.known);
    NoTimes(a);
  }

  lemma NoSignatures(known: set<Word>)
    ensures AllSignatureAlerts(known, []) == []
  {}

  lemma RaiseOwed(setup: Setup, s: Shared, held: seq<QueuedPacket>, values: seq<real>, j: nat, a: Alert)
    requires CallOk(setup, held, Raise(values, j)) && j < |EligiblePackets(setup.engine, held)|
    ensures var e := EligiblePackets(setup.engine, held)[j];
            Times(a, s.sink + EntropyAlert(setup.engine, e, values[j])) + Owed(setup, held, Raise(values, j + 1), a) ==
            Times(a, s.sink) + Owed(setup, held, Raise(values, j), a)
  {
    hide Times, EntropyAlert, EligiblePackets, Raised;
    var eligible := EligiblePackets(setup.engine, held);
    RaisedHead(setup.engine, eligible, values, j, a);
    TimesConcat(a, s.sink, EntropyAlert(setup.engine, eligible[j], values[j]));
  }

  /** Whatever a step changes is at one worker, where it balances. */
  lemma SinkMoves(setup: Setup, s: Shared, s': Shared, w: nat, a: Alert)
    requires SinkAccount(setup, s, a) && CallsOk(setup, s') && |s'.calls| == |s.calls| && w < |s.calls|
    requires forall v | 0 <= v < |s.calls| && v != w :: OwedAt(setup, s', v, a) == OwedAt(setup, s, v, a)
    requires Times(a, s'.sink) + OwedAt(setup, s', w, a) + OwedFor(setup, Concat(s.pool.drained), a)
             + Times(a, Concat(s.run.alerts)) ==
             Times(a, s.sink) + OwedAt(setup, s, w, a) + OwedFor(setup, Concat(s'.pool.drained), a)
             + Times(a, Concat(s'.run.alerts))
    ensures SinkAccount(setup, s', a)
  {
    hide CallsOk, OwedAt, OwedFor, Times, Concat;
    SumChanged(AllOwed(setup, s, a), AllOwed(setup, s', a), w);
  }

  lemma SeenMoves(s: Shared, s': Shared, w: nat, q: QueuedPacket)
    requires SeenAccount(s, q) && |s'.calls| == |s'.pool.workers| == |s.calls| && w < |s.calls|
    requires forall v | 0 <= v < |s.calls| && v != w :: UnseenAt(s', v, q) == UnseenAt(s, v, q)
    requires Times(q, s'.run.packets) + UnseenAt(s', w, q) + Times(q, Concat(s.pool.drained)) ==
             Times(q, s.run.packets) + UnseenAt(s, w, q) + Times(q, Concat(s'.pool.drained))
    ensures SeenAccount(s', q)
  {
    hide UnseenAt, Times, Concat;
    SumChanged(AllUnseen(s, q), AllUnseen(s', q), w);
  }

  lemma CallStepSinks(setup: Setup, s: Shared, a: Step, s': Shared, alert: Alert)
    requires SinkAccount(setup, s, alert) && SharedNext(setup, s, a, s') && !a.Pool?
    ensures SinkAccount(setup, s', alert)
  {
    CallStepKeepsCalls(setup, s, a, s');
    CallStepOwed(setup, s, a, s', alert);
    hide SharedNext, CallsOk, Owed, OwedFor, Times, Concat, AllOwed, SinkAccount;
    SinkMoves(setup, s, s', a.w, alert);
  }

  lemma CallStepSees(setup: Setup, s: Shared, a: Step, s': Shared, q: QueuedPacket)
    requires CallsOk(setup, s) && SeenAccount(s, q) && SharedNext(setup, s, a, s') && !a.Pool?
    ensures SeenAccount(s', q)
  {
    CallStepKeepsCalls(setup, s, a, s');
    UnseenStep(setup, s, a, s');
    hide SharedNext, Times, Concat, Unseen, SeenAccount;
    var shown := s'.run.packets[|s.run.packets|..];
    TimesConcat(q, shown, Unseen(BatchOf(s, a.w), s'.calls[a.w]));
    TimesConcat(q, s.run.packets, shown);
    SeenMoves(s, s', a.w, q);
  }

  /** The packet a call step shows the tracker, if any. */
  function Shown(s: Shared, a: Step): seq<QueuedPacket> {
    if a.ObserveFlow? && a.w < |s.pool.workers| && a.w < |s.calls| && s.calls[a.w].Track? && s.calls[a.w].i < |BatchOf(s, a.w)|
    then [BatchOf(s, a.w)[s.calls[a.w].i]]
    else []
  }

  lemma ShownStep(setup: Setup, s: Shared, a: Step, s': Shared)
    requires SharedNext(setup, s, a, s') && !a.Pool?
    ensures s'.run.packets == s.run.packets + Shown(s, a)
  {
    hide Entropies, EligiblePackets, SignatureAlerts, EntropyAlert, Tracked, Held, AfterFlow;
  }

  /** A call step shows the tracker what it takes from the unseen packets. */
  lemma UnseenStep(setup: Setup, s: Shared, a: Step, s': Shared)
    requires CallsOk(setup, s) && SharedNext(setup, s, a, s') && !a.Pool? && |s'.calls| == |s.calls| && s'.pool == s.pool
    requires a.w < |s.calls|
    ensures s'.run.packets == s.run.packets + s'.run.packets[|s.run.packets|..]
    ensures Unseen(BatchOf(s, a.w), s.calls[a.w]) ==
            s'.run.packets[|s.run.packets|..] + Unseen(BatchOf(s, a.w), s'.calls[a.w])
  {
    ShownStep(setup, s, a, s');
    assert s'.run.packets[|s.run.packets|..] == Shown(s, a);
    UnseenShown(setup, s, a, s');
  }

  lemma UnseenShown(setup: Setup, s: Shared, a: Step, s': Shared)
    requires CallsOk(setup, s) && SharedNext(setup, s, a, s') && !a.Pool? && |s'.calls| == |s.calls|
    requires a.w < |s.calls|
    ensures Unseen(BatchOf(s, a.w), s.calls[a.w]) == Shown(s, a) + Unseen(BatchOf(s, a.w), s'.calls[a.w])
  {
    hide Entropies, EligiblePackets, SignatureAlerts, EntropyAlert, Tracked, Held;
  }

  // --- steps of the pool ---

  lemma CallOfOther(setup: Setup, s: Shared, s': Shared, w: nat)
    requires CallsOk(setup, s) && |s'.pool.workers| == |s.pool.workers| && s'.calls == s.calls && w < |s.calls|
    requires SameHold(s.pool.workers[w], s'.pool.workers[w])
    ensures CallOk(setup, Held(s'.pool.workers[w]), s'.calls[w])
    ensures s'.calls[w] == NoCall <==> !s'.pool.workers[w].Analyzing?
    ensures forall a :: Owed(setup, Held(s'.pool.workers[w]), s'.calls[w], a) == OwedAt(setup, s, w, a)
    ensures forall q :: UnseenAt(s', w, q) == UnseenAt(s, w, q)
  {}

  /** A pool step outside the analysis keeps every call, and what it drains becomes owed and unseen. */
  lemma PoolStepKeepsCalls(setup: Setup, s: Shared, act: Action, s': Shared) returns (w: nat, batch: seq<QueuedPacket>)
    requires CallsOk(setup, s) && SharedNext(setup, s, Pool(act), s') && !act.BeginAnalysis? && !act.EndAnalysis?
    ensures CallsOk(setup, s') && s'.calls == s.calls && s'.sink == s.sink && s'.run == s.run
    ensures forall v, a | 0 <= v < |s.calls| && v != w :: OwedAt(setup, s', v, a) == OwedAt(setup, s, v, a)
    ensures forall v, q | 0 <= v < |s.calls| && v != w :: UnseenAt(s', v, q) == UnseenAt(s, v, q)
    ensures if w < |s.calls|
            then s.calls[w] == NoCall && Held(s.pool.workers[w]) == [] && Held(s'.pool.workers[w]) == batch
                 && s'.pool.drained == if batch == [] then s.pool.drained else s.pool.drained + [batch]
            else s'.pool.drained == s.pool.drained
  {
    hide Next, Held, Owed, Unseen, CallOk;
    if act.PopCall? || act.PopRecheck? || act.PopTimeout? {
      w := act.w;
      batch := PopStepHolds(setup.pool, s.pool, act, s'.pool);
    } else {
      OtherStepHolds(setup.pool, s.pool, act, s'.pool);
      w, batch := |s.calls|, [];
    }
    forall v | 0 <= v < |s.calls| && v != w
      ensures CallOk(setup, Held(s'.pool.workers[v]), s'.calls[v])
      ensures s'.calls[v] == NoCall <==> !s'.pool.workers[v].Analyzing?
      ensures forall a :: Owed(setup, Held(s'.pool.workers[v]), s'.calls[v], a) == OwedAt(setup, s, v, a)
      ensures forall q :: UnseenAt(s', v, q) == UnseenAt(s, v, q)
    {
      CallOfOther(setup, s, s', v);
    }
    if w < |s.calls| {
      NoCallIsOk(setup, batch);
    }
  }

  lemma NoCallIsOk(setup: Setup, held: seq<QueuedPacket>)
    ensures CallOk(setup, held, NoCall)
    ensures forall a :: Owed(setup, held, NoCall, a) == OwedFor(setup, held, a)
    ensures Unseen(held, NoCall) == held
  {}

  lemma SinkUnmoved(setup: Setup, s: Shared, s': Shared, a: Alert)
    requires SinkAccount(setup, s, a) && CallsOk(setup, s') && |s'.calls| == |s.calls|
    requires forall v | 0 <= v < |s.calls| :: OwedAt(setup, s', v, a) == OwedAt(setup, s, v, a)
    requires s'.sink == s.sink && s'.run == s.run && s'.pool.drained == s.pool.drained
    ensures SinkAccount(setup, s', a)
  {
    hide CallsOk, OwedAt, OwedFor, Times, Concat;
    assert AllOwed(setup, s', a) == AllOwed(setup, s, a);
  }

  lemma SeenUnmoved(s: Shared, s': Shared, q: QueuedPacket)
    requires SeenAccount(s, q) && |s'.calls| == |s'.pool.workers| == |s.calls|
    requires forall v | 0 <= v < |s.calls| :: UnseenAt(s', v, q) == UnseenAt(s, v, q)
    requires s'.run == s.run && s'.pool.drained == s.pool.drained
    ensures SeenAccount(s', q)
  {
    hide UnseenAt, Times, Concat;
    assert AllUnseen(s', q) == AllUnseen(s, q);
  }

  /** A batch, once drained, is owed in full. */
  lemma DrainedIsOwed(setup: Setup, drained: seq<seq<QueuedPacket>>, batch: seq<QueuedPacket>, a: Alert)
    ensures OwedFor(setup, Concat(drained + [batch]), a) == OwedFor(setup, Concat(drained), a) + OwedFor(setup, batch, a)
  {
    hide Concat, OwedFor;
    ConcatSnoc(drained, batch);
    OwedForConcat(setup, Concat(drained), batch, a);
  }

  lemma PoolStepSinks(setup: Setup, s: Shared, act: Action, s': Shared, a: Alert)
    requires SinkAccount(setup, s, a) && SharedNext(setup, s, Pool(act), s') && !act.BeginAnalysis? && !act.EndAnalysis?
    ensures SinkAccount(setup, s', a)
  {
    hide SharedNext, OwedFor, Times, Concat, Held, Owed, CallOk, AllOwed;
    var w, batch := PoolStepKeepsCalls(setup, s, act, s');
    hide CallsOk;
    if w < |s.calls| {
      NoCallIsOk(setup, []);
      NoCallIsOk(setup, batch);
      NothingOwed(setup, a);
      DrainedIsOwed(setup, s.pool.drained, batch, a);
      SinkMoves(setup, s, s', w, a);
    } else {
      SinkUnmoved(setup, s, s', a);
    }
  }

  lemma PoolStepSees(setup: Setup, s: Shared, act: Action, s': Shared, q: QueuedPacket)
    requires CallsOk(setup, s) && SeenAccount(s, q)
    requires SharedNext(setup, s, Pool(act), s') && !act.BeginAnalysis? && !act.EndAnalysis?
    ensures SeenAccount(s', q)
  {
    hide SharedNext, Times, Concat, Held, Owed, CallOk, AllUnseen;
    var w, batch := PoolStepKeepsCalls(setup, s, act, s');
    assert |s'.calls| == |s'.pool.workers|;
    hide CallsOk;
    if w < |s.calls| {
      NoCallIsOk(setup, []);
      NoCallIsOk(setup, batch);
      NoTimes(q);
      TimesSnoc(q, s.pool.drained, batch);
      SeenMoves(s, s', w, q);
    } else {
      SeenUnmoved(s, s', q);
    }
  }

  // --- beginning and ending a call ---

  /** Beginning a call owes the whole batch; ending one owes nothing. */
  lemma AnalysisStepKeepsCalls(setup: Setup, s: Shared, act: Action, s': Shared)
    requires CallsOk(setup, s) && SharedNext(setup, s, Pool(act), s') && (act.BeginAnalysis? || act.EndAnalysis?)
    ensures CallsOk(setup, s') && |s'.calls| == |s.calls| && act.w < |s.calls|
    ensures s'.sink == s.sink && s'.run == s.run && s'.pool.drained == s.pool.drained
    ensures forall v | 0 <= v < |s.calls| && v != act.w ::
              s'.calls[v] == s.calls[v] && s'.pool.workers[v] == s.pool.workers[v]
    ensures act.BeginAnalysis? ==>
              s.calls[act.w] == NoCall && s'.calls[act.w] == Match(0) && BatchOf(s', act.w) == BatchOf(s, act.w)
    ensures act.EndAnalysis? ==>
              Complete(setup, BatchOf(s, act.w), s.calls[act.w]) && s'.calls[act.w] == NoCall && BatchOf(s', act.w) == []
  {
    hide Entropies, EligiblePackets, Concat;
  }

  lemma AnalysisStepOwed(setup: Setup, s: Shared, act: Action, s': Shared, a: Alert)
    requires CallsOk(setup, s) && SharedNext(setup, s, Pool(act), s') && (act.BeginAnalysis? || act.EndAnalysis?)
    ensures CallsOk(setup, s') && |s'.calls| == |s.calls| && act.w < |s.calls|
    ensures OwedAt(setup, s', act.w, a) == OwedAt(setup, s, act.w, a)
    ensures forall q :: UnseenAt(s', act.w, q) == UnseenAt(s, act.w, q)
  {
    AnalysisStepKeepsCalls(setup, s, act, s');
    hide SharedNext, Times, AllSignatureAlerts, AllEntropyAlerts, Entropies, EligiblePackets, Held;
    var held := BatchOf(s, act.w);
    if act.BeginAnalysis? {
      assert held[0..] == held;
    } else {
      NothingOwed(setup, a);
      NoTimes(a);
    }
  }

  lemma AnalysisStepSinks(setup: Setup, s: Shared, act: Action, s': Shared, a: Alert)
    requires SinkAccount(setup, s, a) && SharedNext(setup, s, Pool(act), s') && (act.BeginAnalysis? || act.EndAnalysis?)
    ensures SinkAccount(setup, s', a)
  {
    AnalysisStepKeepsCalls(setup, s, act, s');
    AnalysisStepOwed(setup, s, act, s', a);
    hide SharedNext, OwedFor, Times, Concat, Owed, AllOwed, CallsOk;
    SinkUnmoved(setup, s, s', a);
  }

  lemma AnalysisStepSees(setup: Setup, s: Shared, act: Action, s': Shared, q: QueuedPacket)
    requires CallsOk(setup, s) && SeenAccount(s, q)
    requires SharedNext(setup, s, Pool(act), s') && (act.BeginAnalysis? || act.EndAnalysis?)
    ensures SeenAccount(s', q)
  {
    AnalysisStepKeepsCalls(setup, s, act, s');
    AnalysisStepOwed(setup, s, act, s', AlertFor(SignatureMatch, q, KnownBadHash));
    assert |s'.calls| == |s'.pool.workers|;
    hide SharedNext, Times, Concat, Unseen, AllUnseen, CallsOk;
    SeenUnmoved(s, s', q);
  }

  // --- the invariant ---

  ghost predicate SharedInv(setup: Setup, s: Shared) {
    && Inv(setup.pool, s.pool)
    && CallsOk(setup, s)
    && (forall a :: SinkAccount(setup, s, a))
    && (forall q :: SeenAccount(s, q))
    && FlowRuns.IsRun(setup.flow, setup.hash, s.run)
  }

  lemma StartsInv(setup: Setup, s: Shared)
    requires Starts(setup, s)
    ensures SharedInv(setup, s)
  {
    InitInv(setup.pool, s.pool);
    assert forall w | 0 <= w < |s.calls| :: s.calls[w] in s.calls && s.pool.workers[w] in s.pool.workers;
    assert CallsOk(setup, s);
    forall a ensures SinkAccount(setup, s, a) {
      NothingOwed(setup, a);
      SumOfNothing(AllOwed(setup, s, a));
    }
    forall q ensures SeenAccount(s, q) {
      SumOfNothing(AllUnseen(s, q));
    }
  }

  lemma SharedNextSinks(setup: Setup, s: Shared, a: Step, s': Shared, alert: Alert)
    requires SinkAccount(setup, s, alert) && SharedNext(setup, s, a, s')
    ensures SinkAccount(setup, s', alert)
  {
    hide SharedNext, SinkAccount;
    if a.Pool? {
      if a.a.BeginAnalysis? || a.a.EndAnalysis? {
        AnalysisStepSinks(setup, s, a.a, s', alert);
      } else {
        PoolStepSinks(setup, s, a.a, s', alert);
      }
    } else {
      CallStepSinks(setup, s, a, s', alert);
    }
  }

  lemma SharedNextSees(setup: Setup, s: Shared, a: Step, s': Shared, q: QueuedPacket)
    requires CallsOk(setup, s) && SeenAccount(s, q) && SharedNext(setup, s, a, s')
    ensures SeenAccount(s', q)
  {
    hide SharedNext, SeenAccount, CallsOk;
    if a.Pool? {
      if a.a.BeginAnalysis? || a.a.EndAnalysis? {
        AnalysisStepSees(setup, s, a.a, s', q);
      } else {
        PoolStepSees(setup, s, a.a, s', q);
      }
    } else {
      CallStepSees(setup, s, a, s', q);
    }
  }

  lemma SharedNextCalls(setup: Setup, s: Shared, a: Step, s': Shared)
    requires CallsOk(setup, s) && SharedNext(setup, s, a, s')
    ensures CallsOk(setup, s')
  {
    hide SharedNext, CallsOk;
    if a.Pool? {
      if a.a.BeginAnalysis? || a.a.EndAnalysis? {
        AnalysisStepKeepsCalls(setup, s, a.a, s');
      } else {
        var w, batch := PoolStepKeepsCalls(setup, s, a.a, s');
      }
    } else {
      CallStepKeepsCalls(setup, s, a, s');
    }
  }

  lemma SharedNextRun(setup: Setup, s: Shared, a: Step, s': Shared)
    requires FlowRuns.IsRun(setup.flow, setup.hash, s.run) && SharedNext(setup, s, a, s')
    ensures FlowRuns.IsRun(setup.flow, setup.hash, s'.run)
  {
    hide FlowModel.TrackerStep, Next, CallsFollow, Held, AfterFlow, Entropies, EligiblePackets;
    if a.ObserveFlow? {
      FlowRuns.ExtendedIsRun(setup.flow, setup.hash, s.run, BatchOf(s, a.w)[s.calls[a.w].i], a.t, a.alerts);
    }
  }

  lemma SharedNextPool(setup: Setup, s: Shared, a: Step, s': Shared)
    requires SharedNext(setup, s, a, s')
    ensures if a.Pool? then Next(setup.pool, s.pool, a.a, s'.pool) else s'.pool == s.pool
  {
    hide Next, CallsFollow, Held, AfterFlow, Entropies, EligiblePackets, Tracked;
  }

  lemma SharedNextInv(setup: Setup, s: Shared, a: Step, s': Shared)
    requires ValidConfig(setup.pool) && SharedInv(setup, s) && SharedNext(setup, s, a, s')
    ensures SharedInv(setup, s')
  {
    hide SharedNext, CallsOk, SinkAccount, SeenAccount, Inv, FlowRuns.IsRun, Next;
    SharedNextPool(setup, s, a, s');
    if a.Pool? {
      NextInv(setup.pool, s.pool, a.a, s'.pool);
    }
    SharedNextCalls(setup, s, a, s');
    SharedNextRun(setup, s, a, s');
    forall alert ensures SinkAccount(setup, s', alert) {
      SharedNextSinks(setup, s, a, s', alert);
    }
    forall q ensures SeenAccount(s', q) {
      SharedNextSees(setup, s, a, s', q);
    }
  }

  lemma {:induction false} SharedTraceInv(setup: Setup, tr: SharedTrace, n: nat)
    requires ValidConfig(setup.pool) && IsSharedTrace(setup, tr) && n <= |tr.steps|
    ensures SharedInv(setup, tr.states[n])
  {
    hide SharedInv, SharedNext, Starts;
    if n == 0 {
      StartsInv(setup, tr.states[0]);
    } else {
      SharedTraceInv(setup, tr, n - 1);
      SharedNextInv(setup, tr.states[n - 1], tr.steps[n - 1], tr.states[n]);
    }
  }

  // --- once all workers have exited ---

  ghost predicate AllExited(s: Shared) { s.pool.workers != [] && forall w <- s.pool.workers :: w == Exited }

  lemma ExitedOweNothing(setup: Setup, s: Shared, a: Alert)
    requires CallsOk(setup, s) && AllExited(s)
    ensures SumOf(AllOwed(setup, s, a)) == 0
  {
    assert forall w | 0 <= w < |s.calls| :: s.pool.workers[w] in s.pool.workers;
    NothingOwed(setup, a);
    hide OwedFor;
    SumOfNothing(AllOwed(setup, s, a));
  }

  lemma ExitedHideNothing(setup: Setup, s: Shared, q: QueuedPacket)
    requires CallsOk(setup, s) && AllExited(s)
    ensures SumOf(AllUnseen(s, q)) == 0
  {
    assert forall w | 0 <= w < |s.calls| :: s.pool.workers[w] in s.pool.workers;
    NoTimes(q);
    hide Times;
    SumOfNothing(AllUnseen(s, q));
  }

  lemma ExitedDrained(setup: Setup, s: Shared)
    requires SharedInv(setup, s) && AllExited(s)
    ensures Concat(s.pool.drained) == s.pool.accepted
  {
    hide CallsOk, SinkAccount, SeenAccount, FlowRuns.IsRun, Concat, NoLostWakeup, Counted;
    assert s.pool.workers[0] in s.pool.workers;
  }

  /** However the threads were timed, down to single packets and alerts, and whichever batches fell back: once
      every worker has exited, the sink has received, as a bag, the signature and entropy alerts of the accepted
      packets taken one at a time, and what the tracker raised on some reordering of them. */
  lemma SinkIsAccounted(setup: Setup, tr: SharedTrace, n: nat)
    requires ValidConfig(setup.pool) && IsSharedTrace(setup, tr) && n <= |tr.steps| && AllExited(tr.states[n])
    ensures var s := tr.states[n];
            && multiset(s.sink) ==
               multiset(AllSignatureAlerts(setup.known, s.pool.accepted)
                        + AllEntropyAlerts(setup.engine, setup.term, s.pool.accepted) + Concat(s.run.alerts))
            && FlowRuns.IsRun(setup.flow, setup.hash, s.run)
            && multiset(s.run.packets) == multiset(s.pool.accepted)
  {
    SharedTraceInv(setup, tr, n);
    var s := tr.states[n];
    ExitedDrained(setup, s);
    hide IsSharedTrace, Inv, FlowRuns.IsRun, CallsOk, Times, AllExited, Concat, AllSignatureAlerts, AllEntropyAlerts;
    var signatures := AllSignatureAlerts(setup.known, s.pool.accepted);
    var entropies := AllEntropyAlerts(setup.engine, setup.term, s.pool.accepted);
    forall a ensures Times(a, s.sink) == Times(a, signatures + entropies + Concat(s.run.alerts)) {
      assert SinkAccount(setup, s, a);
      ExitedOweNothing(setup, s, a);
      TimesConcat(a, signatures, entropies);
      TimesConcat(a, signatures + entropies, Concat(s.run.alerts));
    }
    SameTimes(s.sink, signatures + entropies + Concat(s.run.alerts));
    forall q ensures Times(q, s.run.packets) == Times(q, s.pool.accepted) {
      assert SeenAccount(s, q);
      ExitedHideNothing(setup, s, q);
    }
    SameTimes(s.run.packets, s.pool.accepted);
  }

  // --- the analysis ends, and nobody gets stuck ---

  /** How many steps a call can still take: four a packet, one to take the entropies, one an eligible packet. */
  function CallLeft(setup: Setup, held: seq<QueuedPacket>, c: Call): int {
    var eligible := |EligiblePackets(setup.engine, held)|;
    match c
    case NoCall => 0
    case Match(i) => 4 * (|held| - i) + 1 + eligible
    case Track(i) => 4 * (|held| - i) + eligible
    case SinkFlow(i, rest) => 4 * (|held| - i - 1) + 1 + eligible + |rest|
    case Raise(_, j) => eligible - j
  }

  /** An observation raises at most one alert a flow rule. */
  lemma FewFlowAlerts(setup: Setup, run: FlowRuns.Run, p: QueuedPacket, t: FlowModel.Tracker, alerts: seq<Alert>)
    requires Tracked(setup, run, p, t, alerts)
    ensures |alerts| <= 2
  {
    hide FlowModel.Swept, FlowModel.ObservePort, FlowModel.ObserveSyn;
    var before := run.states[|run.states| - 1];
    if p.meta.hasIp && before != [] {
      var records := before[FlowModel.ShardIndex(setup.hash, |before|, p.meta.srcIp)].perIp;
      TwoAtMost(setup.flow, FlowModel.RecordOf(records, p.meta.srcIp), p);
    }
  }

  lemma TwoAtMost(cfg: FlowModel.Config, r: FlowModel.IpRecord, p: QueuedPacket)
    ensures |FlowModel.ObserveRecord(cfg, r, p).alerts| <= 2
  {}

  /** Every step of a call brings it closer to its end. */
  lemma AnalysisRunsOut(setup: Setup, s: Shared, a: Step, s': Shared)
    requires CallsOk(setup, s) && SharedNext(setup, s, a, s') && !a.Pool?
    ensures a.w < |s.calls| && |s'.calls| == |s.calls|
    ensures 0 <= CallLeft(setup, BatchOf(s, a.w), s'.calls[a.w]) < CallLeft(setup, BatchOf(s, a.w), s.calls[a.w])
  {
    hide Entropies, EligiblePackets, SignatureAlerts, EntropyAlert, Tracked, Held;
    if a.ObserveFlow? {
      FewFlowAlerts(setup, s.run, BatchOf(s, a.w)[s.calls[a.w].i], a.t, a.alerts);
    }
  }

  function StepWorker(a: Step): Option<nat> {
    match a
    case Pool(act) => if IsWorkerStep(act) then Some(WorkerOf(act)) else None
    case _ => Some(a.w)
  }

  ghost predicate SharedEnabled(setup: Setup, s: Shared, w: nat) {
    exists a, s' :: StepWorker(a) == Some(w) && SharedNext(setup, s, a, s')
  }

  lemma CallHasStep(setup: Setup, s: Shared, w: nat)
    requires CallsOk(setup, s) && w < |s.calls| && s.calls[w] != NoCall && s.run.states != []
    ensures SharedEnabled(setup, s, w)
  {
    var batch, c := BatchOf(s, w), s.calls[w];
    var last := s.run.states[|s.run.states| - 1];
    hide FlowModel.TrackerStep, SignatureAlerts, EntropyAlert, Entropies, Held;
    if c.Match? && c.i < |batch| {
      var s' := s.(calls := s.calls[w := Track(c.i)], sink := s.sink + SignatureAlerts(setup.known, batch[c.i]));
      assert SharedNext(setup, s, MatchSignature(w), s') && StepWorker(MatchSignature(w)) == Some(w);
    } else if c.Match? {
      var eligible := EligibleOf(setup, s, w);
      var s' := s.(calls := s.calls[w := Raise(Entropies(eligible, setup.term), 0)],
                   fallbacks := if eligible == [] then s.fallbacks else s.fallbacks + 1);
      var a := TakeEntropies(w, NullStart);
      assert SharedNext(setup, s, a, s') && StepWorker(a) == Some(w);
    } else if c.Track? {
      var t, alerts := FlowSources.StepExists(setup.flow, setup.hash, last, batch[c.i]);
      var a := ObserveFlow(w, t, alerts);
      var s' := s.(calls := s.calls[w := AfterFlow(c.i, alerts)], run := FlowRuns.Extended(s.run, batch[c.i], t, alerts));
      assert SharedNext(setup, s, a, s') && StepWorker(a) == Some(w);
    } else if c.SinkFlow? {
      var s' := s.(calls := s.calls[w := AfterFlow(c.i, c.rest[1..])], sink := s.sink + [c.rest[0]]);
      assert SharedNext(setup, s, SinkOne(w), s') && StepWorker(SinkOne(w)) == Some(w);
    } else if c.j < |EligibleOf(setup, s, w)| {
      var s' := s.(calls := s.calls[w := Raise(c.values, c.j + 1)],
                   sink := s.sink + EntropyAlert(setup.engine, EligibleOf(setup, s, w)[c.j], c.values[c.j]));
      assert SharedNext(setup, s, RaiseOne(w), s') && StepWorker(RaiseOne(w)) == Some(w);
    } else {
      EndsCall(setup, s, w);
    }
  }

  lemma EndsCall(setup: Setup, s: Shared, w: nat)
    requires CallsOk(setup, s) && w < |s.calls| && Complete(setup, BatchOf(s, w), s.calls[w])
    ensures SharedEnabled(setup, s, w)
  {
    hide EligiblePackets, Entropies;
    var batch := s.pool.workers[w].batch;
    var pool := s.pool.(workers := s.pool.workers[w := Start], processed := s.pool.processed + |batch|,
                        batches := s.pool.batches + 1, analyzed := s.pool.analyzed + [batch]);
    var s' := s.(pool := pool, calls := s.calls[w := NoCall]);
    assert SharedNext(setup, s, Pool(EndAnalysis(w)), s') && StepWorker(Pool(EndAnalysis(w))) == Some(w);
  }

  /** In every reachable state each worker that has not exited has a step to take, in the pool or in its call. */
  lemma NobodyIsStuck(setup: Setup, s: Shared, w: nat)
    requires SharedInv(setup, s) && w < |s.pool.workers| && s.pool.workers[w] != Exited
    ensures SharedEnabled(setup, s, w)
  {
    hide Inv, SinkAccount, SeenAccount, FlowModel.TrackerStep;
    if s.calls[w] != NoCall {
      CallHasStep(setup, s, w);
    } else {
      WorkersAreNeverStuck(setup.pool, s.pool, w);
      PoolHasStep(setup, s, w);
    }
  }

  lemma PoolHasStep(setup: Setup, s: Shared, w: nat)
    requires CallsOk(setup, s) && w < |s.calls| && s.calls[w] == NoCall && WorkerEnabled(setup.pool, s.pool, w)
    ensures SharedEnabled(setup, s, w)
  {
    var act, pool :| IsWorkerStep(act) && WorkerOf(act) == w && Next(setup.pool, s.pool, act, pool);
    NotEnding(setup, s, act, pool);
    hide Next, CallOk;
    var s' := s.(pool := pool, calls := if act.BeginAnalysis? then s.calls[w := Match(0)] else s.calls);
    assert SharedNext(setup, s, Pool(act), s') && StepWorker(Pool(act)) == Some(w);
  }

  lemma NotEnding(setup: Setup, s: Shared, act: Action, pool: State)
    requires CallsOk(setup, s) && Next(setup.pool, s.pool, act, pool) && IsWorkerStep(act) && WorkerOf(act) < |s.calls|
    requires s.calls[WorkerOf(act)] == NoCall
    ensures !act.EndAnalysis?
  {
    hide PopLocked, DrainLocked, CallOk;
  }

  lemma CallLeftIsNat(setup: Setup, held: seq<QueuedPacket>, c: Call)
    requires CallOk(setup, held, c)
    ensures CallLeft(setup, held, c) >= 0
  {
    hide Entropies, EligiblePackets;
  }

  function AllLeft(setup: Setup, s: Shared): (v: seq<nat>)
    requires CallsOk(setup, s)
    ensures |v| == |s.calls|
    ensures forall w | 0 <= w < |v| :: v[w] == CallLeft(setup, Held(s.pool.workers[w]), s.calls[w])
  {
    seq(|s.calls|, w requires 0 <= w < |s.calls| =>
      CallLeftIsNat(setup, Held(s.pool.workers[w]), s.calls[w]);
      CallLeft(setup, Held(s.pool.workers[w]), s.calls[w]))
  }

  /** After shutdown the workers run out of steps, in lexicographic order: a worker's step lowers the pool's measure,
      or leaves the pool alone and shortens a call; nobody else's step raises either. */
  lemma SharedStepsRunOut(setup: Setup, s: Shared, a: Step, s': Shared)
    requires ValidConfig(setup.pool) && s.pool.queue.shutdown && CallsOk(setup, s) && SharedNext(setup, s, a, s')
    ensures CallsOk(setup, s')
    ensures if !a.Pool? then s'.pool == s.pool && SumOf(AllLeft(setup, s')) < SumOf(AllLeft(setup, s))
            else if IsWorkerStep(a.a) then Remaining(s'.pool) < Remaining(s.pool)
            else Remaining(s'.pool) == Remaining(s.pool) && s'.calls == s.calls
  {
    SharedNextCalls(setup, s, a, s');
    SharedNextPool(setup, s, a, s');
    if a.Pool? {
      StepsRunOut(setup.pool, s.pool, a.a, s'.pool);
      if !IsWorkerStep(a.a) {
        OtherCallsStay(setup, s, a.a, s');
      }
    } else {
      CallStepKeepsCalls(setup, s, a, s');
      AnalysisRunsOut(setup, s, a, s');
      hide SharedNext, CallsOk, CallLeft, Held;
      SumChanged(AllLeft(setup, s), AllLeft(setup, s'), a.w);
    }
  }

  lemma OtherCallsStay(setup: Setup, s: Shared, act: Action, s': Shared)
    requires SharedNext(setup, s, Pool(act), s') && !IsWorkerStep(act)
    ensures s'.calls == s.calls
  {
    hide Next;
  }

  /** So when no worker has a step left, all have exited, and SinkIsAccounted says what the sink has received. */
  lemma SharedQuietMeansDone(setup: Setup, tr: SharedTrace, n: nat)
    requires ValidConfig(setup.pool) && IsSharedTrace(setup, tr) && n <= |tr.steps| && tr.states[n].pool.workers != []
    requires forall w | 0 <= w < |tr.states[n].pool.workers| :: !SharedEnabled(setup, tr.states[n], w)
    ensures AllExited(tr.states[n])
  {
    hide SharedNext, Starts, SharedInv, SharedEnabled;
    SharedTraceInv(setup, tr, n);
    var s := tr.states[n];
    forall worker <- s.pool.workers ensures worker == Exited {
      var w :| 0 <= w < |s.pool.workers| && s.pool.workers[w] == worker;
      if worker != Exited {
        NobodyIsStuck(setup, s, w);
      }
    }
  }
}
