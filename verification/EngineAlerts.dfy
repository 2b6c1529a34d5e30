/** What the sink receives, field by field: which packets raise a signature or an entropy alert, and what the alert
    says of them. */
module EngineAlerts {
  import opened Packets
  import opened Entropy
  import opened Sequences
  import opened Signatures
  import opened AnalysisEngine
  import opened WorkerPool
  import opened WorkerProofs
  import opened SharedAnalysis
  import opened Delivery
  import opened SharedProofs

  /** The packet carries a known payload between the ends that `a` names. */
  predicate Carries(known: set<Word>, p: QueuedPacket, a: Alert) {
    && p.payload != [] && Fnv1a(p.payload) in known
    && a.kind == SignatureMatch && a.detail == KnownBadHash
    && a.srcIp == p.meta.srcIp && a.dstIp == p.meta.dstIp
    && a.srcPort == p.meta.srcPort && a.dstPort == p.meta.dstPort
  }

  function Carriers(known: set<Word>, packets: seq<QueuedPacket>, a: Alert): set<nat> {
    set i: nat | i < |packets| && Carries(known, packets[i], a)
  }

  /** The packet's payload is long enough and has the entropy, at least the threshold, that `a` reports. */
  predicate IsDense(cfg: AnalysisConfig, term: Term, p: QueuedPacket, a: Alert) {
    && |p.payload| >= cfg.entropyMinPayloadBytes
    && Shannon(p.payload, term) >= cfg.entropyThreshold
    && a.kind == HighEntropyPayload && a.detail == EntropyOver(Shannon(p.payload, term), |p.payload|)
    && a.srcIp == p.meta.srcIp && a.dstIp == p.meta.dstIp
    && a.srcPort == p.meta.srcPort && a.dstPort == p.meta.dstPort
  }

  function Dense(cfg: AnalysisConfig, term: Term, packets: seq<QueuedPacket>, a: Alert): set<nat> {
    set i: nat | i < |packets| && IsDense(cfg, term, packets[i], a)
  }

  lemma OneSignature(known: set<Word>, p: QueuedPacket, a: Alert)
    ensures Times(a, SignatureAlerts(known, p)) == if Carries(known, p, a) then 1 else 0
  {
    hide Fnv1a;
  }

  lemma OneEntropy(cfg: AnalysisConfig, term: Term, p: QueuedPacket, a: Alert)
    ensures Times(a, EntropyAlerts(cfg, term, p)) == if IsDense(cfg, term, p, a) then 1 else 0
  {
    hide Shannon;
  }

  lemma {:induction false} SignaturesPerCarrier(known: set<Word>, packets: seq<QueuedPacket>, a: Alert)
    ensures Times(a, AllSignatureAlerts(known, packets)) == |Carriers(known, packets, a)|
  {
    hide Carries, SignatureAlerts;
    if packets == [] {
      assert Carriers(known, packets, a) == {};
    } else {
      var n := |packets| - 1;
      SignaturesPerCarrier(known, packets[..n], a);
      OneSignature(known, packets[n], a);
      TimesConcat(a, AllSignatureAlerts(known, packets[..n]), SignatureAlerts(known, packets[n]));
      assert Carriers(known, packets, a) ==
             Carriers(known, packets[..n], a) + if Carries(known, packets[n], a) then {n} else {};
    }
  }

  lemma {:induction false} EntropiesPerDense(cfg: AnalysisConfig, term: Term, packets: seq<QueuedPacket>, a: Alert)
    ensures Times(a, AllEntropyAlerts(cfg, term, packets)) == |Dense(cfg, term, packets, a)|
  {
    hide IsDense, EntropyAlerts;
    if packets == [] {
      assert Dense(cfg, term, packets, a) == {};
    } else {
      var n := |packets| - 1;
      EntropiesPerDense(cfg, term, packets[..n], a);
      OneEntropy(cfg, term, packets[n], a);
      TimesConcat(a, AllEntropyAlerts(cfg, term, packets[..n]), EntropyAlerts(cfg, term, packets[n]));
      assert Dense(cfg, term, packets, a) ==
             Dense(cfg, term, packets[..n], a) + if IsDense(cfg, term, packets[n], a) then {n} else {};
    }
  }

  /** Whatever calls were made on an engine, its sink has received each signature alert as often as there are
      packets to raise it: with a payload whose hash is known, and the alert's addresses and ports. */
  lemma SinkSignatures(engine: AnalysisEngine, a: Alert)
    requires engine.Valid() && a.kind == SignatureMatch
    ensures Times(a, engine.sink) == |Carriers(engine.signatures.knownBadHashes, Concat(engine.batches), a)|
    ensures a in engine.sink <==>
            && a.detail == KnownBadHash
            && exists p <- Concat(engine.batches) ::
                 && p.payload != [] && Fnv1a(p.payload) in engine.signatures.knownBadHashes
                 && p.meta.srcIp == a.srcIp && p.meta.dstIp == a.dstIp
                 && p.meta.srcPort == a.srcPort && p.meta.dstPort == a.dstPort
  {
    hide OfKind, Concat, AllSignatureAlerts, Output, Carriers;
    var known, packets := engine.signatures.knownBadHashes, Concat(engine.batches);
    engine.SinkIsPerPacket(SignatureMatch);
    TimesOfKind(engine.sink, SignatureMatch, a);
    SignaturesPerCarrier(known, packets, a);
    SomeCarrier(known, packets, a);
  }

  lemma SomeCarrier(known: set<Word>, packets: seq<QueuedPacket>, a: Alert)
    requires a.kind == SignatureMatch
    ensures |Carriers(known, packets, a)| > 0 <==>
            && a.detail == KnownBadHash
            && exists p <- packets ::
                 && p.payload != [] && Fnv1a(p.payload) in known
                 && p.meta.srcIp == a.srcIp && p.meta.dstIp == a.dstIp
                 && p.meta.srcPort == a.srcPort && p.meta.dstPort == a.dstPort
  {
    hide Fnv1a;
    if |Carriers(known, packets, a)| > 0 {
      var i :| i in Carriers(known, packets, a);
      assert packets[i] in packets;
    }
    if p :| p in packets && p.payload != [] && Fnv1a(p.payload) in known && p.meta.srcIp == a.srcIp
            && p.meta.dstIp == a.dstIp && p.meta.srcPort == a.srcPort && p.meta.dstPort == a.dstPort {
      var i: nat :| i < |packets| && packets[i] == p;
      assert a.detail == KnownBadHash ==> i in Carriers(known, packets, a);
    }
  }

  /** And each entropy alert as often as there are packets to raise it: with a payload of at least the configured
      length and entropy, both of them reported, and the alert's addresses and ports. */
  lemma SinkEntropies(engine: AnalysisEngine, a: Alert)
    requires engine.Valid() && a.kind == HighEntropyPayload
    ensures Times(a, engine.sink) == |Dense(engine.cfg, engine.term, Concat(engine.batches), a)|
    ensures a in engine.sink <==>
            exists p <- Concat(engine.batches) ::
              && |p.payload| >= engine.cfg.entropyMinPayloadBytes
              && Shannon(p.payload, engine.term) >= engine.cfg.entropyThreshold
              && a.detail == EntropyOver(Shannon(p.payload, engine.term), |p.payload|)
              && p.meta.srcIp == a.srcIp && p.meta.dstIp == a.dstIp
              && p.meta.srcPort == a.srcPort && p.meta.dstPort == a.dstPort
  {
    hide OfKind, Concat, AllEntropyAlerts, Output, Dense;
    var packets := Concat(engine.batches);
    engine.SinkIsPerPacket(HighEntropyPayload);
    TimesOfKind(engine.sink, HighEntropyPayload, a);
    EntropiesPerDense(engine.cfg, engine.term, packets, a);
    SomeDense(engine.cfg, engine.term, packets, a);
  }

  lemma SomeDense(cfg: AnalysisConfig, term: Term, packets: seq<QueuedPacket>, a: Alert)
    requires a.kind == HighEntropyPayload
    ensures |Dense(cfg, term, packets, a)| > 0 <==>
            exists p <- packets ::
              && |p.payload| >= cfg.entropyMinPayloadBytes && Shannon(p.payload, term) >= cfg.entropyThreshold
              && a.detail == EntropyOver(Shannon(p.payload, term), |p.payload|)
              && p.meta.srcIp == a.srcIp && p.meta.dstIp == a.dstIp
              && p.meta.srcPort == a.srcPort && p.meta.dstPort == a.dstPort
  {
    hide Shannon;
    if |Dense(cfg, term, packets, a)| > 0 {
      var i :| i in Dense(cfg, term, packets, a);
      assert packets[i] in packets;
    }
    if p :| && p in packets && |p.payload| >= cfg.entropyMinPayloadBytes && Shannon(p.payload, term) >= cfg.entropyThreshold
            && a.detail == EntropyOver(Shannon(p.payload, term), |p.payload|) && p.meta.srcIp == a.srcIp
            && p.meta.dstIp == a.dstIp && p.meta.srcPort == a.srcPort && p.meta.dstPort == a.dstPort {
      var i: nat :| i < |packets| && packets[i] == p;
      assert i in Dense(cfg, term, packets, a);
    }
  }

  /** The same behind the worker pool, for the packets the queue accepted, once every worker has exited. */
  lemma PoolSink(setup: Setup, tr: SharedTrace, n: nat, a: Alert)
    requires ValidConfig(setup.pool) && IsSharedTrace(setup, tr) && n <= |tr.steps| && AllExited(tr.states[n])
    ensures a.kind == SignatureMatch ==>
              Times(a, tr.states[n].sink) == |Carriers(setup.known, tr.states[n].pool.accepted, a)|
    ensures a.kind == HighEntropyPayload ==>
              Times(a, tr.states[n].sink) == |Dense(setup.engine, setup.term, tr.states[n].pool.accepted, a)|
  {
    TimingDoesNotMatter(setup, tr, n);
    hide IsSharedTrace, OfKind, AllSignatureAlerts, AllEntropyAlerts, AllExited, Carriers, Dense;
    var s := tr.states[n];
    TimesOfKind(s.sink, a.kind, a);
    SignaturesPerCarrier(setup.known, s.pool.accepted, a);
    EntropiesPerDense(setup.engine, setup.term, s.pool.accepted, a);
  }

  // --- failed backends ---

  /** The packets of a batch, by position, whose entropy is wanted. */
  function LongEnough(cfg: AnalysisConfig, batch: seq<QueuedPacket>): set<nat> {
    set i: nat | i < |batch| && |batch[i].payload| >= cfg.entropyMinPayloadBytes
  }

  lemma {:induction false} EligibleAreLongEnough(cfg: AnalysisConfig, batch: seq<QueuedPacket>)
    ensures |EligiblePackets(cfg, batch)| == |LongEnough(cfg, batch)|
  {
    if batch != [] {
      var n := |batch| - 1;
      EligibleAreLongEnough(cfg, batch[..n]);
      var before, now := LongEnough(cfg, batch[..n]), LongEnough(cfg, batch);
      assert now == before + if |batch[n].payload| >= cfg.entropyMinPayloadBytes then {n} else {};
    }
  }

  /** Entropies were wanted and the backend did not give exactly one each. */
  predicate LeftUnanswered(cfg: AnalysisConfig, batch: seq<QueuedPacket>, outcome: Outcome) {
    && LongEnough(cfg, batch) != {}
    && !(outcome.Returned? && |outcome.values| == |LongEnough(cfg, batch)|)
  }

  function Unanswered(cfg: AnalysisConfig, batches: seq<seq<QueuedPacket>>, outcomes: seq<Outcome>): set<nat>
    requires |batches| == |outcomes|
  {
    set i: nat | i < |batches| && LeftUnanswered(cfg, batches[i], outcomes[i])
  }

  lemma FallsBackIff(cfg: AnalysisConfig, batch: seq<QueuedPacket>, outcome: Outcome)
    ensures FallsBack(cfg, batch, outcome) <==> LeftUnanswered(cfg, batch, outcome)
  {
    EligibleAreLongEnough(cfg, batch);
    hide EligiblePackets, LongEnough;
  }

  lemma {:induction false} FailedAreUnanswered(cfg: AnalysisConfig, batches: seq<seq<QueuedPacket>>, outcomes: seq<Outcome>)
    requires |batches| == |outcomes|
    ensures FailedBatches(cfg, batches, outcomes) == |Unanswered(cfg, batches, outcomes)|
  {
    hide FallsBack, LeftUnanswered, Unanswered;
    if batches == [] {
      assert Unanswered(cfg, batches, outcomes) == {} by { NoneUnanswered(cfg); }
    } else {
      var n := |batches| - 1;
      FailedAreUnanswered(cfg, batches[..n], outcomes[..n]);
      FallsBackIff(cfg, batches[n], outcomes[n]);
      LastUnanswered(cfg, batches, outcomes);
    }
  }

  lemma NoneUnanswered(cfg: AnalysisConfig)
    ensures Unanswered(cfg, [], []) == {}
  {}

  lemma LastUnanswered(cfg: AnalysisConfig, batches: seq<seq<QueuedPacket>>, outcomes: seq<Outcome>)
    requires |batches| == |outcomes| && batches != []
    ensures var n := |batches| - 1;
            |Unanswered(cfg, batches, outcomes)| ==
            |Unanswered(cfg, batches[..n], outcomes[..n])| + if LeftUnanswered(cfg, batches[n], outcomes[n]) then 1 else 0
  {
    hide LeftUnanswered;
    var n := |batches| - 1;
    assert Unanswered(cfg, batches, outcomes) ==
           Unanswered(cfg, batches[..n], outcomes[..n])
           + if LeftUnanswered(cfg, batches[n], outcomes[n]) then {n} else {};
  }

  /** The fallback counter counts the batches the backend left unanswered. */
  lemma FallbacksAreUnanswered(engine: AnalysisEngine)
    requires engine.Valid()
    ensures engine.fallbacks == |Unanswered(engine.cfg, engine.batches, engine.outcomes)|
  {
    hide Output, Concat;
    FailedAreUnanswered(engine.cfg, engine.batches, engine.outcomes);
  }

  /** So does the counter the workers share: only taking the values of a batch left unanswered raises it, by one. */
  lemma SharedFallbacks(setup: Setup, s: Shared, a: Step, s': Shared)
    requires SharedNext(setup, s, a, s')
    ensures a.TakeEntropies? ==> InCall(s, a.w)
    ensures s'.fallbacks == s.fallbacks +
              if a.TakeEntropies? && LeftUnanswered(setup.engine, BatchOf(s, a.w), a.outcome) then 1 else 0
  {
    hide Next, Tracked, LeftUnanswered;
    if a.TakeEntropies? {
      FallsBackIff(setup.engine, BatchOf(s, a.w), a.outcome);
    }
  }

  /** What the engine asks of a backend: if it answers one value each, they are the entropies. A wrong number of
      values, or none, is always allowed. */
  lemma AgreementIff(outcome: Outcome, eligible: seq<QueuedPacket>, term: Term)
    ensures AgreesWithCpu(outcome, eligible, term) <==>
            (outcome.Returned? && |outcome.values| == |eligible| ==>
               forall i | 0 <= i < |eligible| :: outcome.values[i] == Shannon(eligible[i].payload, term))
  {
    hide Shannon;
  }
}
