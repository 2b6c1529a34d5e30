/** Batch analysis: signature and flow alerts as packets are scanned, then the batch's entropy alerts, with
    the CPU standing in when the configured backend fails. */
module AnalysisEngine {
  import opened Packets
  import opened Entropy
  import opened Sequences
  import opened Signatures
  import FlowModel
  import FlowRules
  import FlowRuns
  import FlowTracker

  datatype AnalysisConfig = AnalysisConfig(entropyThreshold: real, entropyMinPayloadBytes: nat)

  /** How the backend answers for one batch: no dispatch, a failed wait, or some values. */
  datatype Outcome = NullStart | WaitFails | Returned(values: seq<real>)

  // --- what each rule raises for one packet ---

  function AlertFor(kind: AnomalyType, p: QueuedPacket, detail: Detail): Alert {
    Alert(kind, p.meta.srcIp, p.meta.dstIp, p.meta.srcPort, p.meta.dstPort, detail)
  }

  function SignatureAlerts(known: set<Word>, p: QueuedPacket): seq<Alert> {
    if |p.payload| > 0 && Fnv1a(p.payload) in known then [AlertFor(SignatureMatch, p, KnownBadHash)] else []
  }

  predicate Eligible(cfg: AnalysisConfig, p: QueuedPacket) { |p.payload| >= cfg.entropyMinPayloadBytes }

  function EntropyAlert(cfg: AnalysisConfig, p: QueuedPacket, entropy: real): seq<Alert> {
    if entropy >= cfg.entropyThreshold
    then [AlertFor(HighEntropyPayload, p, EntropyOver(entropy, |p.payload|))]
    else []
  }

  function EntropyAlerts(cfg: AnalysisConfig, term: Term, p: QueuedPacket): seq<Alert> {
    if Eligible(cfg, p) then EntropyAlert(cfg, p, Shannon(p.payload, term)) else []
  }

  // --- and for a sequence of packets ---

  function AllSignatureAlerts(known: set<Word>, packets: seq<QueuedPacket>): seq<Alert> {
    if packets == [] then []
    else AllSignatureAlerts(known, packets[..|packets| - 1]) + SignatureAlerts(known, packets[|packets| - 1])
  }

  function AllEntropyAlerts(cfg: AnalysisConfig, term: Term, packets: seq<QueuedPacket>): seq<Alert> {
    if packets == [] then []
    else AllEntropyAlerts(cfg, term, packets[..|packets| - 1]) + EntropyAlerts(cfg, term, packets[|packets| - 1])
  }

  /** The per-packet pass over a batch: each packet's signature alert, then its flow alerts. */
  function ScanAlerts(known: set<Word>, packets: seq<QueuedPacket>, flow: seq<seq<Alert>>): seq<Alert>
    requires |packets| == |flow|
  {
    if packets == [] then []
    else
      var n := |packets| - 1;
      ScanAlerts(known, packets[..n], flow[..n]) + SignatureAlerts(known, packets[n]) + flow[n]
  }

  function EligiblePackets(cfg: AnalysisConfig, packets: seq<QueuedPacket>): seq<QueuedPacket> {
    if packets == [] then []
    else
      var n := |packets| - 1;
      EligiblePackets(cfg, packets[..n]) + if Eligible(cfg, packets[n]) then [packets[n]] else []
  }

  function Entropies(packets: seq<QueuedPacket>, term: Term): (r: seq<real>)
    ensures |r| == |packets| && forall i | 0 <= i < |packets| :: r[i] == Shannon(packets[i].payload, term)
  {
    seq(|packets|, i requires 0 <= i < |packets| => Shannon(packets[i].payload, term))
  }

  /** The engine takes the backend's values only when there is one for each eligible packet. */
  predicate Usable(outcome: Outcome, eligible: nat) { outcome.Returned? && |outcome.values| == eligible }

  /** A backend that agrees with the CPU whenever it succeeds. */
  predicate AgreesWithCpu(outcome: Outcome, eligible: seq<QueuedPacket>, term: Term) {
    Usable(outcome, |eligible|) ==> outcome.values == Entropies(eligible, term)
  }

  /** `CpuEntropyBackend`: one entropy per packet, in order. */
  method CpuCompute(packets: seq<QueuedPacket>, term: Term) returns (values: seq<real>)
    ensures values == Entropies(packets, term)
  {
    values := seq(|packets|, i => 0.0);
    for i := 0 to |packets|
      invariant |values| == |packets|
      invariant forall j | 0 <= j < i :: values[j] == Shannon(packets[j].payload, term)
    {
      var entropy := ShannonEntropy(Some(packets[i].payload), term);
      values := values[i := entropy];
    }
  }

  // --- the engine ---

  /** Everything a sequence of batches makes the sink receive, given each packet's flow alerts. */
  function Output(cfg: AnalysisConfig, known: set<Word>, term: Term, batches: seq<seq<QueuedPacket>>,
                  flows: seq<seq<seq<Alert>>>): seq<Alert>
    requires SameShape(batches, flows)
  {
    if batches == [] then []
    else
      var n := |batches| - 1;
      Output(cfg, known, term, batches[..n], flows[..n])
      + ScanAlerts(known, batches[n], flows[n]) + AllEntropyAlerts(cfg, term, batches[n])
  }

  predicate SameShape(batches: seq<seq<QueuedPacket>>, flows: seq<seq<seq<Alert>>>) {
    |batches| == |flows| && forall i | 0 <= i < |batches| :: |batches[i]| == |flows[i]|
  }

  /** Batches that had eligible packets and whose backend values could not be used. */
  function FailedBatches(cfg: AnalysisConfig, batches: seq<seq<QueuedPacket>>, outcomes: seq<Outcome>): nat
    requires |batches| == |outcomes|
  {
    if batches == [] then 0
    else
      var n := |batches| - 1;
      FailedBatches(cfg, batches[..n], outcomes[..n]) + if FallsBack(cfg, batches[n], outcomes[n]) then 1 else 0
  }

  predicate FallsBack(cfg: AnalysisConfig, batch: seq<QueuedPacket>, outcome: Outcome) {
    var eligible := EligiblePackets(cfg, batch);
    eligible != [] && !Usable(outcome, |eligible|)
  }

  class AnalysisEngine {
    const cfg: AnalysisConfig
    const term: Term
    const flowTracker: FlowTracker.FlowTracker
    const signatures: SignatureDatabase
    var sink: seq<Alert>
    var fallbacks: nat
    /** The batches analysed so far, how the backend answered, and the flow alerts of their packets. */
    ghost var batches: seq<seq<QueuedPacket>>
    ghost var outcomes: seq<Outcome>
    ghost var flows: seq<seq<seq<Alert>>>

    ghost predicate Valid()
      reads this, flowTracker, flowTracker.Repr, signatures
    {
      && this !in flowTracker.Repr && signatures !in flowTracker.Repr
      && flowTracker.Valid() && signatures.Valid()
      && SameShape(batches, flows) && |outcomes| == |batches|
      && Concat(batches) == flowTracker.run.packets
      && Concat(flows) == flowTracker.run.alerts
      && sink == Output(cfg, signatures.knownBadHashes, term, batches, flows)
      && fallbacks == FailedBatches(cfg, batches, outcomes)
    }

    constructor (cfg: AnalysisConfig, term: Term, flow: FlowModel.Config, hash: Ip -> nat)
      ensures Valid() && sink == [] && fallbacks == 0 && batches == []
      ensures this.cfg == cfg && this.term == term && flowTracker.cfg == flow && flowTracker.hash == hash
      ensures fresh(flowTracker.Repr)
    {
      this.cfg, this.term := cfg, term;
      var tracker := new FlowTracker.FlowTracker(flow, hash);
      var database := new SignatureDatabase();
      flowTracker, signatures := tracker, database;
      sink, fallbacks := [], 0;
      batches, outcomes, flows := [], [], [];
    }

    /** One packet of the scan. */
    method ScanPacket(packet: QueuedPacket) returns (alerts: seq<Alert>)
      requires flowTracker.Valid() && signatures.Valid()
      requires this !in flowTracker.Repr && signatures !in flowTracker.Repr
      modifies this`sink, flowTracker.Repr
      ensures flowTracker.Valid() && fresh(flowTracker.Repr - old(flowTracker.Repr))
      ensures flowTracker.run.packets == old(flowTracker.run.packets) + [packet]
      ensures flowTracker.run.alerts == old(flowTracker.run.alerts) + [alerts]
      ensures sink == old(sink) + SignatureAlerts(signatures.knownBadHashes, packet) + alerts
    {
      hide FlowTracker.FlowTracker.Valid, Fnv1a;
      if |packet.payload| > 0 {
        var known := signatures.Matches(Some(packet.payload));
        if known {
          sink := sink + [AlertFor(SignatureMatch, packet, KnownBadHash)];
        }
      }
      alerts := flowTracker.Observe(packet);
      sink := sink + alerts;
    }

    /** The pass that runs while a GPU backend computes. */
    method Scan(batch: seq<QueuedPacket>) returns (ghost flow: seq<seq<Alert>>)
      requires flowTracker.Valid() && signatures.Valid()
      requires this !in flowTracker.Repr && signatures !in flowTracker.Repr
      modifies this`sink, flowTracker.Repr
      ensures flowTracker.Valid() && fresh(flowTracker.Repr - old(flowTracker.Repr))
      ensures |flow| == |batch|
      ensures flowTracker.run.packets == old(flowTracker.run.packets) + batch
      ensures flowTracker.run.alerts == old(flowTracker.run.alerts) + flow
      ensures sink == old(sink) + ScanAlerts(signatures.knownBadHashes, batch, flow)
    {
      hide FlowTracker.FlowTracker.Valid, SignatureAlerts, SignatureDatabase.Valid;
      flow := [];
      for i := 0 to |batch|
        invariant flowTracker.Valid() && fresh(flowTracker.Repr - old(flowTracker.Repr)) && |flow| == i
        invariant signatures.Valid() && signatures.knownBadHashes == old(signatures.knownBadHashes)
        invariant flowTracker.run.packets == old(flowTracker.run.packets) + batch[..i]
        invariant flowTracker.run.alerts == old(flowTracker.run.alerts) + flow
        invariant sink == old(sink) + ScanAlerts(signatures.knownBadHashes, batch[..i], flow)
      {
        assert batch[..i + 1][..i] == batch[..i];
        var alerts := ScanPacket(batch[i]);
        assert (flow + [alerts])[..i] == flow;
        flow := flow + [alerts];
      }
      assert batch[..|batch|] == batch;
    }

    /** The backend's values, or the CPU's when there is not one for each eligible packet. */
    method TakeEntropies(eligible: seq<QueuedPacket>, outcome: Outcome) returns (entropies: seq<real>)
      requires AgreesWithCpu(outcome, eligible, term)
      modifies this`fallbacks
      ensures fallbacks == old(fallbacks) + if Usable(outcome, |eligible|) then 0 else 1
      ensures entropies == Entropies(eligible, term)
    {
      hide Entropies;
      if outcome.Returned? && |outcome.values| == |eligible| {
        entropies := outcome.values;
      } else {
        fallbacks := fallbacks + 1;
        entropies := CpuCompute(eligible, term);
      }
    }

    /** The batch's entropy alerts. */
    method RaiseEntropy(eligible: seq<QueuedPacket>, outcome: Outcome)
      requires AgreesWithCpu(outcome, eligible, term)
      modifies this`sink, this`fallbacks
      ensures fallbacks == old(fallbacks) + if eligible != [] && !Usable(outcome, |eligible|) then 1 else 0
      ensures sink == old(sink) + Raised(cfg, eligible, Entropies(eligible, term))
    {
      hide AgreesWithCpu, Usable;
      if |eligible| == 0 {
        return;
      }
      var entropies := TakeEntropies(eligible, outcome);
      SinkEntropies(eligible, entropies);
    }

    method SinkEntropies(eligible: seq<QueuedPacket>, entropies: seq<real>)
      requires |entropies| == |eligible|
      modifies this`sink
      ensures sink == old(sink) + Raised(cfg, eligible, entropies)
    {
      for i := 0 to |eligible|
        invariant sink == old(sink) + Raised(cfg, eligible[..i], entropies[..i])
      {
        assert eligible[..i + 1][..i] == eligible[..i] && entropies[..i + 1][..i] == entropies[..i];
        if entropies[i] >= cfg.entropyThreshold {
          sink := sink + [AlertFor(HighEntropyPayload, eligible[i], EntropyOver(entropies[i], |eligible[i].payload|))];
        }
      }
      assert eligible[..|eligible|] == eligible && entropies[..|entropies|] == entropies;
    }

    /** The packets long enough for the entropy rule. */
    method Select(batch: seq<QueuedPacket>) returns (eligible: seq<QueuedPacket>)
      ensures eligible == EligiblePackets(cfg, batch)
    {
      eligible := [];
      for i := 0 to |batch|
        invariant eligible == EligiblePackets(cfg, batch[..i])
      {
        assert batch[..i + 1][..i] == batch[..i];
        if |batch[i].payload| >= cfg.entropyMinPayloadBytes {
          eligible := eligible + [batch[i]];
        }
      }
      assert batch[..|batch|] == batch;
    }

    method AnalyzeBatch(batch: seq<QueuedPacket>, outcome: Outcome)
      requires Valid() && AgreesWithCpu(outcome, EligiblePackets(cfg, batch), term)
      modifies this, flowTracker.Repr
      ensures Valid() && fresh(flowTracker.Repr - old(flowTracker.Repr))
      ensures batches == old(batches) + [batch] && outcomes == old(outcomes) + [outcome]
      ensures flowTracker.run.packets == old(flowTracker.run.packets) + batch
      ensures old(sink) <= sink
      ensures forall i, j | |old(sink)| <= i < j < |sink| && sink[i].kind == HighEntropyPayload ::
                sink[j].kind == HighEntropyPayload
    {
      hide FlowTracker.FlowTracker.Valid, ScanAlerts, Raised, Entropies, Usable, AllEntropyAlerts;
      hide Output, Concat, FailedBatches, EligiblePackets, Shannon;
      var eligible := Select(batch);
      ghost var flow := Scan(batch);
      BatchOrder(cfg, signatures.knownBadHashes, term, flowTracker, batch, flow);
      RaiseEntropy(eligible, outcome);
      RaisedIsAllEntropy(cfg, term, batch);
      BatchAppended(cfg, signatures.knownBadHashes, term, batches, flows, outcomes, batch, flow, outcome);
      batches, flows, outcomes := batches + [batch], flows + [flow], outcomes + [outcome];
    }

    /** Each rule's alerts in the sink are those of its packets taken one at a time on the CPU, however they
        were batched and whichever batches fell back. */
    lemma SinkIsPerPacket(kind: AnomalyType)
      requires Valid()
      ensures OfKind(sink, kind) ==
              PerPacket(cfg, signatures.knownBadHashes, term, flowTracker.run.packets, flowTracker.run.alerts, kind)
    {
      hide OfKind, PerPacket, Output, Concat;
      TrackerKinds(flowTracker.cfg, flowTracker.hash, flowTracker.run);
      BatchingIsInvisible(cfg, signatures.knownBadHashes, term, batches, flows, kind);
    }
  }

  /** Whatever calls were made on an engine whose tracker meets the conditions under which eviction is
      invisible: each rule's alerts in its sink are a function of the packets alone. */
  lemma SinkDependsOnPackets(engine: AnalysisEngine, kind: AnomalyType)
    requires engine.Valid()
    requires var t := engine.flowTracker;
             && FlowRuns.Chronological(t.run.packets) && FlowRules.TtlCoversRules(t.cfg)
             && FlowTracker.UnforcedSoFar(t)
    ensures var packets := Concat(engine.batches);
            OfKind(engine.sink, kind) ==
            PerPacket(engine.cfg, engine.signatures.knownBadHashes, engine.term, packets,
                      FlowRuns.SoloRun(engine.flowTracker.cfg, packets), kind)
  {
    hide OfKind, PerPacket, Output, Concat, FlowRuns.SoloAlerts, FlowRuns.Chronological;
    hide FlowTracker.UnforcedSoFar;
    var t := engine.flowTracker;
    engine.SinkIsPerPacket(kind);
    FlowTracker.TrackerIsSoloRun(t);
  }

  lemma TrackerKinds(cfg: FlowModel.Config, hash: Ip -> nat, run: FlowRuns.Run)
    requires FlowRuns.IsRun(cfg, hash, run)
    ensures FlowKinds(run.alerts)
  {
    hide FlowModel.ObserveRecord, FlowModel.Swept;
    forall alerts <- run.alerts, a <- alerts ensures a.kind == PortScan || a.kind == SynFlood {
      var i :| 0 <= i < |run.alerts| && run.alerts[i] == alerts;
      var t, p := run.states[i], run.packets[i];
      assert FlowModel.TrackerStep(cfg, hash, t, p, run.states[i + 1], alerts);
      if p.meta.hasIp && t != [] {
        var s := t[FlowModel.ShardIndex(hash, |t|, p.meta.srcIp)];
        RecordKinds(cfg, FlowModel.RecordOf(s.perIp, p.meta.srcIp), p);
      }
    }
  }

  lemma RecordKinds(cfg: FlowModel.Config, r: FlowModel.IpRecord, p: QueuedPacket)
    ensures forall a <- FlowModel.ObserveRecord(cfg, r, p).alerts :: a.kind == PortScan || a.kind == SynFlood
  {}

  /** The alerts for eligible packets whose entropy is over the threshold. */
  function Raised(cfg: AnalysisConfig, eligible: seq<QueuedPacket>, entropies: seq<real>): seq<Alert>
    requires |eligible| == |entropies|
  {
    if eligible == [] then []
    else
      var n := |eligible| - 1;
      Raised(cfg, eligible[..n], entropies[..n]) + EntropyAlert(cfg, eligible[n], entropies[n])
  }

  lemma RaisedStep(cfg: AnalysisConfig, term: Term, eligible: seq<QueuedPacket>, p: QueuedPacket)
    ensures Raised(cfg, eligible + [p], Entropies(eligible + [p], term)) ==
            Raised(cfg, eligible, Entropies(eligible, term)) + EntropyAlert(cfg, p, Shannon(p.payload, term))
  {
    hide Shannon, EntropyAlert;
    assert (eligible + [p])[..|eligible|] == eligible;
    assert Entropies(eligible + [p], term)[..|eligible|] == Entropies(eligible, term);
  }

  lemma {:induction false} RaisedIsAllEntropy(cfg: AnalysisConfig, term: Term, packets: seq<QueuedPacket>)
    ensures var eligible := EligiblePackets(cfg, packets);
            Raised(cfg, eligible, Entropies(eligible, term)) == AllEntropyAlerts(cfg, term, packets)
  {
    if packets != [] {
      hide Shannon, EntropyAlert, Raised, Entropies;
      var front, p := packets[..|packets| - 1], packets[|packets| - 1];
      RaisedIsAllEntropy(cfg, term, front);
      var before := EligiblePackets(cfg, front);
      assert EligiblePackets(cfg, packets) == if Eligible(cfg, p) then before + [p] else before;
      RaisedStep(cfg, term, before, p);
    }
  }

  lemma BatchAppended(cfg: AnalysisConfig, known: set<Word>, term: Term, batches: seq<seq<QueuedPacket>>,
                      flows: seq<seq<seq<Alert>>>, outcomes: seq<Outcome>, batch: seq<QueuedPacket>,
                      flow: seq<seq<Alert>>, outcome: Outcome)
    requires SameShape(batches, flows) && |outcomes| == |batches| && |batch| == |flow|
    ensures SameShape(batches + [batch], flows + [flow])
    ensures Output(cfg, known, term, batches + [batch], flows + [flow]) ==
            Output(cfg, known, term, batches, flows) + ScanAlerts(known, batch, flow) + AllEntropyAlerts(cfg, term, batch)
    ensures FailedBatches(cfg, batches + [batch], outcomes + [outcome]) ==
            FailedBatches(cfg, batches, outcomes) + if FallsBack(cfg, batch, outcome) then 1 else 0
    ensures Concat(batches + [batch]) == Concat(batches) + batch
    ensures Concat(flows + [flow]) == Concat(flows) + flow
  {
    assert (batches + [batch])[..|batches|] == batches;
    assert (flows + [flow])[..|flows|] == flows;
    assert (outcomes + [outcome])[..|outcomes|] == outcomes;
  }

  /** Within a batch no alert of the scan is an entropy alert, and those that follow all are. */
  lemma BatchOrder(cfg: AnalysisConfig, known: set<Word>, term: Term, tracker: FlowTracker.FlowTracker,
                   batch: seq<QueuedPacket>, flow: seq<seq<Alert>>)
    requires tracker.Valid() && |flow| == |batch|
    requires exists before :: tracker.run.alerts == before + flow
    ensures forall a <- ScanAlerts(known, batch, flow) :: a.kind != HighEntropyPayload
    ensures forall a <- AllEntropyAlerts(cfg, term, batch) :: a.kind == HighEntropyPayload
  {
    hide ScanAlerts, AllEntropyAlerts, FlowRuns.IsRun;
    TrackerKinds(tracker.cfg, tracker.hash, tracker.run);
    EntropyKinds(cfg, term, batch);
    var before :| tracker.run.alerts == before + flow;
    assert forall alerts <- flow :: alerts in tracker.run.alerts;
    ScanHasNoEntropy(known, batch, flow);
  }

  lemma {:induction false} ScanHasNoEntropy(known: set<Word>, packets: seq<QueuedPacket>, flow: seq<seq<Alert>>)
    requires |packets| == |flow| && FlowKinds(flow)
    ensures forall a <- ScanAlerts(known, packets, flow) :: a.kind != HighEntropyPayload
  {
    if packets != [] {
      var n := |packets| - 1;
      ScanHasNoEntropy(known, packets[..n], flow[..n]);
      assert flow[n] in flow;
      hide Fnv1a;
    }
  }

  // --- the alert stream does not depend on batching or on backend failures ---

  function OfKind(alerts: seq<Alert>, kind: AnomalyType): seq<Alert> {
    if alerts == [] then []
    else OfKind(alerts[..|alerts| - 1], kind) + if alerts[|alerts| - 1].kind == kind then [alerts[|alerts| - 1]] else []
  }

  lemma {:induction false} OfKindConcat(a: seq<Alert>, b: seq<Alert>, kind: AnomalyType)
    ensures OfKind(a + b, kind) == OfKind(a, kind) + OfKind(b, kind)
  {
    if b == [] {
      assert a + b == a;
    } else {
      OfKindConcat(a, b[..|b| - 1], kind);
      assert (a + b)[..|a + b| - 1] == a + b[..|b| - 1];
    }
  }

  lemma {:induction false} OfKindAll(a: seq<Alert>, kind: AnomalyType)
    ensures (forall x <- a :: x.kind == kind) ==> OfKind(a, kind) == a
    ensures (forall x <- a :: x.kind != kind) ==> OfKind(a, kind) == []
  {
    if a != [] {
      OfKindAll(a[..|a| - 1], kind);
    }
  }

  /** Flow rules raise only their own kinds. */
  predicate FlowKinds(flow: seq<seq<Alert>>) {
    forall alerts <- flow, a <- alerts :: a.kind == PortScan || a.kind == SynFlood
  }

  lemma {:induction false} EntropyKinds(cfg: AnalysisConfig, term: Term, packets: seq<QueuedPacket>)
    ensures forall a <- AllEntropyAlerts(cfg, term, packets) :: a.kind == HighEntropyPayload
  {
    hide Shannon;
    if packets != [] {
      EntropyKinds(cfg, term, packets[..|packets| - 1]);
    }
  }

  lemma SignatureKinds(known: set<Word>, p: QueuedPacket, kind: AnomalyType)
    ensures OfKind(SignatureAlerts(known, p), kind) == if kind == SignatureMatch then SignatureAlerts(known, p) else []
  {
    OfKindAll(SignatureAlerts(known, p), kind);
  }

  /** One rule's alerts over a sequence of packets, computed packet by packet on the CPU. */
  function PerPacket(cfg: AnalysisConfig, known: set<Word>, term: Term, packets: seq<QueuedPacket>,
                     flow: seq<seq<Alert>>, kind: AnomalyType): seq<Alert> {
    match kind
    case HighEntropyPayload => AllEntropyAlerts(cfg, term, packets)
    case SignatureMatch => AllSignatureAlerts(known, packets)
    case _ => OfKind(Concat(flow), kind)
  }

  lemma {:induction false} ScanKinds(known: set<Word>, packets: seq<QueuedPacket>, flow: seq<seq<Alert>>, kind: AnomalyType)
    requires |packets| == |flow| && FlowKinds(flow)
    ensures OfKind(ScanAlerts(known, packets, flow), kind) ==
            match kind
            case HighEntropyPayload => []
            case SignatureMatch => AllSignatureAlerts(known, packets)
            case _ => OfKind(Concat(flow), kind)
  {
    hide SignatureAlerts, OfKind;
    if packets == [] {
      OfKindAll([], kind);
    } else {
      var n := |packets| - 1;
      ScanKinds(known, packets[..n], flow[..n], kind);
      var before, signature := ScanAlerts(known, packets[..n], flow[..n]), SignatureAlerts(known, packets[n]);
      OfKindConcat(before + signature, flow[n], kind);
      OfKindConcat(before, signature, kind);
      OfKindConcat(Concat(flow[..n]), flow[n], kind);
      SignatureKinds(known, packets[n], kind);
      assert flow[n] in flow;
      OfKindAll(flow[n], kind);
    }
  }

  lemma {:induction false} AllEntropyConcat(cfg: AnalysisConfig, term: Term, a: seq<QueuedPacket>, b: seq<QueuedPacket>)
    ensures AllEntropyAlerts(cfg, term, a + b) == AllEntropyAlerts(cfg, term, a) + AllEntropyAlerts(cfg, term, b)
  {
    hide EntropyAlerts;
    if b == [] {
      assert a + b == a;
    } else {
      AllEntropyConcat(cfg, term, a, b[..|b| - 1]);
      assert (a + b)[..|a + b| - 1] == a + b[..|b| - 1];
    }
  }

  lemma {:induction false} AllSignatureConcat(known: set<Word>, a: seq<QueuedPacket>, b: seq<QueuedPacket>)
    ensures AllSignatureAlerts(known, a + b) == AllSignatureAlerts(known, a) + AllSignatureAlerts(known, b)
  {
    hide SignatureAlerts;
    if b == [] {
      assert a + b == a;
    } else {
      AllSignatureConcat(known, a, b[..|b| - 1]);
      assert (a + b)[..|a + b| - 1] == a + b[..|b| - 1];
    }
  }

  lemma PerPacketConcat(cfg: AnalysisConfig, known: set<Word>, term: Term, a: seq<QueuedPacket>, b: seq<QueuedPacket>,
                        flowA: seq<seq<Alert>>, flowB: seq<seq<Alert>>, kind: AnomalyType)
    ensures PerPacket(cfg, known, term, a + b, flowA + flowB, kind) ==
            PerPacket(cfg, known, term, a, flowA, kind) + PerPacket(cfg, known, term, b, flowB, kind)
  {
    hide OfKind, AllEntropyAlerts, AllSignatureAlerts, Concat;
    AllEntropyConcat(cfg, term, a, b);
    AllSignatureConcat(known, a, b);
    ConcatConcat(flowA, flowB);
    OfKindConcat(Concat(flowA), Concat(flowB), kind);
  }

  /** One batch contributes exactly its packets' alerts to each rule. */
  lemma BatchKinds(cfg: AnalysisConfig, known: set<Word>, term: Term, batch: seq<QueuedPacket>, flow: seq<seq<Alert>>,
                   kind: AnomalyType)
    requires |batch| == |flow| && FlowKinds(flow)
    ensures OfKind(ScanAlerts(known, batch, flow) + AllEntropyAlerts(cfg, term, batch), kind) ==
            PerPacket(cfg, known, term, batch, flow, kind)
  {
    hide OfKind, AllEntropyAlerts, ScanAlerts;
    ScanKinds(known, batch, flow, kind);
    EntropyKinds(cfg, term, batch);
    OfKindAll(AllEntropyAlerts(cfg, term, batch), kind);
    OfKindConcat(ScanAlerts(known, batch, flow), AllEntropyAlerts(cfg, term, batch), kind);
  }

  /** Per rule, what the sink received depends only on the packets in order, not on how they were batched
      nor on which batches the backend failed for. */
  lemma {:induction false} BatchingIsInvisible(cfg: AnalysisConfig, known: set<Word>, term: Term,
                                               batches: seq<seq<QueuedPacket>>, flows: seq<seq<seq<Alert>>>,
                                               kind: AnomalyType)
    requires SameShape(batches, flows) && FlowKinds(Concat(flows))
    ensures OfKind(Output(cfg, known, term, batches, flows), kind) ==
            PerPacket(cfg, known, term, Concat(batches), Concat(flows), kind)
  {
    if batches != [] {
      var n := |batches| - 1;
      var batch, flow := batches[n], flows[n];
      assert Concat(flows) == Concat(flows[..n]) + flow && Concat(batches) == Concat(batches[..n]) + batch;
      BatchingIsInvisible(cfg, known, term, batches[..n], flows[..n], kind);
      var before, mine :=
        Output(cfg, known, term, batches[..n], flows[..n]), ScanAlerts(known, batch, flow) + AllEntropyAlerts(cfg, term, batch);
      hide OfKind, PerPacket, Concat, ScanAlerts, AllEntropyAlerts;
      assert Output(cfg, known, term, batches, flows) == before + mine;
      OfKindConcat(before, mine, kind);
      BatchKinds(cfg, known, term, batch, flow, kind);
      PerPacketConcat(cfg, known, term, Concat(batches[..n]), batch, Concat(flows[..n]), flow, kind);
    }
  }
}
