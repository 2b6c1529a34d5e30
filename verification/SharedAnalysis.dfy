/** Worker threads analysing batches at the same time through one engine: the pool's steps interleaved with
    those of every `analyze_batch` call in progress, one packet's rule or one alert at a time. */
module SharedAnalysis {
  import opened Packets
  import opened Sequences
  import opened Entropy
  import opened Signatures
  import opened WorkerPool
  import opened AnalysisEngine
  import FlowModel

  /** What stays fixed: the pool's and the engine's configuration, the known hashes, the tracker's rules. */
  datatype Setup = Setup(
    pool: WorkerPool.Config,
    engine: AnalysisConfig,
    term: Term,
    known: set<Word>,
    flow: FlowModel.Config,
    hash: Ip -> nat)

  /** Where a worker is in its call of `analyze_batch`. */
  datatype Call =
    | NoCall
    | Match(i: nat)                            // packet `i`, or past the last: the signature rule is next
    | Track(i: nat)                            // packet `i`: the tracker is next
    | SinkFlow(i: nat, rest: seq<Alert>)       // packet `i`: flow alerts still to be sunk
    | Raise(values: seq<real>, j: nat)         // entropies are there: eligible packet `j` is next

  /** `run` is what the tracker has observed, in the order in which its shards' locks were taken. */
  datatype Shared = Shared(
    pool: State,
    calls: seq<Call>,
    sink: seq<Alert>,
    fallbacks: nat,
    run: FlowRuns.Run)

  datatype Step =
    | Pool(a: Action)
    | MatchSignature(w: nat)
    | ObserveFlow(w: nat, t: FlowModel.Tracker, alerts: seq<Alert>)
    | SinkOne(w: nat)
    | TakeEntropies(w: nat, outcome: Outcome)
    | RaiseOne(w: nat)

  predicate Starts(setup: Setup, s: Shared) {
    && Init(s.pool)
    && |s.calls| == |s.pool.workers| && (forall c <- s.calls :: c == NoCall)
    && s.sink == [] && s.fallbacks == 0
    && s.run == FlowRuns.Run([], [FlowModel.InitTracker(setup.flow)], [])
  }

  /** The batch a worker is analysing. */
  function BatchOf(s: Shared, w: nat): seq<QueuedPacket>
    requires w < |s.pool.workers|
  {
    Held(s.pool.workers[w])
  }

  function EligibleOf(setup: Setup, s: Shared, w: nat): seq<QueuedPacket>
    requires w < |s.pool.workers|
  {
    EligiblePackets(setup.engine, BatchOf(s, w))
  }

  function AfterFlow(i: nat, rest: seq<Alert>): Call { if rest == [] then Match(i + 1) else SinkFlow(i, rest) }

  predicate Complete(setup: Setup, batch: seq<QueuedPacket>, c: Call) {
    c.Raise? && c.j == |EligiblePackets(setup.engine, batch)|
  }

  /** The calls after a pool step: one begins or ends with the worker's analysis, the others go on. */
  predicate CallsFollow(setup: Setup, s: Shared, a: Action, calls: seq<Call>)
    requires |s.calls| == |s.pool.workers|
  {
    match a
    case BeginAnalysis(w) => w < |s.calls| && calls == s.calls[w := Match(0)]
    case EndAnalysis(w) => w < |s.calls| && Complete(setup, BatchOf(s, w), s.calls[w]) && calls == s.calls[w := NoCall]
    case _ => calls == s.calls
  }

  /** The tracker observes one more packet. */
  ghost predicate Tracked(setup: Setup, run: FlowRuns.Run, p: QueuedPacket, t: FlowModel.Tracker, alerts: seq<Alert>) {
    |run.states| > 0 && FlowModel.TrackerStep(setup.flow, setup.hash, run.states[|run.states| - 1], p, t, alerts)
  }

  predicate InCall(s: Shared, w: nat) { w < |s.pool.workers| && w < |s.calls| }

  /** All interleavings: a step of the pool, or of any call in progress. */
  ghost predicate SharedNext(setup: Setup, s: Shared, a: Step, s': Shared) {
    match a
    case Pool(act) =>
      && |s.calls| == |s.pool.workers|
      && Next(setup.pool, s.pool, act, s'.pool) && CallsFollow(setup, s, act, s'.calls)
      && s' == s.(pool := s'.pool, calls := s'.calls)
    case MatchSignature(w) =>
      && InCall(s, w) && s.calls[w].Match? && s.calls[w].i < |BatchOf(s, w)|
      && s' == s.(calls := s.calls[w := Track(s.calls[w].i)],
                  sink := s.sink + SignatureAlerts(setup.known, BatchOf(s, w)[s.calls[w].i]))
    case ObserveFlow(w, t, alerts) =>
      && InCall(s, w) && s.calls[w].Track? && s.calls[w].i < |BatchOf(s, w)|
      && Tracked(setup, s.run, BatchOf(s, w)[s.calls[w].i], t, alerts)
      && s' == s.(calls := s.calls[w := AfterFlow(s.calls[w].i, alerts)],
                  run := FlowRuns.Extended(s.run, BatchOf(s, w)[s.calls[w].i], t, alerts))
    case SinkOne(w) =>
      && InCall(s, w) && s.calls[w].SinkFlow? && s.calls[w].rest != []
      && s' == s.(calls := s.calls[w := AfterFlow(s.calls[w].i, s.calls[w].rest[1..])],
                  sink := s.sink + [s.calls[w].rest[0]])
    case TakeEntropies(w, outcome) =>
      && InCall(s, w) && s.calls[w] == Match(|BatchOf(s, w)|)
      && var eligible := EligibleOf(setup, s, w);
         && AgreesWithCpu(outcome, eligible, setup.term)
         && s' == s.(calls := s.calls[w := Raise(if Usable(outcome, |eligible|) then outcome.values
                                                 else Entropies(eligible, setup.term), 0)],
                     fallbacks := if eligible == [] || Usable(outcome, |eligible|) then s.fallbacks else s.fallbacks + 1)
    case RaiseOne(w) =>
      && InCall(s, w) && s.calls[w].Raise? && s.calls[w].j < |EligibleOf(setup, s, w)| && s.calls[w].j < |s.calls[w].values|
      && var j := s.calls[w].j;
         s' == s.(calls := s.calls[w := Raise(s.calls[w].values, j + 1)],
                  sink := s.sink + EntropyAlert(setup.engine, EligibleOf(setup, s, w)[j], s.calls[w].values[j]))
  }

  datatype SharedTrace = SharedTrace(states: seq<Shared>, steps: seq<Step>)

  ghost predicate IsSharedTrace(setup: Setup, tr: SharedTrace) {
    && |tr.states| == |tr.steps| + 1
    && Starts(setup, tr.states[0])
    && forall i | 0 <= i < |tr.steps| :: SharedNext(setup, tr.states[i], tr.steps[i], tr.states[i + 1])
  }

  // --- what a worker still owes ---

  /** How often an alert is still to come from the signature and entropy rules over some packets. */
  function OwedFor(setup: Setup, packets: seq<QueuedPacket>, a: Alert): nat {
    Times(a, AllSignatureAlerts(setup.known, packets)) + Times(a, AllEntropyAlerts(setup.engine, setup.term, packets))
  }

  /** How often it is still to come from what a worker holds, given where its call is. */
  function Owed(setup: Setup, held: seq<QueuedPacket>, c: Call, a: Alert): nat
    requires CallOk(setup, held, c)
  {
    match c
    case NoCall => OwedFor(setup, held, a)
    case Match(i) =>
      Times(a, AllSignatureAlerts(setup.known, held[i..])) + Times(a, AllEntropyAlerts(setup.engine, setup.term, held))
    case Track(i) =>
      Times(a, AllSignatureAlerts(setup.known, held[i + 1..])) + Times(a, AllEntropyAlerts(setup.engine, setup.term, held))
    case SinkFlow(i, rest) =>
      Times(a, AllSignatureAlerts(setup.known, held[i + 1..])) + Times(a, AllEntropyAlerts(setup.engine, setup.term, held))
      + Times(a, rest)
    case Raise(values, j) =>
      var eligible := EligiblePackets(setup.engine, held);
      Times(a, Raised(setup.engine, eligible[j..], values[j..]))
  }

  /** What a worker holds that the tracker has not observed yet. */
  function Unseen(held: seq<QueuedPacket>, c: Call): seq<QueuedPacket> {
    match c
    case NoCall => held
    case Match(i) => if i <= |held| then held[i..] else []
    case Track(i) => if i <= |held| then held[i..] else []
    case SinkFlow(i, _) => if i < |held| then held[i + 1..] else []
    case Raise(_, _) => []
  }

  predicate CallOk(setup: Setup, held: seq<QueuedPacket>, c: Call) {
    match c
    case NoCall => true
    case Match(i) => i <= |held|
    case Track(i) => i < |held|
    case SinkFlow(i, rest) => i < |held| && rest != []
    case Raise(values, j) =>
      && values == Entropies(EligiblePackets(setup.engine, held), setup.term)
      && j <= |EligiblePackets(setup.engine, held)|
  }

  /** A worker is in a call exactly while it is analysing. */
  predicate CallsOk(setup: Setup, s: Shared) {
    && |s.calls| == |s.pool.workers|
    && forall w | 0 <= w < |s.calls| ::
         CallOk(setup, Held(s.pool.workers[w]), s.calls[w]) && (s.calls[w] == NoCall <==> !s.pool.workers[w].Analyzing?)
  }
}
