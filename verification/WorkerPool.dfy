/** Producers, a worker pool and the shutdown caller around one queue, as interleaved steps.
    Each lock-held segment is one step; unlocking and notifying are separate program points. */
module WorkerPool {
  import opened Packets
  import opened Sequences
  import opened PacketQueue

  datatype Config = Config(capacity: nat, batchSize: nat, linger: bool)

  /** The entry points refuse a zero queue capacity or batch size. */
  predicate ValidConfig(cfg: Config) { cfg.capacity >= 1 && cfg.batchSize >= 1 }

  datatype Producer =
    | Idle
    | Blocked(packet: QueuedPacket, notified: bool)  // in not_full_.wait
    | WakeConsumer                                   // unlocked, not_empty_.notify_one still to come

  datatype Worker =
    | Start                                          // about to call pop_batch
    | AwaitPacket(notified: bool)                    // in the first not_empty_.wait_for
    | AwaitBatch(notified: bool)                     // in the linger wait_for
    | WakeProducers(batch: seq<QueuedPacket>, more: bool)
    | HandOff(batch: seq<QueuedPacket>)              // not_empty_.notify_one still to come
    | Holding(batch: seq<QueuedPacket>)              // pop_batch has returned
    | Analyzing(batch: seq<QueuedPacket>)            // in the analysis callback
    | Exited

  datatype Closer = Open | WakeAllProducers | WakeAllConsumers | Closed

  /** `accepted` logs accepted pushes in lock order, `drained` the non-empty batches in drain order and
      `analyzed` the batches in the order in which their analysis completed. */
  datatype State = State(
    queue: QueueState,
    producers: seq<Producer>,
    workers: seq<Worker>,
    closer: Closer,
    processed: nat,
    batches: nat,
    accepted: seq<QueuedPacket>,
    drained: seq<seq<QueuedPacket>>,
    analyzed: seq<seq<QueuedPacket>>)

  datatype Action =
    | PushCall(t: nat, packet: QueuedPacket)
    | PushRecheck(t: nat)                            // notified or spurious wake-up
    | PushNotify(t: nat, woken: Option<nat>)
    | PopCall(w: nat)
    | PopRecheck(w: nat)                             // notified or spurious wake-up
    | PopTimeout(w: nat)                             // either wait_for runs out
    | NotifyProducers(w: nat)
    | NotifyNext(w: nat, woken: Option<nat>)
    | BeginAnalysis(w: nat)
    | EndAnalysis(w: nat)
    | CheckFinished(w: nat)
    | CloseQueue
    | CloseNotifyProducers
    | CloseNotifyConsumers

  predicate Init(s: State) {
    && s.queue == EMPTY_QUEUE
    && (forall p <- s.producers :: p == Idle)
    && (forall w <- s.workers :: w == Start)
    && s.closer == Open
    && s.processed == 0 && s.batches == 0 && s.accepted == [] && s.drained == [] && s.analyzed == []
  }

  // --- notifications ---

  function Notified(w: Worker): Worker {
    match w
    case AwaitPacket(_) => AwaitPacket(true)
    case AwaitBatch(_) => AwaitBatch(true)
    case _ => w
  }

  predicate Sleeping(w: Worker) { w == AwaitPacket(false) || w == AwaitBatch(false) }

  /** notify_one wakes some sleeping consumer, if there is one. */
  predicate WakesOne(workers: seq<Worker>, woken: Option<nat>, workers': seq<Worker>) {
    match woken
    case None => workers' == workers && forall w <- workers :: !Sleeping(w)
    case Some(i) => i < |workers| && Sleeping(workers[i]) && workers' == workers[i := Notified(workers[i])]
  }

  function WakeProducer(p: Producer): Producer {
    if p.Blocked? then p.(notified := true) else p
  }

  function AllWoken(ps: seq<Producer>): (r: seq<Producer>)
    ensures |r| == |ps|
    ensures forall i | 0 <= i < |ps| :: r[i] == WakeProducer(ps[i])
  {
    seq(|ps|, i requires 0 <= i < |ps| => WakeProducer(ps[i]))
  }

  function AllNotified(ws: seq<Worker>): (r: seq<Worker>)
    ensures |r| == |ws|
    ensures forall i | 0 <= i < |ws| :: r[i] == Notified(ws[i])
  {
    seq(|ws|, i requires 0 <= i < |ws| => Notified(ws[i]))
  }

  // --- lock-held segments ---

  /** The producer holds the lock with its packet: wait again, or finish the push. */
  function PushLocked(cfg: Config, s: State, t: nat, p: QueuedPacket): State
    requires t < |s.producers|
  {
    if !PushReady(s.queue, cfg.capacity) then
      s.(producers := s.producers[t := Blocked(p, false)])
    else
      var o := PushSegment(s.queue, p);
      s.(queue := o.queue,
         producers := s.producers[t := if o.wake then WakeConsumer else Idle],
         accepted := if o.accepted then s.accepted + [p] else s.accepted)
  }

  /** The worker holds the lock with its waits over: drain a batch. */
  function DrainLocked(cfg: Config, s: State, w: nat): State
    requires w < |s.workers|
  {
    var o := DrainSegment(s.queue, cfg.batchSize);
    s.(queue := o.queue,
       workers := s.workers[w := if o.batch != [] then WakeProducers(o.batch, o.moreWaiting)
                                 else if o.moreWaiting then HandOff([])
                                 else Holding([])],
       drained := if o.batch != [] then s.drained + [o.batch] else s.drained)
  }

  /** The worker holds the lock after its first wait: linger for a full batch, or drain. */
  function PopLocked(cfg: Config, s: State, w: nat): State
    requires w < |s.workers|
  {
    if Lingers(s.queue, cfg.batchSize, cfg.linger)
    then s.(workers := s.workers[w := AwaitBatch(false)])
    else DrainLocked(cfg, s, w)
  }

  /** All interleavings: any enabled action of any thread may come next. */
  predicate Next(cfg: Config, s: State, a: Action, s': State) {
    match a
    case PushCall(t, p) =>
      t < |s.producers| && s.producers[t] == Idle && s' == PushLocked(cfg, s, t, p)
    case PushRecheck(t) =>
      t < |s.producers| && s.producers[t].Blocked? && s' == PushLocked(cfg, s, t, s.producers[t].packet)
    case PushNotify(t, woken) =>
      && t < |s.producers| && s.producers[t] == WakeConsumer
      && s' == s.(producers := s.producers[t := Idle], workers := s'.workers)
      && WakesOne(s.workers, woken, s'.workers)
    case PopCall(w) =>
      && w < |s.workers| && s.workers[w] == Start
      && var begun := s.(queue := BeginSegment(s.queue, cfg.batchSize));
         s' == if PopReady(s.queue) then PopLocked(cfg, begun, w)
               else begun.(workers := s.workers[w := AwaitPacket(false)])
    case PopRecheck(w) =>
      && w < |s.workers| && (s.workers[w].AwaitPacket? || s.workers[w].AwaitBatch?)
      && s' == if s.workers[w].AwaitPacket? then
                 if PopReady(s.queue) then PopLocked(cfg, s, w)
                 else s.(workers := s.workers[w := AwaitPacket(false)])
               else
                 if BatchReady(s.queue, cfg.batchSize) then DrainLocked(cfg, s, w)
                 else s.(workers := s.workers[w := AwaitBatch(false)])
    case PopTimeout(w) =>
      && w < |s.workers| && (s.workers[w].AwaitPacket? || s.workers[w].AwaitBatch?)
      && s' == if s.workers[w].AwaitPacket? then PopLocked(cfg, s, w) else DrainLocked(cfg, s, w)
    case NotifyProducers(w) =>
      && w < |s.workers| && s.workers[w].WakeProducers?
      && var batch := s.workers[w].batch;
         s' == s.(producers := AllWoken(s.producers),
                  workers := s.workers[w := if s.workers[w].more then HandOff(batch) else Holding(batch)])
    case NotifyNext(w, woken) =>
      && w < |s.workers| && s.workers[w].HandOff?
      && s' == s.(workers := s'.workers)
      && WakesOne(s.workers[w := Holding(s.workers[w].batch)], woken, s'.workers)
    case BeginAnalysis(w) =>
      && w < |s.workers| && s.workers[w].Holding? && s.workers[w].batch != []
      && s' == s.(workers := s.workers[w := Analyzing(s.workers[w].batch)])
    case EndAnalysis(w) =>
      && w < |s.workers| && s.workers[w].Analyzing?
      && s' == s.(workers := s.workers[w := Start],
                  processed := s.processed + |s.workers[w].batch|, batches := s.batches + 1,
                  analyzed := s.analyzed + [s.workers[w].batch])
    case CheckFinished(w) =>
      && w < |s.workers| && s.workers[w] == Holding([])
      && s' == s.(workers := s.workers[w := if Finished(s.queue) then Exited else Start])
    case CloseQueue =>
      s.closer == Open && s' == s.(closer := WakeAllProducers, queue := ShutdownSegment(s.queue))
    case CloseNotifyProducers =>
      s.closer == WakeAllProducers && s' == s.(closer := WakeAllConsumers, producers := AllWoken(s.producers))
    case CloseNotifyConsumers =>
      s.closer == WakeAllConsumers && s' == s.(closer := Closed, workers := AllNotified(s.workers))
  }

  // --- runs ---

  datatype Trace = Trace(states: seq<State>, actions: seq<Action>)

  ghost predicate IsTrace(cfg: Config, tr: Trace) {
    && |tr.states| == |tr.actions| + 1
    && Init(tr.states[0])
    && forall i | 0 <= i < |tr.actions| :: Next(cfg, tr.states[i], tr.actions[i], tr.states[i + 1])
  }

  /** Packets a worker has drained but not yet analysed. */
  function Held(w: Worker): seq<QueuedPacket> {
    match w
    case WakeProducers(batch, _) => batch
    case HandOff(batch) => batch
    case Holding(batch) => batch
    case Analyzing(batch) => batch
    case _ => []
  }

  /** How often the workers together hold a packet. */
  function TimesHeld(ws: seq<Worker>, q: QueuedPacket): nat {
    if ws == [] then 0 else TimesHeld(ws[..|ws| - 1], q) + Times(q, Held(ws[|ws| - 1]))
  }

  // --- invariants ---

  /** FIFO: what was accepted is what was drained, in order, followed by what is queued. */
  predicate Fifo(cfg: Config, s: State) {
    && s.accepted == Concat(s.drained) + s.queue.items
    && |s.queue.items| <= cfg.capacity
    && forall b <- s.drained :: 1 <= |b| <= cfg.batchSize
  }

  /** As often as a packet was drained, it has been analysed or is held by a worker. */
  predicate Accounted(s: State, q: QueuedPacket) {
    Times(q, Concat(s.analyzed)) + TimesHeld(s.workers, q) == Times(q, Concat(s.drained))
  }

  /** The counters count what was analysed. */
  predicate Counters(s: State) { s.processed == |Concat(s.analyzed)| && s.batches == |s.analyzed| }

  ghost predicate Counted(s: State) { Counters(s) && forall q :: Accounted(s, q) }

  /** A producer asleep without a notification faces a full open queue, or its wake-up is still on the way. */
  ghost predicate NoLostWakeup(cfg: Config, s: State) {
    forall p <- s.producers :: p.Blocked? && !p.notified ==>
      || (|s.queue.items| >= cfg.capacity && !s.queue.shutdown)
      || (exists w <- s.workers :: w.WakeProducers?)
      || s.closer == WakeAllProducers
  }

  /** A worker exits only from a closed, drained queue. */
  predicate ExitsDrained(s: State) {
    (exists w <- s.workers :: w == Exited) ==> s.queue.shutdown && s.queue.items == []
  }

  ghost predicate Inv(cfg: Config, s: State) {
    Fifo(cfg, s) && Counted(s) && NoLostWakeup(cfg, s) && ExitsDrained(s)
  }

  lemma {:induction false} HeldUpdate(ws: seq<Worker>, i: nat, w: Worker, q: QueuedPacket)
    requires i < |ws|
    ensures TimesHeld(ws[i := w], q) == TimesHeld(ws, q) - Times(q, Held(ws[i])) + Times(q, Held(w))
  {
    hide Held, Times;
    var front := ws[..|ws| - 1];
    if i < |front| {
      HeldUpdate(front, i, w, q);
      assert ws[i := w][..|ws| - 1] == front[i := w];
    } else {
      assert ws[i := w][..|ws| - 1] == front;
    }
  }

  lemma {:induction false} HeldByNotified(ws: seq<Worker>, q: QueuedPacket)
    ensures TimesHeld(AllNotified(ws), q) == TimesHeld(ws, q)
  {
    hide Times;
    if ws != [] {
      HeldByNotified(ws[..|ws| - 1], q);
      assert AllNotified(ws)[..|ws| - 1] == AllNotified(ws[..|ws| - 1]);
    }
  }
}
