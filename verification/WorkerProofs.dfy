/** What every interleaving of the queue protocol keeps, and how it ends. */
module WorkerProofs {
  import opened Packets
  import opened Sequences
  import opened PacketQueue
  import opened WorkerPool

  // --- FIFO ---

  lemma DrainFifo(cfg: Config, s: State, w: nat)
    requires ValidConfig(cfg) && w < |s.workers| && Fifo(cfg, s)
    ensures Fifo(cfg, DrainLocked(cfg, s, w))
  {
    hide Concat;
    var o := DrainSegment(s.queue, cfg.batchSize);
    ConcatSnoc(s.drained, o.batch);
    assert s.queue.items == o.batch + o.queue.items;
    assert Concat(s.drained) + s.queue.items == Concat(s.drained) + o.batch + o.queue.items;
  }

  lemma PushFifo(cfg: Config, s: State, t: nat, p: QueuedPacket)
    requires t < |s.producers| && Fifo(cfg, s)
    ensures Fifo(cfg, PushLocked(cfg, s, t, p))
  {}

  lemma NextFifo(cfg: Config, s: State, a: Action, s': State)
    requires ValidConfig(cfg) && Fifo(cfg, s) && Next(cfg, s, a, s')
    ensures Fifo(cfg, s')
  {
    hide Concat, DrainLocked, PushLocked;
    match a
    case PushCall(t, p) => PushFifo(cfg, s, t, p);
    case PushRecheck(t) => PushFifo(cfg, s, t, s.producers[t].packet);
    case PopCall(w) => DrainFifo(cfg, s.(queue := BeginSegment(s.queue, cfg.batchSize)), w);
    case PopRecheck(w) => DrainFifo(cfg, s, w);
    case PopTimeout(w) => DrainFifo(cfg, s, w);
    case _ =>
  }

  /** What one drain takes: a full batch if there are that many packets, otherwise all of them. */
  lemma DrainIsFull(q: QueueState, maxN: nat)
    ensures var o := DrainSegment(q, maxN);
            && q.items == o.batch + o.queue.items
            && |o.batch| <= maxN && (|o.batch| == maxN || o.queue.items == [])
            && o.moreWaiting == (o.queue.items != [])
  {}

  lemma DrainedIsFull(cfg: Config, s: State, w: nat)
    requires w < |s.workers|
    ensures var s' := DrainLocked(cfg, s, w);
            && |s.drained| <= |s'.drained| <= |s.drained| + 1
            && (|s'.drained| == |s.drained| ==> s'.drained == s.drained && s'.queue.items == s.queue.items)
            && (|s'.drained| > |s.drained| ==> TakesFullBatch(cfg, s, s'))
  {
    DrainIsFull(s.queue, cfg.batchSize);
  }

  /** The step appends a batch from the front of the queue, as large as the batch size and the queue allow. */
  predicate TakesFullBatch(cfg: Config, s: State, s': State) {
    && |s'.drained| == |s.drained| + 1
    && var batch := s'.drained[|s.drained|];
       && s'.drained == s.drained + [batch]
       && s.queue.items == batch + s'.queue.items
       && batch != [] && |batch| <= cfg.batchSize
       && (|batch| == cfg.batchSize || s'.queue.items == [])
  }

  /** Every step of every run either takes nothing from the queue or one batch, which is full unless it empties
      the queue; and only a push, by one packet, adds to it. */
  lemma BatchesAreFull(cfg: Config, s: State, a: Action, s': State)
    requires Next(cfg, s, a, s')
    ensures if |s'.drained| > |s.drained| then TakesFullBatch(cfg, s, s')
            else s'.drained == s.drained && s.queue.items <= s'.queue.items && |s'.queue.items| <= |s.queue.items| + 1
  {
    hide DrainLocked, WakesOne, AllNotified, AllWoken, Concat;
    match a
    case PopCall(w) =>
      DrainedIsFull(cfg, s.(queue := BeginSegment(s.queue, cfg.batchSize)), w);
    case PopRecheck(w) => DrainedIsFull(cfg, s, w);
    case PopTimeout(w) => DrainedIsFull(cfg, s, w);
    case _ =>
  }

  /** Worker `w` falls asleep only for want of packets: of any at all, or, if it lingers, of a full batch. */
  predicate SleepsForPackets(cfg: Config, s: State, s': State, w: nat) {
    && |s'.workers| == |s.workers|
    && (w < |s.workers| && s'.workers[w] == AwaitPacket(false) && s.workers[w] != AwaitPacket(false) ==>
          s.queue.items == [] && !s.queue.shutdown)
    && (w < |s.workers| && s'.workers[w] == AwaitBatch(false) && s.workers[w] != AwaitBatch(false) ==>
          && |s.queue.items| < cfg.batchSize && !s.queue.shutdown
          && (s.workers[w].AwaitBatch? || (s.queue.items != [] && cfg.linger)))
  }

  lemma DrainSleeps(cfg: Config, s: State, v: nat, w: nat)
    requires v < |s.workers|
    ensures SleepsForPackets(cfg, s, DrainLocked(cfg, s, v), w)
  {}

  lemma PopSleeps(cfg: Config, s: State, v: nat, w: nat)
    requires v < |s.workers|
    ensures SleepsForPackets(cfg, s, PopLocked(cfg, s, v), w)
  {
    hide DrainLocked;
    DrainSleeps(cfg, s, v, w);
  }

  lemma ConsumersWaitForPackets(cfg: Config, s: State, a: Action, s': State, w: nat)
    requires Next(cfg, s, a, s')
    ensures SleepsForPackets(cfg, s, s', w)
  {
    match a
    case PopCall(v) =>
      hide DrainLocked, PopLocked;
      PopSleeps(cfg, s.(queue := BeginSegment(s.queue, cfg.batchSize)), v, w);
    case PopRecheck(v) =>
      hide DrainLocked, PopLocked;
      PopSleeps(cfg, s, v, w);
      DrainSleeps(cfg, s, v, w);
    case PopTimeout(v) =>
      hide DrainLocked, PopLocked;
      PopSleeps(cfg, s, v, w);
      DrainSleeps(cfg, s, v, w);
    case PushNotify(t, woken) =>
      hide WakesOne;
      WokenAwake(s.workers, woken, s'.workers, w);
    case NotifyNext(v, woken) =>
      hide WakesOne;
      WokenAwake(s.workers[v := Holding(s.workers[v].batch)], woken, s'.workers, w);
    case CloseNotifyConsumers =>
      assert w < |s.workers| ==> s'.workers[w] == Notified(s.workers[w]);
    case _ =>
      hide Concat, DrainLocked, PopLocked, AllWoken;
  }

  lemma WokenAwake(ws: seq<Worker>, woken: Option<nat>, ws': seq<Worker>, w: nat)
    requires WakesOne(ws, woken, ws')
    ensures |ws'| == |ws|
    ensures w < |ws| ==> ws'[w] == ws[w] || ws'[w] == AwaitPacket(true) || ws'[w] == AwaitBatch(true)
  {}

  /** A producer goes to sleep only before a full open queue; what it pushes is accepted unless the queue is shut. */
  lemma ProducersWaitForRoom(cfg: Config, s: State, a: Action, s': State)
    requires Next(cfg, s, a, s') && (a.PushCall? || a.PushRecheck?)
    ensures var p := if a.PushCall? then a.packet else s.producers[a.t].packet;
            if |s.queue.items| >= cfg.capacity && !s.queue.shutdown then
              s'.producers[a.t] == Blocked(p, false) && s'.queue == s.queue && s'.accepted == s.accepted
            else if s.queue.shutdown then
              s'.producers[a.t] == Idle && s'.queue == s.queue && s'.accepted == s.accepted
            else
              && s'.accepted == s.accepted + [p] && s'.queue.items == s.queue.items + [p]
              && (s'.producers[a.t] == WakeConsumer <==>
                    |s'.queue.items| == 1 || |s'.queue.items| == s.queue.wanted)
  {}

  /** Whoever takes a batch goes on to wake all producers, then one consumer if packets are left. */
  lemma DrainersNotify(cfg: Config, s: State, a: Action, s': State)
    requires Next(cfg, s, a, s')
    ensures |s'.drained| > |s.drained| ==>
              && (a.PopCall? || a.PopRecheck? || a.PopTimeout?) && a.w < |s'.workers|
              && s'.workers[a.w] == WakeProducers(s'.drained[|s.drained|], s'.queue.items != [])
    ensures a.NotifyProducers? ==>
              && |s'.workers| == |s.workers| && a.w < |s.workers| && s.workers[a.w].WakeProducers?
              && s'.workers[a.w] == (if s.workers[a.w].more then HandOff(s.workers[a.w].batch)
                                     else Holding(s.workers[a.w].batch))
    ensures a.NotifyProducers? || a.CloseNotifyProducers? ==> forall p <- s'.producers :: p.Blocked? ==> p.notified
    ensures a.CloseNotifyConsumers? ==> forall w <- s'.workers :: w != AwaitPacket(false) && w != AwaitBatch(false)
  {
    hide Concat, WakesOne;
  }

  /** A notification wakes exactly one sleeping consumer, if there is one. */
  lemma NotificationWakesOne(cfg: Config, s: State, a: Action, s': State)
    requires Next(cfg, s, a, s') && (a.PushNotify? || a.NotifyNext?)
    ensures |s'.workers| == |s.workers|
    ensures if a.woken.None?
            then forall i | 0 <= i < |s.workers| :: s.workers[i] != AwaitPacket(false) && s.workers[i] != AwaitBatch(false)
            else var i := a.woken.value;
                 && i < |s.workers|
                 && (s.workers[i] == AwaitPacket(false) || s.workers[i] == AwaitBatch(false))
                 && s'.workers[i] == s.workers[i].(notified := true)
    ensures forall i | 0 <= i < |s.workers| && a.woken != Some(i) :: SameHold(s'.workers[i], s.workers[i])
  {
    if a.woken.None? {
      var ws := if a.NotifyNext? then s.workers[a.w := Holding(s.workers[a.w].batch)] else s.workers;
      forall i | 0 <= i < |s.workers| ensures !Sleeping(s.workers[i]) {
        assert ws[i] in ws;
      }
    }
  }

  // --- analysed and held packets ---

  lemma TimesSnoc(q: QueuedPacket, parts: seq<seq<QueuedPacket>>, last: seq<QueuedPacket>)
    ensures Times(q, Concat(parts + [last])) == Times(q, Concat(parts)) + Times(q, last)
  {
    ConcatSnoc(parts, last);
  }

  lemma DrainAccounted(cfg: Config, s: State, w: nat, q: QueuedPacket)
    requires w < |s.workers| && Accounted(s, q) && Held(s.workers[w]) == []
    ensures Accounted(DrainLocked(cfg, s, w), q)
  {
    hide Times, Concat, TimesHeld;
    var o := DrainSegment(s.queue, cfg.batchSize);
    TimesSnoc(q, s.drained, o.batch);
    NoTimes(q);
    HeldUpdate(s.workers, w, DrainLocked(cfg, s, w).workers[w], q);
  }

  lemma PopAccounted(cfg: Config, s: State, w: nat, q: QueuedPacket)
    requires w < |s.workers| && Accounted(s, q) && Held(s.workers[w]) == []
    ensures Accounted(PopLocked(cfg, s, w), q)
  {
    hide Times, Concat, TimesHeld, DrainLocked;
    DrainAccounted(cfg, s, w, q);
    HeldUpdate(s.workers, w, AwaitBatch(false), q);
  }

  lemma WakesOneHeld(ws: seq<Worker>, woken: Option<nat>, ws': seq<Worker>, q: QueuedPacket)
    requires WakesOne(ws, woken, ws')
    ensures TimesHeld(ws', q) == TimesHeld(ws, q)
  {
    hide Times, TimesHeld;
    if woken.Some? {
      HeldUpdate(ws, woken.value, Notified(ws[woken.value]), q);
    }
  }

  lemma NextAccounted(cfg: Config, s: State, a: Action, s': State, q: QueuedPacket)
    requires Accounted(s, q) && Next(cfg, s, a, s')
    ensures Accounted(s', q)
  {
    hide Concat, DrainLocked, PopLocked, TimesHeld, Times, WakesOne, AllNotified;
    match a
    case PushNotify(t, woken) => WakesOneHeld(s.workers, woken, s'.workers, q);
    case PopCall(w) =>
      PopAccounted(cfg, s.(queue := BeginSegment(s.queue, cfg.batchSize)), w, q);
      HeldUpdate(s.workers, w, AwaitPacket(false), q);
    case PopRecheck(w) =>
      PopAccounted(cfg, s, w, q);
      DrainAccounted(cfg, s, w, q);
      HeldUpdate(s.workers, w, AwaitPacket(false), q);
      HeldUpdate(s.workers, w, AwaitBatch(false), q);
    case PopTimeout(w) =>
      PopAccounted(cfg, s, w, q);
      DrainAccounted(cfg, s, w, q);
    case NotifyProducers(w) =>
      HeldUpdate(s.workers, w, HandOff(s.workers[w].batch), q);
      HeldUpdate(s.workers, w, Holding(s.workers[w].batch), q);
    case NotifyNext(w, woken) =>
      HeldUpdate(s.workers, w, Holding(s.workers[w].batch), q);
      WakesOneHeld(s.workers[w := Holding(s.workers[w].batch)], woken, s'.workers, q);
    case BeginAnalysis(w) => HeldUpdate(s.workers, w, Analyzing(s.workers[w].batch), q);
    case EndAnalysis(w) =>
      HeldUpdate(s.workers, w, Start, q);
      TimesSnoc(q, s.analyzed, s.workers[w].batch);
      NoTimes(q);
    case CheckFinished(w) =>
      HeldUpdate(s.workers, w, Exited, q);
      HeldUpdate(s.workers, w, Start, q);
    case CloseNotifyConsumers => HeldByNotified(s.workers, q);
    case _ =>
  }

  lemma NextCounters(cfg: Config, s: State, a: Action, s': State)
    requires Counters(s) && Next(cfg, s, a, s')
    ensures Counters(s')
  {
    hide Concat, WakesOne;
    if a.EndAnalysis? {
      ConcatSnoc(s.analyzed, s.workers[a.w].batch);
    }
  }

  lemma NextCounted(cfg: Config, s: State, a: Action, s': State)
    requires Counted(s) && Next(cfg, s, a, s')
    ensures Counted(s')
  {
    hide Next, Accounted, Counters;
    NextCounters(cfg, s, a, s');
    forall q ensures Accounted(s', q) {
      NextAccounted(cfg, s, a, s', q);
    }
  }

  // --- what a step changes of what the workers hold ---

  predicate SameHold(u: Worker, v: Worker) { Held(u) == Held(v) && (u.Analyzing? <==> v.Analyzing?) }

  /** Nothing about what the workers hold changes, except perhaps at `w`. */
  predicate SameHoldsBut(ws: seq<Worker>, ws': seq<Worker>, w: nat) {
    |ws'| == |ws| && forall i | 0 <= i < |ws| && i != w :: SameHold(ws[i], ws'[i])
  }

  /** Worker `w`, which held nothing, now holds a new batch. */
  predicate DrainsAt(s: State, s': State, w: nat, batch: seq<QueuedPacket>) {
    && SameHoldsBut(s.workers, s'.workers, w) && w < |s.workers|
    && Held(s.workers[w]) == [] && !s.workers[w].Analyzing?
    && Held(s'.workers[w]) == batch && !s'.workers[w].Analyzing?
    && s'.drained == if batch == [] then s.drained else s.drained + [batch]
  }

  predicate Waiting(w: Worker) { w == Start || w.AwaitPacket? || w.AwaitBatch? }

  lemma DrainHolds(cfg: Config, s: State, w: nat)
    requires w < |s.workers| && Waiting(s.workers[w])
    ensures DrainsAt(s, DrainLocked(cfg, s, w), w, DrainSegment(s.queue, cfg.batchSize).batch)
  {}

  lemma WaitHolds(s: State, s': State, w: nat, worker: Worker)
    requires w < |s.workers| && Waiting(s.workers[w]) && Waiting(worker)
    requires s'.workers == s.workers[w := worker] && s'.drained == s.drained
    ensures DrainsAt(s, s', w, [])
  {}

  /** After its waits a worker has drained a batch, perhaps empty. */
  lemma PopHolds(cfg: Config, s: State, w: nat) returns (batch: seq<QueuedPacket>)
    requires w < |s.workers| && Waiting(s.workers[w])
    ensures DrainsAt(s, PopLocked(cfg, s, w), w, batch)
  {
    hide DrainsAt, DrainLocked;
    if Lingers(s.queue, cfg.batchSize, cfg.linger) {
      batch := [];
      WaitHolds(s, PopLocked(cfg, s, w), w, AwaitBatch(false));
    } else {
      batch := DrainSegment(s.queue, cfg.batchSize).batch;
      DrainHolds(cfg, s, w);
    }
  }

  lemma PopStepHolds(cfg: Config, s: State, a: Action, s': State) returns (batch: seq<QueuedPacket>)
    requires Next(cfg, s, a, s') && (a.PopCall? || a.PopRecheck? || a.PopTimeout?)
    ensures DrainsAt(s, s', a.w, batch)
  {
    hide PopLocked, DrainLocked;
    batch := [];
    var begun := s.(queue := BeginSegment(s.queue, cfg.batchSize));
    var w := a.w;
    if a.PopCall? {
      if PopReady(s.queue) {
        batch := PopHolds(cfg, begun, w);
      }
    } else if a.PopTimeout? {
      if s.workers[w].AwaitPacket? {
        batch := PopHolds(cfg, s, w);
      } else {
        batch := DrainSegment(s.queue, cfg.batchSize).batch;
        DrainHolds(cfg, s, w);
      }
    } else if s.workers[w].AwaitPacket? {
      if PopReady(s.queue) {
        batch := PopHolds(cfg, s, w);
      }
    } else if BatchReady(s.queue, cfg.batchSize) {
      batch := DrainSegment(s.queue, cfg.batchSize).batch;
      DrainHolds(cfg, s, w);
    }
  }

  /** Notifying a consumer changes nothing it holds. */
  lemma NotifyHolds(ws: seq<Worker>, woken: Option<nat>, ws': seq<Worker>)
    requires WakesOne(ws, woken, ws')
    ensures SameHoldsBut(ws, ws', |ws|)
  {}

  lemma OtherStepHolds(cfg: Config, s: State, a: Action, s': State)
    requires Next(cfg, s, a, s') && !a.PopCall? && !a.PopRecheck? && !a.PopTimeout? && !a.BeginAnalysis? && !a.EndAnalysis?
    ensures SameHoldsBut(s.workers, s'.workers, |s.workers|) && s'.drained == s.drained
  {
    hide WakesOne, AllWoken;
    match a
    case PushNotify(t, woken) => NotifyHolds(s.workers, woken, s'.workers);
    case NotifyNext(w, woken) => NotifyHolds(s.workers[w := Holding(s.workers[w].batch)], woken, s'.workers);
    case _ =>
  }

  // --- no lost wake-up for producers ---

  /** A worker that is about to wake every producer is still about to, unless this step was its turn. */
  predicate WakersKept(s: State, s': State) {
    |s'.workers| == |s.workers| &&
    forall i | 0 <= i < |s.workers| && s.workers[i].WakeProducers? :: s'.workers[i].WakeProducers?
  }

  lemma DrainWakeup(cfg: Config, s: State, w: nat)
    requires ValidConfig(cfg) && w < |s.workers| && NoLostWakeup(cfg, s) && !s.workers[w].WakeProducers?
    ensures NoLostWakeup(cfg, DrainLocked(cfg, s, w))
  {
    var s' := DrainLocked(cfg, s, w);
    assert s'.workers[w] in s'.workers;
    SameWakers(s, s');
  }

  lemma SameWakers(s: State, s': State)
    requires WakersKept(s, s')
    ensures (exists w <- s.workers :: w.WakeProducers?) ==> exists w <- s'.workers :: w.WakeProducers?
  {
    if w :| w in s.workers && w.WakeProducers? {
      var i :| 0 <= i < |s.workers| && s.workers[i] == w;
      assert s'.workers[i] in s'.workers;
    }
  }

  lemma PopWakeup(cfg: Config, s: State, w: nat)
    requires ValidConfig(cfg) && w < |s.workers| && NoLostWakeup(cfg, s) && !s.workers[w].WakeProducers?
    ensures NoLostWakeup(cfg, PopLocked(cfg, s, w))
  {
    DrainWakeup(cfg, s, w);
    SameWakers(s, s.(workers := s.workers[w := AwaitBatch(false)]));
  }

  lemma PushWakeup(cfg: Config, s: State, t: nat, p: QueuedPacket)
    requires t < |s.producers| && NoLostWakeup(cfg, s)
    ensures NoLostWakeup(cfg, PushLocked(cfg, s, t, p))
  {
    var s' := PushLocked(cfg, s, t, p);
    forall q <- s'.producers | q.Blocked? && !q.notified
      ensures q in s.producers || q == Blocked(p, false)
    {
      var i :| 0 <= i < |s'.producers| && s'.producers[i] == q;
      if i != t { assert s.producers[i] == q; }
    }
  }

  lemma NextWakeup(cfg: Config, s: State, a: Action, s': State)
    requires ValidConfig(cfg) && NoLostWakeup(cfg, s) && Next(cfg, s, a, s')
    ensures NoLostWakeup(cfg, s')
  {
    hide DrainLocked, PushLocked, PopLocked;
    match a
    case PushCall(t, p) => PushWakeup(cfg, s, t, p);
    case PushRecheck(t) => PushWakeup(cfg, s, t, s.producers[t].packet);
    case PushNotify(t, woken) => SameWakers(s, s');
    case PopCall(w) =>
      var begun := s.(queue := BeginSegment(s.queue, cfg.batchSize));
      PopWakeup(cfg, begun, w);
      SameWakers(begun, begun.(workers := s.workers[w := AwaitPacket(false)]));
    case PopRecheck(w) =>
      PopWakeup(cfg, s, w);
      DrainWakeup(cfg, s, w);
      SameWakers(s, s.(workers := s.workers[w := AwaitPacket(false)]));
      SameWakers(s, s.(workers := s.workers[w := AwaitBatch(false)]));
    case PopTimeout(w) =>
      PopWakeup(cfg, s, w);
      DrainWakeup(cfg, s, w);
    case NotifyProducers(w) =>
    case NotifyNext(w, woken) => SameWakers(s, s');
    case BeginAnalysis(w) => SameWakers(s, s');
    case EndAnalysis(w) => SameWakers(s, s');
    case CheckFinished(w) => SameWakers(s, s');
    case CloseQueue =>
    case CloseNotifyProducers =>
    case CloseNotifyConsumers => SameWakers(s, s');
  }

  // --- exits ---

  /** A closed and drained queue stays so. */
  lemma NextClosed(cfg: Config, s: State, a: Action, s': State)
    requires Next(cfg, s, a, s')
    ensures s.queue.shutdown ==> s'.queue.shutdown
    ensures s.queue.shutdown && s.queue.items == [] ==> s'.queue.items == []
  {
    hide Concat, WakesOne, AllNotified, AllWoken;
  }

  /** The only step that exits a worker is one that found the queue closed and drained. */
  lemma NewExit(cfg: Config, s: State, a: Action, s': State, i: nat)
    requires Next(cfg, s, a, s') && i < |s'.workers| && s'.workers[i] == Exited
    ensures i < |s.workers| && (s.workers[i] == Exited || (s.queue.shutdown && s.queue.items == []))
  {
    hide Concat, AllWoken;
  }

  lemma NextExits(cfg: Config, s: State, a: Action, s': State)
    requires ExitsDrained(s) && Next(cfg, s, a, s')
    ensures ExitsDrained(s')
    ensures s.queue.shutdown ==> s'.queue.shutdown
    ensures s.queue.shutdown && s.queue.items == [] ==> s'.queue.items == []
  {
    NextClosed(cfg, s, a, s');
    hide Next;
    forall w <- s'.workers | w == Exited ensures w in s.workers || (s.queue.shutdown && s.queue.items == []) {
      var i :| 0 <= i < |s'.workers| && s'.workers[i] == w;
      NewExit(cfg, s, a, s', i);
    }
  }

  lemma InitInv(cfg: Config, s: State)
    requires Init(s)
    ensures Inv(cfg, s)
  {
    forall q ensures Accounted(s, q) {
      NobodyHolds(s.workers, q);
    }
  }

  lemma {:induction false} NobodyHolds(ws: seq<Worker>, q: QueuedPacket)
    requires forall w <- ws :: Held(w) == []
    ensures TimesHeld(ws, q) == 0
  {
    if ws != [] {
      assert ws[|ws| - 1] in ws;
      NobodyHolds(ws[..|ws| - 1], q);
    }
  }

  lemma NextInv(cfg: Config, s: State, a: Action, s': State)
    requires ValidConfig(cfg) && Inv(cfg, s) && Next(cfg, s, a, s')
    ensures Inv(cfg, s')
  {
    hide Fifo, Counted, NoLostWakeup, ExitsDrained, Next;
    NextFifo(cfg, s, a, s');
    NextCounted(cfg, s, a, s');
    NextWakeup(cfg, s, a, s');
    NextExits(cfg, s, a, s');
  }

  lemma {:induction false} TraceInv(cfg: Config, tr: Trace, n: nat)
    requires ValidConfig(cfg) && IsTrace(cfg, tr) && n <= |tr.actions|
    ensures Inv(cfg, tr.states[n])
  {
    hide Inv, Next, Init;
    if n == 0 {
      InitInv(cfg, tr.states[0]);
    } else {
      TraceInv(cfg, tr, n - 1);
      NextInv(cfg, tr.states[n - 1], tr.actions[n - 1], tr.states[n]);
    }
  }

  // --- FIFO over whole runs ---

  /** Batch `i` is the run of packets right after the batches before it. */
  ghost predicate IsNextRun(packets: seq<QueuedPacket>, batches: seq<seq<QueuedPacket>>, i: nat)
    requires i < |batches|
  {
    var from := |Concat(batches[..i])|;
    from + |batches[i]| <= |packets| && packets[from..from + |batches[i]|] == batches[i]
  }

  lemma BatchIsNextRun(batches: seq<seq<QueuedPacket>>, rest: seq<QueuedPacket>, i: nat)
    requires i < |batches|
    ensures IsNextRun(Concat(batches) + rest, batches, i)
  {
    hide Concat;
    PartAt(batches, i);
    var from := |Concat(batches[..i])|;
    SliceOfPrefix(Concat(batches), rest, from, from + |batches[i]|);
  }

  /** Nothing is lost, duplicated or reordered, and the queue never exceeds its capacity: in every
      reachable state each batch is the next contiguous run of accepted packets. */
  lemma DeliveryIsFifo(cfg: Config, tr: Trace, n: nat)
    requires ValidConfig(cfg) && IsTrace(cfg, tr) && n <= |tr.actions|
    ensures var s := tr.states[n];
            && s.accepted == Concat(s.drained) + s.queue.items
            && |s.queue.items| <= cfg.capacity
            && forall i | 0 <= i < |s.drained| ::
                 1 <= |s.drained[i]| <= cfg.batchSize && IsNextRun(s.accepted, s.drained, i)
  {
    TraceInv(cfg, tr, n);
    var s := tr.states[n];
    hide IsTrace, Counted, NoLostWakeup, ExitsDrained, Concat, IsNextRun;
    forall i | 0 <= i < |s.drained| ensures 1 <= |s.drained[i]| <= cfg.batchSize && IsNextRun(s.accepted, s.drained, i) {
      BatchIsNextRun(s.drained, s.queue.items, i);
      assert s.drained[i] in s.drained;
    }
  }

  /** A sleeping, un-notified producer faces a full open queue or still has its wake-up coming. */
  lemma ProducersAreNotForgotten(cfg: Config, tr: Trace, n: nat, t: nat)
    requires ValidConfig(cfg) && IsTrace(cfg, tr) && n <= |tr.actions|
    requires var s := tr.states[n]; t < |s.producers| && s.producers[t].Blocked? && !s.producers[t].notified
    ensures var s := tr.states[n];
            || (|s.queue.items| == cfg.capacity && !s.queue.shutdown)
            || (exists w | 0 <= w < |s.workers| :: s.workers[w].WakeProducers?)
            || s.closer == WakeAllProducers
  {
    TraceInv(cfg, tr, n);
    hide IsTrace, Counted, ExitsDrained, Concat;
    var s := tr.states[n];
    assert s.producers[t] in s.producers;
  }

  // --- shutdown ---

  lemma {:induction false} DrainedIsForGood(cfg: Config, tr: Trace, m: nat, n: nat)
    requires ValidConfig(cfg) && IsTrace(cfg, tr) && m <= n <= |tr.actions|
    requires tr.states[m].queue.shutdown && tr.states[m].queue.items == []
    ensures tr.states[n].queue.shutdown && tr.states[n].queue.items == []
    ensures tr.states[n].accepted == tr.states[m].accepted
  {
    hide Next, Init;
    if m < n {
      DrainedIsForGood(cfg, tr, m, n - 1);
      TraceInv(cfg, tr, n - 1);
      ClosedAcceptsNothing(cfg, tr.states[n - 1], tr.actions[n - 1], tr.states[n]);
      NextExits(cfg, tr.states[n - 1], tr.actions[n - 1], tr.states[n]);
    }
  }

  lemma ClosedAcceptsNothing(cfg: Config, s: State, a: Action, s': State)
    requires s.queue.shutdown && Next(cfg, s, a, s')
    ensures s'.queue.shutdown && s'.accepted == s.accepted && |s'.queue.items| <= |s.queue.items|
  {}

  /** A worker that has exited saw a closed and drained queue, and the queue stays that way. */
  lemma ExitMeansDrained(cfg: Config, tr: Trace, m: nat, n: nat, w: nat)
    requires ValidConfig(cfg) && IsTrace(cfg, tr) && m <= n <= |tr.actions|
    requires w < |tr.states[m].workers| && tr.states[m].workers[w] == Exited
    ensures tr.states[n].queue.shutdown && tr.states[n].queue.items == []
    ensures tr.states[n].accepted == tr.states[m].accepted
  {
    TraceInv(cfg, tr, m);
    assert tr.states[m].workers[w] in tr.states[m].workers;
    DrainedIsForGood(cfg, tr, m, n);
  }

  /** Once every worker has exited, every accepted packet has been analysed, exactly once. */
  lemma AllProcessed(cfg: Config, tr: Trace, n: nat)
    requires ValidConfig(cfg) && IsTrace(cfg, tr) && n <= |tr.actions|
    requires tr.states[n].workers != [] && forall w <- tr.states[n].workers :: w == Exited
    ensures multiset(Concat(tr.states[n].analyzed)) == multiset(tr.states[n].accepted)
    ensures tr.states[n].processed == |tr.states[n].accepted|
  {
    TraceInv(cfg, tr, n);
    hide IsTrace, NoLostWakeup, Concat, TimesHeld;
    var s := tr.states[n];
    assert s.workers[0] in s.workers;
    assert s.accepted == Concat(s.drained);
    forall q ensures Times(q, Concat(s.analyzed)) == Times(q, s.accepted) {
      NobodyHolds(s.workers, q);
      assert Accounted(s, q);
    }
    SameTimes(Concat(s.analyzed), s.accepted);
  }

  // --- termination ---

  /** How far a worker is from exiting, given whether packets are still queued. */
  function Rank(w: Worker, empty: bool): nat {
    match w
    case Start => if empty then 2 else 3
    case AwaitPacket(_) => if empty then 2 else 3
    case AwaitBatch(_) => if empty then 2 else 3
    case WakeProducers(_, _) => if empty then 6 else 7
    case HandOff(_) => if empty then 5 else 6
    case Holding(batch) => if batch == [] && empty then 1 else if empty then 4 else 5
    case Analyzing(_) => if empty then 3 else 4
    case Exited => 0
  }

  function TotalRank(ws: seq<Worker>, empty: bool): nat {
    if ws == [] then 0 else TotalRank(ws[..|ws| - 1], empty) + Rank(ws[|ws| - 1], empty)
  }

  /** The termination measure of a closed queue. */
  function Remaining(s: State): nat {
    5 * |s.queue.items| + TotalRank(s.workers, s.queue.items == [])
  }

  predicate IsWorkerStep(a: Action) {
    a.PopCall? || a.PopRecheck? || a.PopTimeout? || a.NotifyProducers? || a.NotifyNext? || a.BeginAnalysis?
    || a.EndAnalysis? || a.CheckFinished?
  }

  lemma {:induction false} RankUpdate(ws: seq<Worker>, i: nat, w: Worker, empty: bool)
    requires i < |ws|
    ensures TotalRank(ws[i := w], empty) == TotalRank(ws, empty) - Rank(ws[i], empty) + Rank(w, empty)
  {
    var front := ws[..|ws| - 1];
    if i < |front| {
      RankUpdate(front, i, w, empty);
      assert ws[i := w][..|ws| - 1] == front[i := w];
    } else {
      assert ws[i := w][..|ws| - 1] == front;
    }
  }

  lemma {:induction false} EmptyRanksLower(ws: seq<Worker>)
    ensures TotalRank(ws, true) <= TotalRank(ws, false)
  {
    if ws != [] {
      EmptyRanksLower(ws[..|ws| - 1]);
    }
  }

  lemma {:induction false} RankOfNotified(ws: seq<Worker>, empty: bool)
    ensures TotalRank(AllNotified(ws), empty) == TotalRank(ws, empty)
  {
    if ws != [] {
      RankOfNotified(ws[..|ws| - 1], empty);
      assert AllNotified(ws)[..|ws| - 1] == AllNotified(ws[..|ws| - 1]);
    }
  }

  lemma WakesOneRank(ws: seq<Worker>, woken: Option<nat>, ws': seq<Worker>, empty: bool)
    requires WakesOne(ws, woken, ws')
    ensures TotalRank(ws', empty) == TotalRank(ws, empty)
  {
    if woken.Some? {
      RankUpdate(ws, woken.value, Notified(ws[woken.value]), empty);
    }
  }

  lemma DrainDecreases(cfg: Config, s: State, w: nat)
    requires ValidConfig(cfg) && s.queue.shutdown && w < |s.workers|
    requires s.workers[w] == Start || s.workers[w].AwaitPacket? || s.workers[w].AwaitBatch?
    ensures Remaining(DrainLocked(cfg, s, w)) < Remaining(s)
  {
    var s' := DrainLocked(cfg, s, w);
    RankUpdate(s.workers, w, s'.workers[w], s.queue.items == []);
    EmptyRanksLower(s'.workers);
  }

  /** A closed queue is ready for every wait, so each pop step drains. */
  lemma PopStepDrains(cfg: Config, s: State, a: Action, s': State)
    requires ValidConfig(cfg) && s.queue.shutdown && Next(cfg, s, a, s') && (a.PopCall? || a.PopRecheck? || a.PopTimeout?)
    ensures Remaining(s') < Remaining(s)
  {
    hide DrainLocked, TotalRank;
    if a.PopCall? {
      DrainDecreases(cfg, s.(queue := BeginSegment(s.queue, cfg.batchSize)), a.w);
    } else {
      DrainDecreases(cfg, s, a.w);
    }
  }

  /** After shutdown every worker step brings the workers closer to exiting, and no other step sets them back. */
  lemma StepsRunOut(cfg: Config, s: State, a: Action, s': State)
    requires ValidConfig(cfg) && s.queue.shutdown && Next(cfg, s, a, s')
    ensures if IsWorkerStep(a) then Remaining(s') < Remaining(s) else Remaining(s') == Remaining(s)
  {
    if a.PopCall? || a.PopRecheck? || a.PopTimeout? {
      PopStepDrains(cfg, s, a, s');
    } else {
      OtherStepsRunOut(cfg, s, a, s');
    }
  }

  lemma OtherStepsRunOut(cfg: Config, s: State, a: Action, s': State)
    requires s.queue.shutdown && Next(cfg, s, a, s') && !a.PopCall? && !a.PopRecheck? && !a.PopTimeout?
    ensures if IsWorkerStep(a) then Remaining(s') < Remaining(s) else Remaining(s') == Remaining(s)
  {
    hide TotalRank, WakesOne, AllNotified, AllWoken, Concat;
    var empty := s.queue.items == [];
    match a
    case PushNotify(t, woken) => WakesOneRank(s.workers, woken, s'.workers, empty);
    case NotifyProducers(w) => RankUpdate(s.workers, w, s'.workers[w], empty);
    case NotifyNext(w, woken) =>
      RankUpdate(s.workers, w, Holding(s.workers[w].batch), empty);
      WakesOneRank(s.workers[w := Holding(s.workers[w].batch)], woken, s'.workers, empty);
    case BeginAnalysis(w) => RankUpdate(s.workers, w, s'.workers[w], empty);
    case EndAnalysis(w) => RankUpdate(s.workers, w, Start, empty);
    case CheckFinished(w) => RankUpdate(s.workers, w, s'.workers[w], empty);
    case CloseNotifyConsumers => RankOfNotified(s.workers, empty);
    case _ =>
  }

  function WorkerSteps(actions: seq<Action>): nat {
    if actions == [] then 0
    else WorkerSteps(actions[..|actions| - 1]) + if IsWorkerStep(actions[|actions| - 1]) then 1 else 0
  }

  /** Whatever the interleaving, the workers take at most `Remaining` more steps after shutdown. */
  lemma {:induction false} WorkersStopAfterShutdown(cfg: Config, tr: Trace, m: nat, n: nat)
    requires ValidConfig(cfg) && IsTrace(cfg, tr) && m <= n <= |tr.actions|
    requires tr.states[m].queue.shutdown
    ensures tr.states[n].queue.shutdown
    ensures WorkerSteps(tr.actions[m..n]) + Remaining(tr.states[n]) <= Remaining(tr.states[m])
  {
    hide Next, Init, Remaining, IsWorkerStep;
    if m < n {
      WorkersStopAfterShutdown(cfg, tr, m, n - 1);
      StepsRunOut(cfg, tr.states[n - 1], tr.actions[n - 1], tr.states[n]);
      ClosedAcceptsNothing(cfg, tr.states[n - 1], tr.actions[n - 1], tr.states[n]);
      assert tr.actions[m..n][..n - m - 1] == tr.actions[m..n - 1];
    }
  }

  ghost predicate WorkerEnabled(cfg: Config, s: State, w: nat) {
    exists a, s' :: IsWorkerStep(a) && WorkerOf(a) == w && Next(cfg, s, a, s')
  }

  function WorkerOf(a: Action): nat
    requires IsWorkerStep(a)
  {
    a.w
  }

  function SomeSleeper(ws: seq<Worker>): Option<nat> {
    if ws == [] then None
    else if Sleeping(ws[|ws| - 1]) then Some(|ws| - 1)
    else SomeSleeper(ws[..|ws| - 1])
  }

  lemma {:induction false} SleeperFound(ws: seq<Worker>)
    ensures match SomeSleeper(ws)
            case None => forall w <- ws :: !Sleeping(w)
            case Some(i) => i < |ws| && Sleeping(ws[i])
  {
    if ws != [] {
      SleeperFound(ws[..|ws| - 1]);
      assert ws == ws[..|ws| - 1] + [ws[|ws| - 1]];
    }
  }

  /** No worker ever gets stuck: until it has exited, it has a step to take. */
  lemma WorkersAreNeverStuck(cfg: Config, s: State, w: nat)
    requires w < |s.workers| && s.workers[w] != Exited
    ensures WorkerEnabled(cfg, s, w)
  {
    var batchHeld := s.workers[w := Holding(if s.workers[w].HandOff? then s.workers[w].batch else [])];
    SleeperFound(batchHeld);
    var woken := SomeSleeper(batchHeld);
    var a := match s.workers[w]
      case Start => PopCall(w)
      case AwaitPacket(_) => PopTimeout(w)
      case AwaitBatch(_) => PopTimeout(w)
      case WakeProducers(_, _) => NotifyProducers(w)
      case HandOff(_) => NotifyNext(w, woken)
      case Holding(batch) => if batch == [] then CheckFinished(w) else BeginAnalysis(w)
      case Analyzing(_) => EndAnalysis(w)
      case Exited => CheckFinished(w);
    var begun := s.(queue := BeginSegment(s.queue, cfg.batchSize));
    var s' := match s.workers[w]
      case Start =>
        if PopReady(s.queue) then PopLocked(cfg, begun, w)
        else begun.(workers := s.workers[w := AwaitPacket(false)])
      case AwaitPacket(_) => PopLocked(cfg, s, w)
      case AwaitBatch(_) => DrainLocked(cfg, s, w)
      case WakeProducers(batch, more) =>
        s.(producers := AllWoken(s.producers), workers := s.workers[w := if more then HandOff(batch) else Holding(batch)])
      case HandOff(batch) =>
        s.(workers := if woken.Some? then batchHeld[woken.value := Notified(batchHeld[woken.value])] else batchHeld)
      case Holding(batch) =>
        if batch == [] then
          s.(workers := s.workers[w := if Finished(s.queue) then Exited else Start])
        else
          s.(workers := s.workers[w := Analyzing(batch)])
      case Analyzing(batch) =>
        s.(workers := s.workers[w := Start], processed := s.processed + |batch|, batches := s.batches + 1,
           analyzed := s.analyzed + [batch])
      case Exited => s;
    assert IsWorkerStep(a) && WorkerOf(a) == w && Next(cfg, s, a, s');
  }

  /** When no worker has a step left, all have exited and every accepted packet has been processed. */
  lemma QuietMeansDone(cfg: Config, tr: Trace, n: nat)
    requires ValidConfig(cfg) && IsTrace(cfg, tr) && n <= |tr.actions|
    requires tr.states[n].workers != [] && forall w | 0 <= w < |tr.states[n].workers| :: !WorkerEnabled(cfg, tr.states[n], w)
    ensures forall w <- tr.states[n].workers :: w == Exited
    ensures tr.states[n].processed == |tr.states[n].accepted|
  {
    hide Next, Init, WorkerEnabled;
    var s := tr.states[n];
    forall w <- s.workers ensures w == Exited {
      var i :| 0 <= i < |s.workers| && s.workers[i] == w;
      if w != Exited {
        WorkersAreNeverStuck(cfg, s, i);
      }
    }
    AllProcessed(cfg, tr, n);
  }
}
