/** The bounded queue: what each lock-held segment of its calls does to the shared state. */
module PacketQueue {
  import opened Packets

  /** The fields guarded by the mutex. */
  datatype QueueState = QueueState(items: seq<QueuedPacket>, wanted: nat, shutdown: bool)

  const EMPTY_QUEUE := QueueState([], 1, false)

  /** The predicate a producer waits for. */
  predicate PushReady(q: QueueState, capacity: nat) { |q.items| < capacity || q.shutdown }

  /** The predicates a consumer waits for: first for any packet, then for a full batch. */
  predicate PopReady(q: QueueState) { q.items != [] || q.shutdown }

  predicate BatchReady(q: QueueState, maxN: nat) { |q.items| >= maxN || q.shutdown }

  /** Whether `pop_batch` releases the lock a second time to wait for a full batch. */
  predicate Lingers(q: QueueState, maxN: nat, linger: bool) {
    q.items != [] && |q.items| < maxN && !q.shutdown && linger
  }

  datatype PushOutcome = PushOutcome(queue: QueueState, accepted: bool, wake: bool)

  /** `push` once its wait is over. */
  function PushSegment(q: QueueState, p: QueuedPacket): PushOutcome {
    if q.shutdown then PushOutcome(q, false, false)
    else
      var size := |q.items| + 1;
      PushOutcome(q.(items := q.items + [p]), true, size == 1 || size == q.wanted)
  }

  function BatchSize(q: QueueState, maxN: nat): nat {
    if maxN < |q.items| then maxN else |q.items|
  }

  datatype PopOutcome = PopOutcome(queue: QueueState, batch: seq<QueuedPacket>, moreWaiting: bool)

  /** `pop_batch` once its waits are over. */
  function DrainSegment(q: QueueState, maxN: nat): PopOutcome {
    var n := BatchSize(q, maxN);
    PopOutcome(q.(items := q.items[n..]), q.items[..n], q.items[n..] != [])
  }

  /** `pop_batch` once it has the lock. */
  function BeginSegment(q: QueueState, maxN: nat): QueueState { q.(wanted := maxN) }

  function ShutdownSegment(q: QueueState): QueueState { q.(shutdown := true) }

  predicate Finished(q: QueueState) { q.shutdown && q.items == [] }

  class PacketQueue {
    const capacity: nat
    var items: seq<QueuedPacket>
    var wanted: nat
    var shutdown: bool

    ghost function View(): QueueState
      reads this
    {
      QueueState(items, wanted, shutdown)
    }

    constructor (capacity: nat)
      ensures this.capacity == capacity && View() == EMPTY_QUEUE
    {
      this.capacity, items, wanted, shutdown := capacity, [], 1, false;
    }

    method FinishPush(packet: QueuedPacket) returns (accepted: bool, wake: bool)
      requires PushReady(View(), capacity)
      modifies this
      ensures PushOutcome(View(), accepted, wake) == PushSegment(old(View()), packet)
      ensures old(|items|) <= capacity ==> |items| <= capacity
      ensures accepted <==> !old(shutdown)
      ensures items == if accepted then old(items) + [packet] else old(items)
      ensures wake <==> accepted && (|items| == 1 || |items| == wanted)
    {
      if shutdown {
        return false, false;
      }
      items := items + [packet];
      var size := |items|;
      return true, size == 1 || size == wanted;
    }

    method BeginPop(maxN: nat)
      modifies this`wanted
      ensures View() == BeginSegment(old(View()), maxN) && wanted == maxN
    {
      wanted := maxN;
    }

    method Drain(maxN: nat) returns (batch: seq<QueuedPacket>, moreWaiting: bool)
      modifies this`items
      ensures PopOutcome(View(), batch, moreWaiting) == DrainSegment(old(View()), maxN)
      ensures batch + items == old(items)
      ensures |batch| <= maxN && (|batch| == maxN || items == [])
      ensures moreWaiting <==> items != []
    {
      batch := [];
      var n := if maxN < |items| then maxN else |items|;
      for i := 0 to n
        invariant items == old(items)[i..] && batch == old(items)[..i]
      {
        batch := batch + [items[0]];
        items := items[1..];
      }
      moreWaiting := items != [];
    }

    method Shutdown()
      modifies this`shutdown
      ensures View() == ShutdownSegment(old(View())) && shutdown && items == old(items)
    {
      shutdown := true;
    }

    method IsFinished() returns (finished: bool)
      ensures finished <==> Finished(View())
      ensures finished <==> shutdown && items == []
    {
      finished := shutdown && items == [];
    }
  }
}
