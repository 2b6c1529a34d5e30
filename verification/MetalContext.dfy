/** The buffer pool shared by concurrent dispatches. */
module MetalContext {
  import opened Packets
  import opened Entropy
  import opened EntropyKernel
  import opened MetalHost

  /** How Metal answers one submission's calls. */
  datatype Metal = Metal(
    pipelineLoaded: bool,
    allocates: seq<bool>,
    commandBuffer: bool,
    garbage: nat -> Byte,
    words: nat -> nat,
    floats: nat -> real)

  /** Every call a submission makes succeeds. */
  predicate Accepts(metal: Metal) { metal.pipelineLoaded && metal.commandBuffer && false !in metal.allocates }

  class MetalContext {
    const term: Term
    const threads: nat
    var freeBuffers: seq<EntropyBufferSet>
    /** Every buffer set made so far, and every dispatch not yet destroyed. */
    ghost var made: set<EntropyBufferSet>
    ghost var live: set<PendingGpuEntropy>

    /** Each buffer set is in the pool, idle, or owned by exactly one pending dispatch. */
    ghost predicate Valid()
      reads this, made, live
    {
      ValidExcept({})
    }

    /** As Valid, with some sets held by a call in progress. */
    ghost predicate ValidExcept(held: set<EntropyBufferSet>)
      reads this, made, live
    {
      && ValidGroup(threads)
      && PoolOk(freeBuffers, made)
      && LiveOk(live, made, term, threads)
      && forall b <- made :: if b.owner == null then b in freeBuffers <==> b !in held
                             else b !in held && b.owner in live && b.owner.buffers == b
    }

    constructor (term: Term, maxThreads: nat)
      requires maxThreads >= 1
      ensures Valid() && freeBuffers == [] && live == {} && made == {} && this.term == term
    {
      var group := GroupSize(maxThreads);
      this.term, this.threads := term, group;
      freeBuffers, made, live := [], {}, {};
    }

    /** Takes the last pooled set, or makes a new one. */
    method TakeBuffers() returns (b: EntropyBufferSet)
      requires Valid()
      modifies this`freeBuffers, this`made
      ensures ValidExcept({b}) && b in made && fresh(made - old(made))
      ensures b.BuffersOk() && !b.busy && b.owner == null
      ensures if old(freeBuffers) == [] then fresh(b) && freeBuffers == [] && made == old(made) + {b}
              else freeBuffers + [b] == old(freeBuffers) && made == old(made)
    {
      hide MetalHost.EntropyBufferSet.BuffersOk, MetalHost.PendingGpuEntropy.Ok, ValidGroup;
      if freeBuffers == [] {
        b := new EntropyBufferSet();
        made := made + {b};
      } else {
        b := freeBuffers[|freeBuffers| - 1];
        freeBuffers := freeBuffers[..|freeBuffers| - 1];
      }
    }

    method ReturnBuffers(b: EntropyBufferSet)
      requires ValidExcept({b}) && b in made
      requires b.BuffersOk() && !b.busy && b.owner == null
      modifies this`freeBuffers, b`slot
      ensures Valid() && freeBuffers == old(freeBuffers) + [b]
    {
      hide MetalHost.EntropyBufferSet.BuffersOk, ValidGroup;
      b.slot := |freeBuffers|;
      freeBuffers := freeBuffers + [b];
    }

    /** Wraps a held set in a pending dispatch; committing its command makes the set busy. */
    method Commit(b: EntropyBufferSet, payloads: seq<seq<Byte>>) returns (pending: PendingGpuEntropy)
      requires ValidExcept({b}) && b in made && b.BuffersOk() && !b.busy && b.owner == null
      requires payloads != [] ==> b.results.contents.Some? && |payloads| <= |b.results.contents.value|
      requires payloads != [] && Fits(payloads, threads) ==> b.Holds(payloads)
      modifies this`live, b`owner, b`busy
      ensures Valid() && fresh(pending) && live == old(live) + {pending}
      ensures pending.buffers == b && pending.payloads == payloads && !pending.waited && !pending.finished
      ensures pending.dispatched <==> payloads != []
    {
      hide MetalHost.EntropyBufferSet.BuffersOk, EntropyBufferSet.Holds, ResultsAre, Fits, ValidGroup;
      pending := new PendingGpuEntropy(b, payloads != [], payloads);
      b.owner, b.busy := pending, payloads != [];
      live := live + {pending};
    }

    /** Starts a dispatch, or returns null when Metal refuses one of its calls; the buffer set it took is
        then back in the pool. */
    method SubmitPayloadEntropy(payloads: seq<seq<Byte>>, metal: Metal) returns (pending: PendingGpuEntropy?)
      requires Valid() && |metal.allocates| == 4
      modifies this`freeBuffers, this`made, this`live, freeBuffers
      ensures Valid() && old(made) <= made && fresh(made - old(made))
      ensures Accepts(metal) ==> pending != null
      ensures metal.pipelineLoaded && metal.commandBuffer && metal.allocates == [true, true, true, true] ==> pending != null
      ensures payloads != [] && !metal.commandBuffer ==> pending == null
      ensures pending == null ==> live == old(live)
      ensures pending != null ==>
                && fresh(pending) && live == old(live) + {pending}
                && pending.payloads == payloads && !pending.waited && !pending.finished
                && (pending.dispatched <==> payloads != [])
      ensures pending != null ==> pending.buffers in old(freeBuffers) || fresh(pending.buffers)
      ensures metal.pipelineLoaded && payloads == [] ==> pending != null
      ensures !metal.pipelineLoaded ==> pending == null && freeBuffers == old(freeBuffers)
    {
      hide EntropyBufferSet.BuffersOk, EntropyBufferSet.Holds, PendingGpuEntropy.Ok, ValidGroup, Fits;
      if !metal.pipelineLoaded {
        return null;
      }
      var b := TakeBuffers();
      if payloads == [] {
        pending := Commit(b, payloads);
        return;
      }
      var ok := PrepareBuffers(b, payloads, metal);
      if !ok || !metal.commandBuffer {
        ReturnBuffers(b);
        return null;
      }
      pending := Commit(b, payloads);
    }

    /** Grows the set's buffers and packs the payloads into them. */
    method PrepareBuffers(b: EntropyBufferSet, payloads: seq<seq<Byte>>, metal: Metal) returns (ok: bool)
      requires ValidExcept({b}) && b in made && |metal.allocates| == 4
      requires b.BuffersOk() && !b.busy && b.owner == null
      modifies b
      ensures ValidExcept({b}) && b.BuffersOk() && !b.busy && b.owner == null
      ensures ok ==> b.results.contents.Some? && |payloads| <= |b.results.contents.value|
      ensures ok && Fits(payloads, threads) ==> b.Holds(payloads)
      ensures !ok ==> false in metal.allocates
    {
      hide EntropyBufferSet.BuffersOk, EntropyBufferSet.Holds, ValidGroup;
      ok := b.Grow(TotalBytes(payloads), |payloads|, metal.allocates, metal.garbage, metal.words, metal.floats);
      if ok {
        b.Pack(payloads);
      }
    }

    /** The kernels of one dispatch write their results; nothing else in the buffers changes. */
    method RunDispatch(b: EntropyBufferSet, payloads: seq<seq<Byte>>)
      requires ValidGroup(threads) && b.BuffersOk() && b.Holds(payloads) && Fits(payloads, threads)
      modifies b`results
      ensures b.BuffersOk() && b.Holds(payloads)
      ensures b.results.contents.Some? && ResultsAre(b.results.contents.value, payloads, term)
    {
      hide ValidGroup, ResultsAre;
      var results := RunKernels(b.data.contents.value, b.offsets.contents.value, b.lengths.contents.value,
                                b.results.contents.value, payloads, |payloads|, term, threads);
      b.results := b.results.(contents := Some(results));
    }

    /** The GPU finishes a command, at any time of its choosing. */
    method Complete(p: PendingGpuEntropy, success: bool)
      requires Valid() && p in live && p.dispatched && !p.finished
      modifies p`finished, p`succeeded, p.buffers`results, p.buffers`busy
      ensures Valid() && p.finished && p.succeeded == success
    {
      hide ValidGroup, Fits, ResultsAre, Packed, InRange;
      var b := p.buffers;
      if success && Fits(p.payloads, threads) {
        RunDispatch(b, p.payloads);
      }
      p.finished, p.succeeded := true, success;
      b.busy := false;
    }

    /** Blocks until the command has finished; `success` is how it finishes if it has not yet. */
    method WaitUntilCompleted(p: PendingGpuEntropy, success: bool)
      requires Valid() && p in live && p.dispatched
      modifies p`finished, p`succeeded, p.buffers`results, p.buffers`busy
      ensures Valid() && p.finished && p.succeeded == if old(p.finished) then old(p.succeeded) else success
    {
      if !p.finished {
        Complete(p, success);
      }
    }

    /** One entropy per payload, or false if the dispatch failed. */
    method Wait(p: PendingGpuEntropy, success: bool) returns (ok: bool, entropies: seq<real>)
      requires Valid() && p in live
      modifies p`waited, p`finished, p`succeeded, p.buffers`results, p.buffers`busy
      ensures Valid() && p.waited
      ensures ok <==> !p.dispatched || if old(p.finished) then old(p.succeeded) else success
      ensures ok ==> |entropies| == |p.payloads|
      ensures ok && Fits(p.payloads, threads) ==>
                forall i | 0 <= i < |p.payloads| :: entropies[i] == Shannon(p.payloads[i], term)
      ensures !ok ==> entropies == []
    {
      hide ValidGroup, PoolOk, TotalBytes, Fits, EntropyBufferSet.Holds;
      if !p.dispatched {
        p.waited := true;
        return true, [];
      }
      WaitUntilCompleted(p, success);
      p.waited := true;
      if !p.succeeded {
        return false, [];
      }
      entropies := p.buffers.results.contents.value[..|p.payloads|];
      return true, entropies;
    }

    /** The destructor: waits for a command nobody waited for, then pools the buffers. */
    method Destroy(p: PendingGpuEntropy, success: bool)
      requires Valid() && p in live
      modifies this`freeBuffers, this`live, p`finished, p`succeeded
      modifies p.buffers`results, p.buffers`busy, p.buffers`owner, p.buffers`slot
      ensures Valid() && live == old(live) - {p}
      ensures freeBuffers == old(freeBuffers) + [p.buffers] && (p.dispatched ==> p.finished)
    {
      hide ValidGroup, TotalBytes, Fits, EntropyBufferSet.Holds;
      if p.dispatched && !p.waited {
        WaitUntilCompleted(p, success);
      }
      p.buffers.owner := null;
      live := live - {p};
      ReturnBuffers(p.buffers);
    }

    /** What validity, which every call keeps, says of the pool: no set is pooled twice, pooled while a
        command may be using it, or owned by two dispatches, and none is ever lost. */
    lemma NoSharing()
      requires Valid()
      ensures forall i, j | 0 <= i < j < |freeBuffers| :: freeBuffers[i] != freeBuffers[j]
      ensures forall b <- freeBuffers :: !b.busy
      ensures forall p <- live, q <- live :: p.buffers == q.buffers ==> p == q
      ensures forall b <- made :: (b in freeBuffers) != (exists p <- live :: p.buffers == b)
    {
      forall b <- made ensures (b in freeBuffers) != (exists p <- live :: p.buffers == b) {
        if b.owner != null { assert b.owner in live; }
      }
    }
  }

  ghost predicate PoolOk(pool: seq<EntropyBufferSet>, made: set<EntropyBufferSet>)
    reads made
  {
    forall i | 0 <= i < |pool| ::
      pool[i] in made && pool[i].BuffersOk() && !pool[i].busy && pool[i].owner == null && pool[i].slot == i
  }

  ghost predicate LiveOk(live: set<PendingGpuEntropy>, made: set<EntropyBufferSet>, term: Term, threads: nat)
    reads made, live
  {
    forall p <- live :: p.buffers in made && p.Ok(term, threads)
  }
}
