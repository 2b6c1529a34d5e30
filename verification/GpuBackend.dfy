/** The GPU entropy backend: payloads out, entropies or a failure back, buffers returned to the pool. */
module GpuBackend {
  import opened Packets
  import opened MetalHost
  import opened MetalContext
  import opened AnalysisEngine

  function Payloads(packets: seq<QueuedPacket>): (r: seq<seq<Byte>>)
    ensures |r| == |packets| && forall i | 0 <= i < |packets| :: r[i] == packets[i].payload
  {
    seq(|packets|, i requires 0 <= i < |packets| => packets[i].payload)
  }

  /** `start` and `wait` on one batch; `success` is how its command finishes. As long as the batch's bytes
      fit the kernel's 32-bit arithmetic, a backend that answers agrees with the CPU. */
  method Compute(context: MetalContext, packets: seq<QueuedPacket>, metal: Metal, success: bool)
    returns (outcome: Outcome)
    requires context.Valid() && |metal.allocates| == 4
    modifies context`freeBuffers, context`made, context`live, context.freeBuffers
    ensures context.Valid() && context.live == old(context.live)
    ensures Fits(Payloads(packets), context.threads) ==> AgreesWithCpu(outcome, packets, context.term)
    ensures outcome.Returned? ==> |outcome.values| == |packets|
    ensures success && Accepts(metal) ==> outcome.Returned?
    ensures success && metal.pipelineLoaded && metal.commandBuffer && metal.allocates == [true, true, true, true] ==>
              outcome.Returned?
    ensures outcome.Returned? && packets != [] ==> success && metal.pipelineLoaded && metal.commandBuffer
    ensures !metal.pipelineLoaded ==> outcome == NullStart
    ensures old(context.made) <= context.made
  {
    hide MetalContext.Valid, Fits, PendingGpuEntropy.Ok;
    var pending := context.SubmitPayloadEntropy(Payloads(packets), metal);
    if pending == null {
      return NullStart;
    }
    var ok, entropies := context.Wait(pending, success);
    if ok {
      outcome := Returned(entropies);
    } else {
      outcome := WaitFails;
    }
    context.Destroy(pending, success);
  }
}
