# NetSentinel, verified model

A Dafny model of the parts of NetSentinel where state, concurrency or offset arithmetic make mistakes easy, and proofs
of what those parts are for. `dafny verify dfyconfig.toml` checks everything; no file needs another project.

## What is modelled

**The flow tracker** (`FlowModel`, `FlowHistory`, `FlowRules`, `FlowRuns`, `FlowLimits`, `FlowBound`, `FlowWork`,
`FlowSources`, `FlowScenarios`, `FlowExact`, `FlowLate`, `FlowCounts`, `FlowShard`, `FlowTracker`, `FlowSpec`). The per-IP record, the
shard and the tracker are classes updated in place: FIFO windows with a live count map, half-open SYNs with lazy deletion
through an order queue, debounce stamps, idle and over-cap eviction over an arbitrary iteration order. Each method is
proved against a step of the value model in `FlowModel`. The reference it is compared with is a *naive detector* (`FlowHistory.NaiveAlerts`) that keeps one source's
whole packet history, recounts it at every packet and never forgets anything. The tracker object carries its run so far as
ghost state, and each shard its loop iterations, so the whole-run theorems hold of every sequence of calls. `FlowSpec`
says from flag bytes, addresses, ports and times alone what every packet must raise, and proves that the tracker raises it.

The whole-run theorem has three conditions: timestamps do not decrease (`Chronological`), the idle time-to-live covers
the window and the debounce of every rule that can alert at all (`TtlCoversRules`), and the cap never forces a sweep to
drop a record that is not idle (`Unforced`). The last is a property of the run; `FlowSources.CapSufficesIsUnforced` gives a
sufficient one on the packets alone. The tracker itself checks none of them. The condition on the time-to-live is exact
(`FlowExact.InvisibleIffTtlCovers`).

With packets out of order the counts can miss what the recount finds and hold what it does not
(`FlowLate.LateProbesMiscounted`). A late packet can miss events inside its own window that a later one has already
expired; a stale event queued behind a fresh one stays counted; and a late packet sets `last_seen_ms` back, so that a sweep
may forget a source whose events are fresh (`FlowLate.LateProbeHidesAnother`). When exactly each of these cannot happen is
listed below.

**The packet queue and the worker pool** (`PacketQueue`, `WorkerPool`, `WorkerProofs`, `SharedAnalysis`, `SharedProofs`,
`Delivery`, `Reordering`). Each lock-held segment of `push`, `pop_batch`, `shutdown` and `is_finished` is one atomic step,
a function that the state machine uses and a method of the queue class is proved against. Unlocking and notifying are
separate program points; spurious wake-ups and timeouts are steps that may happen at any time; `notify_one` picks any
sleeping consumer. `capacity >= 1` and `batch size >= 1`, as `src/main.cpp:205-208` enforces. `SharedAnalysis` runs the
analysis calls of all workers through one engine at the same time: a packet's signature rule, its tracker observation,
each alert sunk and each batch's entropies are separate steps.

**The entropy kernel and its host** (`Entropy`, `EntropyMeaning`, `EntropyKernel`, `MetalHost`, `MetalContext`,
`GpuBackend`). Between two barriers the kernel's threads take their steps in any order; a reduction step's load and store
are two separate steps. Payload addresses and strided indices wrap at 32 bits, as the shader's do. Arithmetic on
entropies is over the reals and the per-bin term `p * log2(p)` is an arbitrary function. On the host side, buffer sets and
pending dispatches are objects, the GPU may finish a command at any time, and Metal's allocations and command results are
inputs.

**The parser, the engine and the hash** (`Parser`, `FrameBuilder`, `AnalysisEngine`, `EngineAlerts`, `Signatures`). The frame builders of
the tests are the parser's printer. The engine's alert sink, its fallback counter and its tracker are one object whose
validity relates everything the sink received to the packets in order. FNV-1a is modelled on numbers modulo 2^64 with a
bitwise exclusive or.

## Where the code and its documentation differ

`include/netsentinel/parser.hpp:16-17` and `docs/DESIGN.md:33-34` say that frames which are not IPv4 are not decoded and
yield nothing. The code returns a packet without IP fields for them, and returns nothing only for a null pointer or fewer
than 14 captured bytes (`src/capture/parser.cpp:14-32`). The model follows the code.

`docs/DESIGN.md:174-176` and `README.md:137-140` of the repository say that a source's state is always correct even when
its packets sit in two workers' batches, because the shard is locked. The lock keeps single observations whole, but two
workers may make them in another order than that of the timestamps (`Reordering.TwoWorkersReorder`), and then the ports and
SYNs held are not those inside the window: the same two packets raise nothing one way and a port scan the other
(`Reordering.TimingChangesFlowAlerts`). The counts are the recount exactly as long as nothing arrives late
(`FlowCounts.CountsExactIffInOrder`), which a single worker guarantees for ordered input (`Delivery.OneWorkerKeepsOrder`).

`docs/DESIGN.md:155-156` says that each shard holds at most 1024 IPs. Between sweeps it holds up to one interval less one
more, 1279 with the defaults, and that bound is reached (`FlowBound.BoundIsReached`).

## Results that are exact conditions

- With room for two records: eviction is invisible in every ordered, unforced run if and only if, for each rule that can
  alert, `idle_ttl_ms` is at least its window (unless that is negative and holds nothing) and `idle_ttl_ms + 1`, or zero,
  at least the debounce; idleness is a strict comparison, hence the one (`FlowExact.InvisibleIffTtlCovers`). A rule can
  alert if its threshold is zero, or its window is not negative and its threshold at most the number of ports, or of
  connections one source can open.
- For windows that are not negative, a packet's count is never below the recount, whatever came before it, if and only if
  it is not older than the latest packet its rule has seen (`FlowLate.PortsCountedIffOnTime`,
  `FlowLate.SynsCountedIffOnTime`), and never above it if and only if everything its rule has seen has left its window
  (`FlowCounts.PortsNotOvercountedIff`, `FlowCounts.SynsNotOvercountedIff`).
- Over all histories at most `late` ms out of order, the counts are always the recounts if and only if `late` is zero
  (`FlowCounts.CountsExactIffInOrder`).
- With room for two records, and packets at most `late` ms out of order, sweeps lose nothing inside the windows of the
  latest time if and only if `idle_ttl_ms` is at least each window plus `late` (`FlowLate.NothingLostIffTtlCoversLate`).
- The parser undoes the builders' printing in every header field at any size, and in the payload if and only if the
  datagram fits its 16-bit length field (`FrameBuilder.TcpRoundTrip`, `FrameBuilder.UdpRoundTrip`,
  `FrameBuilder.IcmpRoundTrip`).
- The kernel's 32-bit addresses reach every packed payload if and only if all bytes together fit in the 32-bit range and
  no single payload fills it (`MetalHost.ExactIffInRange`), and its byte loop ends if and only if the payload is at most
  2^32 less the group size; above that, thread 0's index wraps to zero (`EntropyKernel.StridesEndIff`). The host checks
  neither.
- An added signature is found if and only if it is not empty (`Signatures.SignatureDatabase.Matches`).

## Model

| member | source | states |
|---|---|---|
| FlowSpec.TrackerRaisesWhatIsDue | src/analysis/flow_tracker.cpp:10-183 | In every ordered, covered, unforced run, each packet raises exactly what the log says is due, fields included: nothing for non-IP traffic; a port scan at a SYN without ACK or a UDP packet from port 1024 up, once the source's distinct attempted ports in the window reach the threshold; a SYN flood at a TCP packet once its connections left open do; and neither if that source raised the same less than a debounce ago |
| FlowSpec.ObjectRaisesWhatIsDue | src/analysis/flow_tracker.cpp:84-183 | The same of the alerts returned by any sequence of calls on a tracker object |
| FlowSpec.FlagsDecide | src/analysis/flow_tracker.cpp:20-160 | For every record, flag byte and time: with ACK a TCP packet leaves the port window alone and its connection not pending; with SYN and no ACK it joins the window and leaves its connection pending at its own time; with neither it does neither; no other connection is added or restamped |
| FlowSpec.SourcePortDecides | src/analysis/flow_tracker.cpp:24-28 | A UDP packet joins the port window if and only if its source port is 1024 or above, other non-TCP traffic never does, and neither touches pending connections |
| FlowSpec.SweptIff | src/analysis/flow_tracker.cpp:53-74 | What a sweep may leave: the current source; of the others only those seen within the time-to-live, unchanged; all of them if they fit under the cap, otherwise exactly max(cap, 1) records |
| FlowSpec.MillisecondsTruncate | src/analysis/flow_tracker.cpp:10-12 | A packet's time is 1000 ms for each second and the whole milliseconds among its microseconds, rounded toward zero when they are negative |
| FlowRuns.EvictionAndShardingInvisible | src/analysis/flow_tracker.cpp:49-183 | In every run with non-decreasing times and a covering time-to-live in which the cap forces no drop, the alerts of each packet, counts included, are those of a never-evicting detector fed only that packet's source, for any hash, shard count, sweep interval and cap |
| FlowRuns.EachSourceIsSolo | src/analysis/flow_tracker.cpp:49-183 | Under the same conditions, each source's whole alert stream is the naive detector's stream over that source's packets alone |
| FlowRuns.TuningIsInvisible | include/netsentinel/flow_tracker.hpp:31-68 | Two trackers with the same rules but any shard counts, hashes, sweep intervals, time-to-lives and caps raise identical alerts on the same packets |
| FlowSources.InvisibleWhenCapSuffices | src/analysis/flow_tracker.cpp:49-183 | The same from conditions on the configuration and the packets alone: the sources of a shard active within the time-to-live always fit under the cap |
| FlowSources.CapSufficesIsUnforced | src/analysis/flow_tracker.cpp:63-73 | If those sources always fit, no sweep of the run is forced to drop a record that is not idle |
| FlowSources.RunExists | src/analysis/flow_tracker.cpp:49-183 | Every sequence of packets has a run, whatever the configuration and hash: the whole-run theorems are about something |
| FlowSources.TrackedIsSuffix | src/analysis/flow_tracker.cpp:53-183 | In every state of every run, with times in any order, each tracked source's record is that of a suffix of its packets; with lateness bounded and no forced drop, everything before the suffix is older than the latest time less the time-to-live plus the lateness |
| FlowRuns.StampedIsChronological | src/analysis/flow_tracker.cpp:10-12 | Packets stamped in order, with microseconds in range, are in order as the tracker reads them |
| FlowRuns.TrackerStepOk | src/analysis/flow_tracker.cpp:84-183 | Under the same conditions one packet keeps the run invariant: every shard answers each of its sources as the source's full history would, for every rule that can alert, and every last-seen stamp is the source's latest packet |
| FlowRuns.SweptOk | src/analysis/flow_tracker.cpp:53-74 | A sweep that the cap does not force leaves every source, kept or forgotten, indistinguishable from its full history |
| FlowRuns.UnforcedSweepKeeps | src/analysis/flow_tracker.cpp:53-74 | A sweep with at most max(cap, 1) records that are not idle keeps exactly those, cap zero included |
| FlowExact.InvisibleIffTtlCovers | src/analysis/flow_tracker.cpp:53-82 | For every configuration with room for two records: all ordered, unforced runs are invisible if and only if, for each rule that can alert, the time-to-live covers its window and, plus one, its debounce |
| FlowExact.ShortTtlIsVisible | src/analysis/flow_tracker.cpp:53-82 | For every such configuration that falls short, whichever rule and whichever part it fails, an ordered, unforced run that gives the eviction away |
| FlowExact.ShortTtlHidesAScan | src/analysis/flow_tracker.cpp:53-61 | At literal values: a time-to-live of 10 ms under a window of 100 ms makes every run over three given packets miss a scan |
| FlowScenarios.InterruptedAlerts | src/analysis/flow_tracker.cpp:53-61 | Once an idle source has sat through one sweep interval of another's packets, the tracker answers it as if its earlier packets had never been |
| FlowHistory.ObservationIsRecount | src/analysis/flow_tracker.cpp:95-175 | A record that agrees with a history raises, at the next packet in order, exactly the alerts of a full recount, and agrees with the longer history |
| FlowHistory.PortRuleIsRecount | src/analysis/flow_tracker.cpp:100-115 | After an in-order attempt the live ports are exactly the distinct ports probed in [now - window, now] |
| FlowHistory.SynRuleIsRecount | src/analysis/flow_tracker.cpp:132-160 | After an in-order TCP packet the pending connections are exactly those whose latest SYN is in the window with no later ACK from that source, despite stale and duplicate order entries |
| FlowHistory.OrderCoversStep | src/analysis/flow_tracker.cpp:137-160 | With times in any order, every pending SYN keeps an order entry carrying its current timestamp |
| FlowHistory.PortsTrackStep | src/analysis/flow_tracker.cpp:100-113 | With times in any order, expiry loses no port event at or after the greatest cutoff used |
| FlowHistory.PendingTracksStep | src/analysis/flow_tracker.cpp:132-160 | With times in any order, expiry loses no half-open connection at or after the greatest cutoff used, and invents none |
| FlowRules.ForgottenFollows | src/analysis/flow_tracker.cpp:53-61 | A fresh record answers, for every rule that can alert, as any history whose last packet is older than a covering time-to-live |
| FlowRules.ObservationFollows | src/analysis/flow_tracker.cpp:95-175 | A record that keeps what the rules able to alert need raises, at the source's next packet in order, all of the recount's alerts, and keeps it still |
| FlowLimits.NeverUndercounts | src/analysis/flow_tracker.cpp:100-160 | For one record and packets in any order, every port probed and every connection half-open since the greatest time seen minus the window is still counted |
| FlowLate.OnTimeIsCounted | src/analysis/flow_tracker.cpp:100-160 | However disordered the packets before it, a packet no older than the latest its rule has seen is answered with at least the recount |
| FlowLate.PortsCountedIffOnTime | src/analysis/flow_tracker.cpp:100-115 | For attempts at time t after attempts up to a given latest time, no port of the recount is ever missing from the count if and only if t is at least that time |
| FlowLate.SynsCountedIffOnTime | src/analysis/flow_tracker.cpp:132-163 | The same for half-open connections at TCP packets |
| FlowCounts.PortsNotOvercountedIff | src/analysis/flow_tracker.cpp:100-115 | For attempts at time t after attempts up to a given latest time, the count is never above the recount if and only if that time has left the window of t |
| FlowCounts.SynsNotOvercountedIff | src/analysis/flow_tracker.cpp:132-163 | The same for half-open connections at TCP packets |
| FlowCounts.CountsExactIffInOrder | src/analysis/flow_tracker.cpp:100-163 | Over all histories at most `late` out of order, for UDP attempts and for TCP packets alike, the counts the rules look at are always the recounts if and only if `late` is zero |
| FlowLate.LateProbesMiscounted | src/analysis/flow_tracker.cpp:100-115 | With a window of 100 ms, probes at 0, 150 and 50 ms are three ports of which two are counted, and probes at 150, 0 and 160 ms are two of which three are counted |
| FlowLate.LateProbeOvercounts | src/analysis/flow_tracker.cpp:100-115 | Of any three attempts at different ports, a second one stale at the third but behind a fresh first one is still counted: three against a recount of two |
| FlowLate.LateSynOvercounts | src/analysis/flow_tracker.cpp:132-163 | The same for three SYNs of different connections |
| FlowLate.NothingIsLost | src/analysis/flow_tracker.cpp:53-160 | In every unforced run at most `late` out of order whose time-to-live is at least each window plus `late`, no sweep loses an event inside the windows of the latest time |
| FlowLate.LatestPacketIsCounted | src/analysis/flow_tracker.cpp:53-163 | So in such a run every packet that is not itself late is counted in full |
| FlowLate.NothingLostIffTtlCoversLate | src/analysis/flow_tracker.cpp:53-160 | For every configuration with room for two records, nothing is ever lost in such runs if and only if the time-to-live is at least each window plus `late` |
| FlowLate.LateProbeHidesAnother | src/analysis/flow_tracker.cpp:53-61 | At literal times, with window and time-to-live both 100 ms: a probe stamped 0 sets the last-seen time back, and at 160 ms the sweep forgets the source's probe at 150 |
| FlowLimits.UninterruptedIsRecount | src/analysis/flow_tracker.cpp:95-175 | A record no sweep interrupted raises the recount's alerts at every packet of an ordered history |
| FlowLimits.DebounceLimits | src/analysis/flow_tracker.cpp:76-82 | Alerts i and j of one rule are at least (j - i) debounce intervals apart in packet time, in any packet order |
| FlowLimits.DebounceCovers | src/analysis/flow_tracker.cpp:76-82 | An over-threshold check alerts or comes less than one interval after an alert of its rule, no later than the check if times are in order; the first always alerts, however small its timestamp |
| FlowLimits.RunBounded | src/analysis/flow_tracker.cpp:53-74 | In every run each shard stays under the cap plus the observations since its last sweep, and each tracked source is in the shard numbered by its hash modulo the shard count |
| FlowLimits.TrackedStateIsBounded | src/analysis/flow_tracker.cpp:185-192 | After every packet the reported total is the number of distinct tracked sources, and at most the shard count times cap plus one interval less one |
| FlowBound.BoundIsReached | src/analysis/flow_tracker.cpp:177-180 | For every configuration with a time-to-live that is not negative and room in the address space, a run in which a shard holds cap plus one interval less one records, the most any run allows |
| FlowBound.DefaultsExceedTheCap | include/netsentinel/flow_tracker.hpp:65-67 | With the default cap, sweep interval and time-to-live a shard can hold 1279 records |
| FlowWork.WorkIsAmortisedConstant | src/analysis/flow_tracker.cpp:53-180 | Over any n observations of a shard, the expiry pops counted by its loops are at most 2n and the steps counted by its sweeps at most two passes over max(cap, 1) + S records in each of n / S sweeps, S being max(sweep_interval, 1) |
| FlowWork.PopsAmortised | src/analysis/flow_tracker.cpp:104-160 | Pops so far plus all queue entries still held, over every record of the shard, never exceed twice the observations |
| FlowTracker.ShardWorkIsBounded | src/analysis/flow_tracker.cpp:53-180 | Whatever calls were made on a tracker object, the loops of each of its shards have stayed within those bounds |
| FlowShard.PerIpState.ExpirePorts | src/analysis/flow_tracker.cpp:104-113 | The loop pops exactly the stale front of the FIFO and leaves the count map the bag of the ports that remain, without zero entries |
| FlowShard.PerIpState.ExpireSyns | src/analysis/flow_tracker.cpp:148-160 | The loop pops exactly the stale front and drops a connection only if a popped entry carries its current timestamp |
| FlowShard.PerIpState.Observe | src/analysis/flow_tracker.cpp:95-175 | Updating the record in place raises the alerts, makes the pops and leaves the state of the value model |
| FlowShard.Debounce | src/analysis/flow_tracker.cpp:76-82 | Answers whether the rule may alert and stamps the time exactly when it may |
| FlowShard.CountsAreDistinctPorts | include/netsentinel/flow_tracker.hpp:98-103 | The size of the count map is the number of distinct ports in the FIFO |
| FlowShard.EvictIdle | src/analysis/flow_tracker.cpp:54-61 | For any iteration order, exactly the idle records other than the current source's are dropped, in one step each |
| FlowShard.EvictOverCap | src/analysis/flow_tracker.cpp:63-73 | For any iteration order, records go only while over the cap, down to max(cap, 1), and never the current source's |
| FlowShard.Shard.EvictStale | src/analysis/flow_tracker.cpp:53-74 | Both passes together leave what the sweep relation allows, in at most twice as many steps as there were records |
| FlowShard.Shard.Observe | src/analysis/flow_tracker.cpp:93-182 | One locked observation is one step of the shard model: the source's record observes, no other record changes, and every S-th call sweeps; the shard's history records it with the iterations its loops took |
| FlowTracker.FlowTracker.constructor | src/analysis/flow_tracker.cpp:39-47 | As many shards as configured, or one for zero, all empty and disjoint, and the run is empty |
| FlowTracker.FlowTracker.Observe | src/analysis/flow_tracker.cpp:84-183 | Extends the tracker's run by this packet and these alerts, keeping every earlier step a step of the model |
| FlowTracker.FlowTracker.TrackedIpCount | src/analysis/flow_tracker.cpp:185-192 | The sum over shards is the number of distinct tracked sources |
| FlowTracker.TrackerIsSolo | src/analysis/flow_tracker.cpp:84-183 | Whatever calls were made on a tracker object, each source's alerts are the naive detector's, given order, a covering time-to-live and no forced drop |
| FlowTracker.TrackerIsSoloRun | src/analysis/flow_tracker.cpp:84-183 | Under the same conditions all alerts of all calls are a function of the packets alone |
| WorkerProofs.DeliveryIsFifo | src/queue/packet_queue.cpp:28-86 | In every interleaving, accepted packets in lock order are the drained batches in drain order followed by the queue; each batch is the next contiguous run, none is over the batch size, and the queue never exceeds capacity |
| WorkerProofs.ProducersAreNotForgotten | src/queue/packet_queue.cpp:30-95 | A sleeping producer without a notification faces a full open queue, or a draining consumer or the shutdown caller still has its notification to send |
| WorkerProofs.NextInv | src/queue/packet_queue.cpp:28-100 | Every step of every thread keeps FIFO order, the account of packets held and analysed, the wake-up guarantee and the exit guarantee |
| WorkerProofs.ExitMeansDrained | src/queue/worker_pool.cpp:33-44 | A worker exits only when the queue is shut down and empty, and then it stays so and nothing more is accepted |
| WorkerProofs.DrainedIsForGood | src/queue/packet_queue.cpp:97-100 | A finished queue is finished in every later state |
| WorkerProofs.AllProcessed | src/queue/worker_pool.cpp:33-44 | Once all workers have exited, the packets analysed are, as a bag, the packets accepted, and the processed counter is their number |
| WorkerProofs.StepsRunOut | src/queue/worker_pool.cpp:33-44 | After shutdown every worker step lowers a natural-number measure, also that of a worker holding an empty batch from before, and no other thread raises it |
| WorkerProofs.WorkersStopAfterShutdown | src/queue/worker_pool.cpp:33-44 | From any state after shutdown the workers together take at most that measure's number of steps |
| WorkerProofs.WorkersAreNeverStuck | src/queue/packet_queue.cpp:52-86 | A worker that has not exited always has a step of its own to take |
| WorkerProofs.QuietMeansDone | src/queue/worker_pool.cpp:24-44 | When no worker has a step left, all have exited and every accepted packet is processed |
| SharedProofs.SinkIsAccounted | src/analysis/analysis_engine.cpp:26-71 | In every interleaving of all workers' analysis, once all have exited the sink has received, as a bag, the accepted packets' own signature and entropy alerts and what the tracker raised on some reordering of the packets, nothing lost or doubled |
| SharedProofs.SharedNextInv | src/analysis/analysis_engine.cpp:41-70 | Every step of every thread keeps, for every alert and packet, the account of what is sunk, observed and still owed by the calls in progress |
| SharedProofs.NobodyIsStuck | src/queue/worker_pool.cpp:33-44 | In every reachable state a worker that has not exited has a step to take, in the pool or in its analysis |
| SharedProofs.SharedStepsRunOut | src/queue/worker_pool.cpp:33-44 | After shutdown each step of a worker lowers the pool's measure, or leaves the pool alone and shortens the calls in progress |
| SharedProofs.SharedQuietMeansDone | src/queue/worker_pool.cpp:24-44 | When no worker has a step left, all have exited |
| Delivery.TimingDoesNotMatter | src/main.cpp:298-300 | However threads were timed, down to single packets and alerts, and whichever batches fell back, once all workers have exited the entropy and signature alerts in the sink are, as bags, those of the accepted packets taken one at a time |
| Delivery.TwoRunsAgree | src/main.cpp:298-300 | Two runs on the same packets, with any pools, queues, trackers and backends, raise the same bags of entropy and signature alerts |
| Delivery.ReorderingKeepsAlerts | src/main.cpp:298-300 | Any reordering of packets leaves the bags of their entropy and signature alerts unchanged |
| Delivery.OneWorkerKeepsOrder | src/queue/worker_pool.cpp:33-44 | With one worker the tracker observes the accepted packets in their order, so under the whole-run conditions every alert in the sink is a function of the accepted packets |
| Reordering.TwoWorkersReorder | src/queue/worker_pool.cpp:33-44 | With two workers, whatever two packets are accepted, the tracker may observe them in either order |
| Reordering.TimingChangesFlowAlerts | src/main.cpp:298-299 | Two interleavings of the same ordered packets of which one raises no flow alert and the other a port scan |
| WorkerProofs.BatchesAreFull | src/queue/packet_queue.cpp:52-72 | In every interleaving, a step takes from the queue either nothing or one batch from its front, which is full unless it empties the queue; a push adds one packet |
| WorkerProofs.ConsumersWaitForPackets | src/queue/packet_queue.cpp:57-62 | A consumer falls asleep only before an empty open queue, or, if it lingers, before an open one with some packets but fewer than a batch |
| WorkerProofs.ProducersWaitForRoom | src/queue/packet_queue.cpp:28-50 | A producer sleeps exactly before a full open queue; after shutdown its packet is refused; otherwise the packet is accepted last, and a consumer is to be notified exactly if it is the first or completes the wanted batch |
| WorkerProofs.DrainersNotify | src/queue/packet_queue.cpp:73-95 | Whoever takes a batch then wakes all producers, and after that one consumer exactly if packets were left; shutdown wakes everybody |
| WorkerProofs.NotificationWakesOne | src/queue/packet_queue.cpp:46-85 | A notification wakes exactly one sleeping consumer if there is one, and changes what no worker holds |
| PacketQueue.PacketQueue.FinishPush | src/queue/packet_queue.cpp:38-49 | The state machine's push: refused after shutdown, otherwise last in the queue, waking a consumer on the first packet or a full batch, and within capacity |
| PacketQueue.PacketQueue.Drain | src/queue/packet_queue.cpp:66-73 | The drain loop splits the queue into the batch and the rest, in order, as the state machine's drain does; the batch is full unless it empties the queue, and packets are reported waiting exactly if some are left |
| EntropyMeaning.ShannonIsTermSum | src/analysis/entropy.cpp:13-28 | The entropy that CPU and kernel are proved to compute is minus the sum, over the byte values of the payload listed in any order without repetition, of the term of how many positions hold the value |
| EntropyMeaning.EqualBytes | src/analysis/entropy.cpp:20-26 | n equal bytes have the entropy of one certain event |
| EntropyMeaning.DifferentBytes | src/analysis/entropy.cpp:20-26 | n bytes that are all different have the entropy of n events of probability 1/n |
| EntropyKernel.PayloadEntropy | shaders/payload_entropy.metal:10-60 | For every power-of-two group up to 256 and every schedule of its threads, the kernel's result is the sequential entropy of the bytes its 32-bit addresses reach, for every length its byte loop can end on |
| EntropyKernel.StridesEndIff | shaders/payload_entropy.metal:29-31 | Every thread's wrapping index reaches the end of the payload if and only if the length is at most 2^32 less the group size |
| EntropyKernel.ClearBins | shaders/payload_entropy.metal:20-23 | Under any schedule the strided stores clear every bin |
| EntropyKernel.CountBytes | shaders/payload_entropy.metal:25-32 | Under any schedule the strided increments leave the sequential histogram |
| EntropyKernel.PartialSums | shaders/payload_entropy.metal:34-48 | Under any schedule each thread's cell ends as the sum over its own residue class of bins |
| EntropyKernel.StridedSumsAddUp | shaders/payload_entropy.metal:38-47 | The residue classes together cover each bin once: the threads' sums add up to the sum over all bins |
| EntropyKernel.LaneSteps | shaders/payload_entropy.metal:50-55 | A thread's load or store, at any moment of a reduction step, leaves every other thread's operands as they were |
| EntropyKernel.HalvingStep | shaders/payload_entropy.metal:50-55 | However loads and stores interleave, cell t ends as the old cell t plus the old cell t + stride |
| EntropyKernel.TreeReduce | shaders/payload_entropy.metal:50-59 | Cell 0 ends as the sum of all the threads' cells |
| Entropy.ShannonEntropy | src/analysis/entropy.cpp:8-29 | The two loops compute minus the sum of the per-bin terms over the bytes that occur; null and empty payloads have none |
| MetalHost.EnsureCapacity | src/gpu/metal_context.cpp:55-68 | A large enough buffer is kept as it is, growth is to the greatest of the need, twice the old capacity and 4096, and failure is reported exactly when no buffer is left |
| MetalHost.GroupSize | src/gpu/metal_context.cpp:320-325 | The group is the largest power of two that is at most 256 and at most the pipeline's limit |
| MetalHost.PackPayloads | src/gpu/metal_context.cpp:305-318 | Whatever was in the buffers, they begin with the payloads end to end and are otherwise unchanged, with starts and sizes stored modulo 2^32; when the total is within the 32-bit range and no payload fills it, what the kernel reads for payload i is payload i |
| MetalHost.ExactIffInRange | src/gpu/metal_context.cpp:310-318 | The kernel's 32-bit offset plus index reaches the right byte of every payload if and only if the total is within the 32-bit range and no single payload fills it |
| MetalHost.FitsIff | src/gpu/metal_context.cpp:286-318 | The condition under which GPU results are promised, in bytes: the payloads end to end take at most 2^32, and none is longer than 2^32 less the group size |
| MetalHost.RunKernels | src/gpu/metal_context.cpp:333-341 | One threadgroup per payload, in any order, leaves result i the entropy of payload i |
| MetalContext.MetalContext.NoSharing | src/gpu/metal_context.cpp:92-107 | In every reachable state no buffer set is pooled twice, pooled while a command may use it, or held by two dispatches, and each set ever made is in the pool or held |
| MetalContext.MetalContext.TakeBuffers | src/gpu/metal_context.cpp:92-100 | Hands out the last pooled set, or a new one when the pool is empty |
| MetalContext.MetalContext.SubmitPayloadEntropy | src/gpu/metal_context.cpp:275-347 | If no Metal call fails, one new pending dispatch owns a pooled or new buffer set and the payloads; whichever fails, nothing is dispatched and no set is lost from the pool |
| MetalContext.MetalContext.Complete | src/gpu/metal_context.cpp:333-345 | The GPU may finish any pending command at any time without breaking ownership, leaving its results behind if it succeeds |
| MetalContext.MetalContext.Wait | src/gpu/metal_context.cpp:257-273 | Succeeds unless the command failed, and then gives one value per payload, each the payload's entropy whenever the kernel's 32-bit arithmetic can take the batch |
| MetalContext.MetalContext.Destroy | src/gpu/metal_context.cpp:248-255 | A dispatch nobody waited for is finished first, and its set returns to the pool |
| GpuBackend.Compute | src/gpu/gpu_entropy_backend.cpp:30-45 | Starting, waiting and destroying leaves no dispatch behind; values come back when every Metal call and the command succeed, and agree with the CPU whenever the kernel's 32-bit arithmetic can take the batch |
| Parser.ParsePacket | src/capture/parser.cpp:12-116 | The early-return pass decodes exactly the layers that are present, well-formed and wholly captured; every read is within the capture |
| Parser.PayloadInBounds | src/capture/parser.cpp:55-113 | On every byte string the payload slice lies in the capture, exists exactly for decoded transports, and only frames under 14 bytes yield nothing |
| Parser.TruncationIsMonotone | src/capture/parser.cpp:34-113 | If a shorter capture decodes a transport, the longer one decodes the same header fields and its payload extends the shorter one |
| Parser.QueuedCopyOwnsPayload | src/queue/packet_queue.cpp:15-24 | The queued copy of any decoded frame owns exactly the bytes the parser pointed at, and keeps the other fields |
| Parser.Ipv4ByOffset | src/capture/parser.cpp:18-60 | Byte by byte: IPv4 is decoded if and only if bytes 12-13 are 8, 0 and a header of version 4 and at least five words is wholly captured; addresses, time to live and protocol are read big-endian at their offsets; otherwise only the Ethernet addresses are set |
| Parser.TransportByOffset | src/capture/parser.cpp:62-113 | Byte by byte, from the transport offset: when TCP (protocol 6), UDP (17) and ICMP (1) are decoded, their ports and flags, where the payload starts, and that it is as long as both the datagram's length field and the capture allow |
| FrameBuilder.IcmpRoundTrip | src/capture/parser.cpp:107-113 | The same for ICMP frames: no ports, no flags, and the payload is the whole message at the transport offset |
| FrameBuilder.OtherProtocolsHaveNoPayload | src/capture/parser.cpp:76-115 | A built datagram of any protocol but 1, 6 and 17 keeps its addresses and has no transport and no payload |
| FrameBuilder.OtherFramesHaveNoIp | src/capture/parser.cpp:28-32 | A built frame of any type but 0x0800, whatever it carries, yields its Ethernet addresses and nothing else |
| FrameBuilder.UnreadBytes | tests/test_support.hpp:76-119 | The bytes the parser does not read are zero, but for the UDP length, which is that of the datagram modulo 2^16 |
| FrameBuilder.TcpRoundTrip | tests/test_support.hpp:64-107 | For every port, flag byte, address, header sizes of 5-15 words and padding, parsing the built TCP frame gives every field back, and the payload exactly when the datagram is at most 65535 bytes |
| FrameBuilder.UdpRoundTrip | tests/test_support.hpp:64-119 | The same for UDP frames |
| FrameBuilder.BuildEth | tests/test_support.hpp:64-74 | Filling in by offset gives the Ethernet II layout |
| FrameBuilder.BuildIpv4 | tests/test_support.hpp:76-93 | Filling in by offset gives the layout of section 3.1 of RFC 791 |
| FrameBuilder.BuildTcp | tests/test_support.hpp:95-107 | Filling in by offset gives the layout of section 3.1 of RFC 9293 |
| FrameBuilder.BuildUdp | tests/test_support.hpp:109-119 | Filling in by offset gives the layout in the 'Format' section of RFC 768 |
| Signatures.Fnv1aHash | src/analysis/signature_db.cpp:15-22 | The loop is the byte-by-byte fold that the theorems below are about |
| Signatures.KnownAnswers | src/analysis/signature_db.cpp:6-22 | The hashes of the empty string, "a" and "ab" are the published values |
| Signatures.XorIsBitwise | src/analysis/signature_db.cpp:18 | Every bit of the exclusive or is one exactly where its operands differ, for operands of any width |
| Signatures.EicarBytes | src/analysis/signature_db.cpp:9-12 | The built-in signature, byte by byte |
| Signatures.StepIsBijection | src/analysis/signature_db.cpp:18-19 | For a fixed byte, one hash step is a bijection on 64-bit states, with its inverse given |
| Signatures.StepSeparates | src/analysis/signature_db.cpp:18-19 | From one state, different bytes lead to different states |
| Signatures.OneByteChangesHash | src/analysis/signature_db.cpp:15-22 | Payloads of equal length that differ in exactly one byte never collide, at any length and position |
| Signatures.VariantNeedsAnotherHash | src/analysis/signature_db.cpp:32-37 | A one-byte variant of a signature can match only through some other known hash |
| Signatures.SignatureDatabase.constructor | src/analysis/signature_db.cpp:24 | A new database knows the EICAR string and nothing else |
| Signatures.SignatureDatabase.AddSignature | src/analysis/signature_db.cpp:26-28 | Exactly that signature's hash becomes known |
| Signatures.SignatureDatabase.Matches | src/analysis/signature_db.cpp:32-37 | Null and empty payloads never match; every non-empty signature added does |
| EngineAlerts.SinkSignatures | src/analysis/analysis_engine.cpp:8-47 | Whatever calls were made on an engine, each signature alert is in its sink as often as there are packets, in any batch, with its addresses and ports and a non-empty payload whose hash is known |
| EngineAlerts.SinkEntropies | src/analysis/analysis_engine.cpp:8-70 | Each entropy alert is in the sink as often as there are packets with its addresses and ports whose payload has at least the configured length and entropy, both of which the alert reports |
| EngineAlerts.PoolSink | src/main.cpp:298-300 | The same of the sink behind the worker pool, for the packets the queue accepted, once all workers have exited |
| EngineAlerts.FallbacksAreUnanswered | src/analysis/analysis_engine.cpp:53-60 | The fallback counter is the number of batches with a long enough payload for which the backend did not return one value each |
| EngineAlerts.SharedFallbacks | src/analysis/analysis_engine.cpp:56-60 | With workers interleaved, only taking the values of such a batch raises the shared counter, by one |
| EngineAlerts.AgreementIff | src/analysis/entropy_backend.cpp:27-34 | What is assumed of a backend: if it returns one value each they are the entropies; a wrong number of values, or none, is allowed |
| AnalysisEngine.BatchingIsInvisible | src/analysis/analysis_engine.cpp:26-71 | Rule by rule, what the sink receives is the packet-by-packet CPU run over the concatenated batches, for any split into batches |
| AnalysisEngine.RaisedIsAllEntropy | src/analysis/analysis_engine.cpp:27-70 | Filtering a batch first and matching values to packets by index raises each packet's own entropy alert |
| AnalysisEngine.CpuCompute | src/analysis/entropy_backend.cpp:27-34 | One entropy per packet, in order |
| AnalysisEngine.AnalysisEngine.TakeEntropies | src/analysis/analysis_engine.cpp:56-60 | A null start, a failed wait and a wrong number of results all count one fallback and give the CPU's values |
| AnalysisEngine.AnalysisEngine.Scan | src/analysis/analysis_engine.cpp:41-51 | Every packet in order goes through the signature rule and then the tracker, whose run grows by the batch |
| AnalysisEngine.AnalysisEngine.AnalyzeBatch | src/analysis/analysis_engine.cpp:26-71 | Keeps the sink equal to the specified output of all batches so far, and the fallback counter equal to the failed batches that had eligible packets; a batch's entropy alerts come after all its others |
| AnalysisEngine.AnalysisEngine.SinkIsPerPacket | src/analysis/analysis_engine.cpp:26-71 | Whatever calls were made on an engine, the entropy and signature alerts in its sink depend only on the packets in order, not on batching or backend failures, and the flow alerts are those its tracker raised at each packet |
| AnalysisEngine.SinkDependsOnPackets | src/analysis/analysis_engine.cpp:26-71 | If the tracker's input was in order, its time-to-live covers the rules and no drop was forced, the flow alerts too depend on the packets alone |

## Left out

- FlowRuns.EvictionAndShardingInvisible: says nothing about runs in which the cap forces a sweep to drop a record that is not idle; what a forced drop may remove is in `FlowShard.EvictOverCap`.
- FlowExact.InvisibleIffTtlCovers: about configurations in which two records fit; with room for one the source that interrupts the other could not stay without a forced drop. The half that makes eviction invisible holds for every cap (`FlowRuns.EvictionAndShardingInvisible`).
- MetalHost.RunKernels: each threadgroup runs whole; their steps are not interleaved with each other's, as each has its own threadgroup memory and writes only its own result.
- FlowShard.Shard.EvictStale: the two passes run on the map's value, which is then assigned to the shard, instead of erasing through an iterator.
- MetalContext.MetalContext.SubmitPayloadEntropy: buffer contents are sequences held by the buffer-set object, so aliasing of the GPU's memory below the buffer set is not modelled.
- FrameBuilder.BuildIpv4: addresses are 32-bit numbers instead of dotted text, and header sizes outside 5-15 words, which do not fit the nibble or the fixed header, are excluded; the same holds for the words of `FrameBuilder.BuildTcp`.
- One tracker observation is one step, as the shard mutex makes it; a sink is called with one alert at a time.
- AnalysisEngine.AnalysisEngine.AnalyzeBatch: one call at a time on the engine object; calls at the same time are the subject of `SharedAnalysis`.
- WorkerPool: thread creation and `join`, and turning zero workers into one; the worker loop appears as steps of the state machine.
- No claim that a consumer never misses a notification: one meant for an idle consumer may wake a lingering one, and the timed waits provide the progress.
- Durations of timeouts and of the linger wait, the wait-time counters and their clocks.
- 32-bit wrap of port and histogram counts and 64-bit overflow of times: counts and times are unbounded integers.
- Floating-point rounding and the tolerance between float and double; no bit-exact GPU result is claimed.
- `FlowKeyHash` and the standard library's hash: shard selection uses an arbitrary function of the address.
- The text of alerts: an alert carries what its text is formatted from.
- The backend under the engine is one outcome per batch, assumed to agree with the CPU when it gives one value per packet; `GpuBackend.Compute` shows that the GPU backend does.
- The pipeline's thread limit is at least one; Metal device, pipeline and shader-compilation calls, `run_payload_entropy` and `run_vector_add`.
- Total memory: only the number of records is bounded, not the length of their queues.
- IP fragmentation, checksums and the UDP length field, which the parser ignores.
- Capture, signal handling, command-line parsing, benchmarks and scripts.
