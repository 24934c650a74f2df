# OpenGDA protocols in Dafny

This project models the synchronisation and one-sided data-movement protocols of OpenGDA / GICC and
proves what they promise, for any number of ranks, iterations, windows and any interleaving.
`dafny verify dfyconfig.toml` checks everything.

Every protocol is a state machine: a configuration, a state, events (one atomic action of a GPU
thread, a CPU proxy or monitor, the network, or a process), `Enabled`, `Step`, and `Run` over a schedule. A
disabled event in a schedule is a spin and changes nothing, so a theorem about all schedules is a theorem
about all interleavings. Beside the state machines, classes and methods hold the same code updated in place;
lemmas such as `GpuPathIsARun` connect the two.

| file | content |
|---|---|
| `Arithmetic`, `BitMask`, `Rotation`, `Sums`, `Schedules`, `Wrappers` | flattened indices, masked and rotating slot indices, sums for measures, schedules put together, optional values |
| `AbstractBarrier`, `Dissemination` | the barrier all implementations refine; round counts, peers, coverage |
| `SignalBarrier`, `SignalSafety`, `SignalProgress`, `SignalOneSlot`, `SignalDevice` | the GPU-triggered barrier with two signal slots and a CPU monitor |
| `ArmedSlots`, `SlotProxy`, `ProxyBarrier`, `ProxySafety`, `ProxyProgress`, `ProxyWork`, `ProxyOrder`, `ProxySource`, `ProxySlots`, `ProxyDevice`, `SlotWork` | slot window and proxy; the cumulative-counter barrier with the verified ring put |
| `CountingBarrier`, `CountingProgress`, `CountingSlots`, `CountingDevice`, `ChainedWork`, `ChainedProgress`, `ChainDevice` | the all-to-all counting barrier; trigger, write, completion, atomic |
| `FabricBarrier`, `FabricProgress`, `FabricLoss`, `FabricRecall`, `FabricDevice` | the message-passing barrier, its lost completions and its failed calls |
| `RingMultiply`, `RingProgress`, `RingServed`, `MatmulKernel`, `Jacobi`, `JacobiProgress`, `JacobiKernel` | the data algorithms on top |
| `AmRing`, `AmBatches`, `AmProgress`, `AmOverrun`, `AmEndpoint` | active-message ring |
| `Rendezvous`, `HexBlob`, `KvsKeys`, `Pmi2Store`, `Pmi2Calls`, `Pmi2Process` | bootstrap: blocking exchanges and the key-value store emulation |

## Assumptions

- Writing a trigger register stores the value. Deferred work fires once, when its counter reaches the
  threshold, and is delivered exactly once, at any later time and in any order; order between two ranks is
  assumed only where a statement says so (`ordered` in the proxied barrier, channels of the message-passing
  barrier and of the active-message ring).
- In the signal barrier firing, reading the source, delivery and completion of a put are four separate steps;
  in the proxied barriers an operation fires together with the trigger write and a put still reads its source
  buffer later.
- In the active-message ring a counted completion means that the message is visible at its receiver; the retry loop
  of `legacy/ofi/am_test_one.cpp:165-172`, made for the case that it is not, is modelled and under this assumption
  never retries (`PollNeverMisses`, `BatchLoopDelivers`).
- Memory is sequentially consistent; the programs put system fences around their accesses.
- In continuous mode the kernel awaits 1, 2, 3, ..., as the header says the GPU tracks it; single
  mode is one of the schedules. At least one barrier is requested (`start_continuous(0)` would leave a set-up behind).
- Every rank takes the same decision to stop the Jacobi loop, since the norm is reduced over all ranks.
- Counters and sequence numbers are unbounded integers; matrix entries are integers, mesh values
  are uninterpreted.

## Where the code and its own words differ

- `legacy/ofi/fabric_barrier.hpp:155-158`: when the first send finds no room, draining the completion queue can
  swallow the completion of the receive that was just posted. `FabricLoss.DrainLosesCompletion` gives such a run for
  every number of ranks from two, and `LostCallNeverReturns` says that the call then never returns without an error,
  whatever follows. `LossExactly` and `QuiescentDoneIff` say exactly when a run suffers it, `FirstTryDecides` that
  refusals of the first try decide it.
- `legacy/ofi/fabric_barrier.hpp:134-139`: after a second failure `barrier()` prints a message and returns like a call
  that is done, before anyone else need have arrived (`FabricRecall.FailedCallReturnsEarly`). Its receive stays
  posted, and if the rank calls again that call can return without an error although the others have made one call
  less (`RecallReturnsEarly`, `StaleReceiveTakesOtherMessage`). So the barrier is one for schedules in which no rank
  calls again after a failed call, and whether a second try may be refused decides it for all schedules
  (`GiveUpDecides`).
- `legacy/ofi/prototype/barrier-put-verify.cpp:565-569` argues that the network has had time to deliver the puts.
  Delivery in order between two ranks is what makes the verification pass: with it every run passes, without it
  some run of every configuration fails (`ProxyOrder.PassesIff`). Barrier safety does not need it. The send buffer,
  rewritten every epoch without waiting for the put's completion, is safe from the second
  epoch on only with that order too (`ProxySource.SourceFreeIff`).
- `legacy/ofi/gda_barrier_new.hpp:187-190` double-buffers the signal source against in-flight puts. The reset
  waits for all completions first, so a buffer is never rewritten while a put may read it (`SourceRewrittenWhenIdle`).
- `legacy/ofi/gda_barrier_new.hpp:59-60` keeps two signal slots against overwrites. For two or more barriers they are needed
  with every number of ranks but 2^n - 1: there the dissemination pattern itself keeps a sender from lapping its reader, and one slot is
  enough (`SignalOneSlot.SlotsDecide`, `Dissemination.NeverLapped`).
- `examples/ofi/mm_minimal.cpp:95-97`: ranks on one host that disagree on the switch for same-node copies leave an edge
  unserved, and the product is wrong (`RingServed.ProductRightIff`), or serve it twice, which is harmless to the result.
- `src/gicc/bootstrap/detail/bootstrap_pmi2.hpp:330-332` reports a limit of 4 MiB; the loop makes four attempts and
  the largest buffer it reads into has 1 MiB (`FetchBlob`).
- In the same file a rank that sends to itself shares one counter between sending and receiving, so such a receive
  always throws (`ReceiveOutcome`).
- `legacy/ofi/am_test_one.cpp:64` asks for batches of at most half the ring; a whole ring is safe (`BatchLoopDelivers`)
  and not one message more (`WindowBoundExact`).
- `examples/ofi/jacobi.cpp`: with one rank no halo is exchanged and the mesh is not periodic in rows.

## Model

| member | source | states |
|---|---|---|
| `Dissemination.CountByDoubling` | legacy/ofi/gda_barrier_new.hpp:227-238 | the doubling loop yields the least n with size <= 2^n, and is refused exactly above 4096 ranks |
| `Dissemination.CountByHalving` | legacy/ofi/fabric_barrier.hpp:48-53 | the halving loop yields the same n for every size |
| `Dissemination.RoundsUnique` | legacy/ofi/gda_barrier_new.hpp:227-232 | a number n with 2^(n-1) < size <= 2^n is the round count, and there is only one |
| `Dissemination.PeersModular` | legacy/ofi/fabric_barrier.hpp:128-131 | the peers of round k are (r + 2^k) mod size and (r - 2^k + size) mod size |
| `Dissemination.PeersInverse` | legacy/ofi/fabric_barrier.hpp:128-131 | the rank I send to receives from me |
| `Dissemination.TargetsDistinct` | legacy/ofi/gda_barrier_new.hpp:434 | different rounds of one rank go to different peers |
| `Dissemination.HeardIsWindow` | legacy/ofi/gda_barrier_new.hpp:111-131 | after k rounds a rank has heard, directly or through others, exactly the ranks less than 2^k behind it |
| `Dissemination.HeardEveryoneIff` | legacy/ofi/gda_barrier_new.hpp:227-232 | k rounds inform everyone about everyone exactly when size <= 2^k |
| `Dissemination.NeverLapped` | legacy/ofi/gda_barrier_new.hpp:95-140 | with 2^n - 1 ranks, any placement that is locally causal lets a rank begin a round of barrier e + 1 only if the rank it signals has finished that round of barrier e |
| `Dissemination.AllHaveEntered` | legacy/ofi/gda_barrier_new.hpp:95-140 | any placement of ranks that is locally causal lets a rank finish all rounds of barrier e only if all have entered it |
| `AbstractBarrier.MoveKeepsInv` | legacy/ofi/gda_barrier_new.hpp:95-140 | entering and leaving keep the abstract barrier consistent |
| `AbstractBarrier.SkewAtMostOne` | legacy/ofi/gda_barrier_new.hpp:95-140 | ranks are never more than one barrier apart |
| `SignalBarrier.StepKeepsInv` | legacy/ofi/gda_barrier_new.hpp:95-140 | kernel, monitor and network steps keep the protocol invariant of every rank and every link, in any order |
| `SignalSafety.RunInv` | legacy/ofi/gda_barrier_new.hpp:95-140 | every schedule, however it interleaves, leads to a state with that invariant |
| `SignalSafety.BarrierSafety` | legacy/ofi/gda_barrier_new.hpp:95-140 | on every schedule a rank leaves barrier e only after all ranks have entered e |
| `SignalSafety.StepRefines` | legacy/ofi/gda_barrier_new.hpp:95-140 | every step is a move of the abstract barrier by its rank, or invisible |
| `SignalSafety.AtMostTwoAhead` | legacy/ofi/gda_barrier_new.hpp:108-131 | a put for barrier e + 2 is never triggered before its reader has seen barrier e |
| `SignalSafety.AtMostOneAhead` | legacy/ofi/gda_barrier_new.hpp:108-131 | with 2^n - 1 ranks a put for barrier e + 1 is never triggered before its reader has seen that round of barrier e |
| `SignalSafety.EqualityPollingExact` | legacy/ofi/gda_barrier_new.hpp:125-129 | with two slots, or one and 2^n - 1 ranks or a single barrier, a polled cell equals the awaited number exactly when that put has landed: equality polling never misses it |
| `SignalSafety.OneInFlight` | legacy/ofi/gda_barrier_new.hpp:59-60 | at most one put per round is under way towards a cell |
| `SignalSafety.CellsRiseByTwo` | legacy/ofi/gda_barrier_new.hpp:429-442 | a landing put raises its cell by exactly two (from its starting value, by the slot number) |
| `SignalSafety.Handshake` | legacy/ofi/gda_barrier_new.hpp:360-372 | done is barrier_count or one more, ready counts the setups, and inside a barrier the kernel is exactly one ahead of barrier_count |
| `SignalSafety.PutsAreSound` | legacy/ofi/gda_barrier_new.hpp:412-418 | a put fires only after its own kernel has reached that round of that barrier, and carries that barrier's number although its source is read late |
| `SignalSafety.SourceRewrittenWhenIdle` | legacy/ofi/gda_barrier_new.hpp:493-507 | a source buffer is rewritten only when all puts reading it have completed |
| `SignalProgress.QuiescentIffDone` | legacy/ofi/gda_barrier_new.hpp:531-607 | with enough slots nothing can move exactly when every rank has finished all its barriers |
| `SignalProgress.StepWorks` | legacy/ofi/gda_barrier_new.hpp:95-140 | every non-spinning step adds exactly one to the work done |
| `SignalProgress.EffectiveBounded` | legacy/ofi/gda_barrier_new.hpp:374-386 | no schedule has more non-spinning steps than a bound fixed by ranks, rounds and barriers |
| `SignalProgress.RunsComplete` | legacy/ofi/gda_barrier_new.hpp:374-386 | with enough slots a schedule has made all of that work exactly when all ranks have completed all barriers |
| `SignalOneSlot.NeverRecovers` | legacy/ofi/gda_barrier_new.hpp:59-60 | once a signal has been overwritten unread, its rank polls in vain on every continuation |
| `SignalOneSlot.OneSlotSticks` | legacy/ofi/gda_barrier_new.hpp:59-60 | with one slot, two or more barriers and any number of ranks but 2^n - 1 there is a run after which some rank never leaves the barrier it is in, on any continuation |
| `SignalOneSlot.SlotsDecide` | legacy/ofi/gda_barrier_new.hpp:59-60 | every run that comes to rest has completed all barriers on all ranks exactly if there are two slots, or 2^n - 1 ranks, or just one barrier |
| `SignalDevice.Device.Setup` | legacy/ofi/gda_barrier_new.hpp:405-467 | in place: the new source value, one more queued put per round, ready increased; equal to the state machine's steps |
| `SignalDevice.Device.RunRounds` | legacy/ofi/gda_barrier_new.hpp:111-131 | in place: the trigger/poll loop goes on until a signal is missing or all rounds are done and the CPU is notified |
| `SignalDevice.Device.BarrierNew` | legacy/ofi/gda_barrier_new.hpp:95-140 | in place: one call, or its continuation after a spin, is a path of kernel steps |
| `SignalDevice.Device.Reset` | legacy/ofi/gda_barrier_new.hpp:493-513 | in place: counts the barrier and goes on only with every round's completion in |
| `SignalDevice.Device.MonitorPass` | legacy/ofi/gda_barrier_new.hpp:592-605 | in place: one pass is a path of monitor steps with a forced outcome: it counts a barrier the GPU has finished, waits exactly while a completion is missing, and with all of them in either stops after the last barrier or queues one put a round for the next one and announces it; with nothing to do it changes nothing |
| `SignalDevice.GpuPathIsARun` | legacy/ofi/gda_barrier_new.hpp:95-140 | what the kernel object does in place is a schedule of the state machine |
| `SignalDevice.CpuPathIsARun` | legacy/ofi/gda_barrier_new.hpp:531-607 | what the monitor object does in place is a schedule of the state machine |
| `ArmedSlots.FireKeepsWindow` | legacy/ofi/prototype/barrier-put-verify.cpp:532-534 | triggering an armed slot finds queued work and fires it, once |
| `ArmedSlots.ProxyKeepsWindow` | legacy/ofi/prototype/barrier-put-verify.cpp:426-451 | re-queueing, failed or not, keeps the bookkeeping of the window |
| `ArmedSlots.RearmsMatchFires` | legacy/ofi/prototype/barrier-put-verify.cpp:446-447 | a slot has been armed as often as it fired, or once more, the latter exactly while armed work waits |
| `ArmedSlots.TotalRearms` | legacy/ofi/prototype/barrier-put-verify.cpp:446-447 | with all slots armed and idle, total rearms are the slots plus the operations fired |
| `SlotProxy.Proxy.ScanAll` | legacy/ofi/prototype/barrier-put-verify.cpp:426-451 | in place: the scan arms exactly the released slots whose queueing succeeds and counts them |
| `SlotProxy.Proxy.UseSlot` | legacy/ofi/prototype/barrier-put-verify.cpp:525-541 | in place: an armed slot is triggered, fires once and is handed back; an unarmed one is left alone |
| `SlotProxy.ScanKeepsWindow` | legacy/ofi/prototype/barrier-put-verify.cpp:426-451 | a scan keeps the window consistent and does not touch the slot the kernel uses |
| `SlotProxy.ScanIsProxyActions` | legacy/ofi/prototype/barrier-put-verify.cpp:429-448 | per slot the scan is the proxy's actions of the state machine |
| `ProxyBarrier.SlotInWindow` | legacy/ofi/prototype/barrier-put-verify.cpp:514-516 | an index row * slots per window + phase lies in the window and keeps its phase |
| `ProxySlots.SlotIsRowMajor` | legacy/ofi/prototype/barrier-put-verify.cpp:514-516 | the slot of an epoch and phase is (epoch mod window) * slots per window + phase |
| `ProxySlots.SlotsRotate` | legacy/ofi/prototype/barrier-put-verify.cpp:514-516 | two uses share a slot exactly when they are of one phase and whole windows of epochs apart |
| `ProxySlots.EverySlotIsUsed` | legacy/ofi/prototype/barrier-put-verify.cpp:514-516 | every slot is used, in the first window already |
| `ProxySlots.SlotFires` | legacy/ofi/prototype/barrier-put-verify.cpp:513-629 | at the end a slot of row w has fired three times (a put slot once) in each epoch e with e mod window = w, and in no other |
| `ProxyBarrier.GpuSends` | legacy/ofi/prototype/barrier-put-verify.cpp:522-563 | each trigger fires exactly one operation, of the type, phase and target the kernel's index arithmetic expects |
| `ProxyBarrier.StepKeepsInv` | legacy/ofi/prototype/barrier-put-verify.cpp:513-629 | kernel, proxy and network steps keep the protocol invariant |
| `ProxyBarrier.RunInv` | legacy/ofi/prototype/barrier-put-verify.cpp:513-629 | every schedule leads to a state with that invariant |
| `ProxySafety.CounterConservation` | legacy/ofi/prototype/barrier-put-verify.cpp:309-338 | phase counter p of a rank plus the additions in flight is the phase-p triggers of its sender |
| `ProxySafety.NoEarlyLeave` | legacy/ofi/prototype/barrier_put_compute_verify.cpp:489-617 | reaching the threshold of the last phase of barrier b means that all ranks have entered b |
| `ProxySafety.BarrierSafety` | legacy/ofi/prototype/barrier-put-verify.cpp:522-542 | barrier safety for every window, schedule and order of delivery |
| `ProxySafety.StepRefines` | legacy/ofi/prototype/barrier-put-verify.cpp:522-628 | every step is a move of the abstract barrier by its rank, or invisible |
| `ProxySafety.SourceIsFree` | legacy/ofi/prototype/barrier-put-verify.cpp:548-550 | with in-order delivery: when the send buffer is overwritten, the last put has been delivered |
| `ProxySource.SourceFreeIff` | legacy/ofi/prototype/barrier-put-verify.cpp:548-550 | no run overwrites the send buffer under a put that has still to read it, exactly if the network keeps the order between two ranks or there is no second epoch |
| `ProxySafety.VerificationReadsFreshValue` | legacy/ofi/prototype/barrier-put-verify.cpp:594-604 | with in-order delivery a verification of epoch e reads the value the previous rank prepared for epoch e |
| `ProxySafety.RunOrdered` | legacy/ofi/prototype/barrier-put-verify.cpp:594-604 | with in-order delivery every schedule keeps the sequence of additions and puts on each ring edge |
| `ProxySafety.EveryVerificationPasses` | legacy/ofi/prototype/barrier-put-verify.cpp:601-604 | with in-order delivery no run ever counts an error |
| `ProxyProgress.RearmConservation` | legacy/ofi/prototype/barrier-put-verify.cpp:513-629 | operations fired equal triggers written, at every moment; at the end rearms are slots + epochs * (3 phases + 1) |
| `ProxyOrder.PassesIff` | legacy/ofi/prototype/barrier-put-verify.cpp:565-604 | all verifications of all runs pass exactly when the network keeps the order between two ranks (or there is no epoch) |
| `ProxyOrder.OvertakenPutFails` | legacy/ofi/prototype/barrier-put-verify.cpp:565-604 | for every number of ranks, window and positive number of epochs: without that order a run that counts an error |
| `ProxyWork.RunsComplete` | legacy/ofi/prototype/barrier-put-verify.cpp:513-629 | spins and refused re-queues apart, no schedule has more steps than size * (epochs * (21 phases + 12) + 2 slots), and it has made them all exactly when nothing can move |
| `ProxyProgress.StuckMeansFinished` | legacy/ofi/prototype/barrier-put-verify.cpp:513-629 | a run that cannot go on, re-queueing included, has finished all epochs with every slot armed |
| `ProxyDevice.Device.PhaseAction` | legacy/ofi/prototype/barrier-put-verify.cpp:522-542 | in place: one phase action of a barrier, or a spin on slot or counter, is the state machine's step |
| `ProxyDevice.Device.RunKernel` | legacy/ofi/prototype/barrier-put-verify.cpp:513-629 | in place: the epoch loop is a path of kernel steps up to where it must wait or has done all epochs |
| `ProxyDevice.PathIsARun` | legacy/ofi/prototype/barrier-put-verify.cpp:513-629 | what the kernel does in place is a schedule of the state machine |
| `CountingBarrier.QueueSlotWork` | legacy/ofi/prototype/barrier_proxy.cpp:250-297 | the queueing loop targets every rank but the own one, each once |
| `CountingBarrier.FiringReachesPeers` | legacy/ofi/prototype/barrier_proxy.cpp:366-369 | a trigger puts one addition in flight to every other rank |
| `CountingSlots.SlotsRotate` | legacy/ofi/prototype/barrier_proxy.cpp:358-359 | the first epochs use the slots from 0 on, and two epochs share a slot exactly when they are whole windows apart |
| `CountingSlots.SlotFires` | legacy/ofi/prototype/barrier_proxy.cpp:358-380 | at every moment a slot x has fired once for each triggered epoch e with e mod window = x |
| `CountingBarrier.CountMeansEveryone` | legacy/ofi/prototype/barrier_proxy.cpp:371-376 | reaching (epoch + 1) * (size - 1) arrivals means that every rank has triggered the epoch, though arrivals are only summed |
| `CountingBarrier.StepKeepsInv` | legacy/ofi/prototype/barrier_proxy.cpp:358-380 | kernel, proxy and delivery steps keep the counting invariant |
| `CountingBarrier.CountingIsSafe` | legacy/ofi/prototype/barrier_proxy.cpp:358-380 | on every schedule a rank passes an epoch only after all have triggered it |
| `CountingBarrier.FinalArriveExact` | legacy/ofi/prototype/barrier_proxy.cpp:765-788 | the reported counter is exactly iterations * (size - 1), with nothing left in flight |
| `CountingBarrier.RearmsCounted` | legacy/ofi/prototype/barrier_proxy.cpp:316-321 | with all slots armed between epochs the proxy has re-armed window + epochs times |
| `CountingProgress.StuckMeansFinished` | legacy/ofi/prototype/barrier_proxy.cpp:358-380 | a run that cannot go on, re-queueing included, has finished all epochs with every slot armed |
| `CountingProgress.RunsComplete` | legacy/ofi/prototype/barrier_proxy.cpp:358-380 | spins and refused re-queues apart, no schedule has more steps than size * (epochs * (size + 5) + 2 slots), and it has made them all exactly when nothing can move |
| `CountingBarrier.StepRefines` | legacy/ofi/prototype/barrier_proxy.cpp:358-380 | triggering is entering, passing the count is leaving the abstract barrier |
| `CountingDevice.Device.Action` | legacy/ofi/prototype/barrier_proxy.cpp:358-380 | in place: one kernel action, or a spin, with the targets fired at |
| `CountingDevice.Device.RunKernel` | legacy/ofi/prototype/barrier_proxy.cpp:358-380 | in place: the epoch loop is a path of kernel steps that fires at every peer once per triggered epoch |
| `CountingDevice.PathIsARun` | legacy/ofi/prototype/barrier_proxy.cpp:358-380 | what the kernel does in place is a schedule of the state machine |
| `ChainedWork.StepKeepsInv` | legacy/ofi/prototype/gda-proxy.cpp:170-195 | every step keeps the write/addition chain of each slot intact |
| `ChainedWork.RunInv` | legacy/ofi/prototype/gda-proxy.cpp:170-195 | every schedule leads to a state with that invariant |
| `ChainedWork.SlotsRotate` | legacy/ofi/prototype/gda-proxy.cpp:171 | the first iterations use the slots from 0 on, and two iterations share a slot exactly when they are whole rounds apart |
| `ChainedWork.EarlierUses` | legacy/ofi/prototype/gda-proxy.cpp:171 | the slot of iteration i has been used i / slots times before |
| `ChainedWork.ResultMeansWritten` | legacy/ofi/prototype/gda-proxy.cpp:187-190 | a seen result means that the RMA write of this iteration has completed and nothing of the chain is in flight |
| `ChainedWork.ClearIsSafe` | legacy/ofi/prototype/gda-proxy.cpp:180-185 | clearing the result word races no addition, and nothing sets it again before the trigger |
| `ChainedWork.NeverStuck` | legacy/ofi/prototype/gda-proxy.cpp:170-195 | until the last iteration is done something can move |
| `ChainedProgress.EffectiveBounded` | legacy/ofi/prototype/gda-proxy.cpp:170-305 | no schedule has more than 25 steps an iteration and four a slot |
| `ChainedProgress.RearmsCounted` | legacy/ofi/prototype/gda-proxy.cpp:280-305 | the proxy has armed each slot as often as it was triggered, once more while it is armed and unused |
| `ChainedProgress.StuckMeansFinished` | legacy/ofi/prototype/gda-proxy.cpp:170-195 | a run that cannot go on has finished all its iterations |
| `ChainDevice.Device.RunKernel` | legacy/ofi/prototype/gda-proxy.cpp:170-195 | in place: the kernel loop is a path of kernel steps, up to where it must wait or has finished |
| `ChainDevice.Device.ScanAll` | legacy/ofi/prototype/gda-proxy.cpp:214-305 | in place: after a scan every slot is armed, armed ones untouched |
| `ChainDevice.PathIsARun` | legacy/ofi/prototype/gda-proxy.cpp:170-305 | what the objects do in place is a schedule of the state machine |
| `FabricBarrier.RunShape` | legacy/ofi/fabric_barrier.hpp:122-163 | every schedule, failed calls and calls after them included, keeps the data well formed |
| `FabricBarrier.StepKeepsInv` | legacy/ofi/fabric_barrier.hpp:122-163 | call and delivery steps keep channels and ranks consistent, up to a call made after a failed call |
| `FabricBarrier.RunInv` | legacy/ofi/fabric_barrier.hpp:122-163 | every schedule in which no rank calls again after a failed call leads to a state with that invariant |
| `FabricBarrier.MatchTakesOwnMessage` | legacy/ofi/fabric_barrier.hpp:145-163 | in such a schedule the message taken in round k of barrier b is the sender's round-k message of barrier b, though the program never looks |
| `FabricBarrier.BarrierSafety` | legacy/ofi/fabric_barrier.hpp:122-141 | in such a schedule a call that returns without a send error returns only after all ranks have made theirs |
| `FabricBarrier.FailedCallGuarantee` | legacy/ofi/fabric_barrier.hpp:134-139 | a call that gives up in round k has still heard from the ranks less than 2^k behind |
| `FabricBarrier.StepRefines` | legacy/ofi/fabric_barrier.hpp:122-163 | every step but a call after a failed call is a move of the abstract barrier by its rank, or invisible |
| `FabricRecall.GiveUpDecides` | legacy/ofi/fabric_barrier.hpp:153-159 | every schedule is safe if no second try of a send is refused; if it may be, exactly with a single rank or no second call |
| `FabricRecall.NoRecallIsSafe` | legacy/ofi/fabric_barrier.hpp:122-141 | a schedule without a call after a failed call is safe |
| `FabricRecall.FailedCallReturnsEarly` | legacy/ofi/fabric_barrier.hpp:134-139 | for every number of ranks: a run in which a call returns although no other rank has made its own |
| `FabricRecall.RecallReturnsEarly` | legacy/ofi/fabric_barrier.hpp:134-139 | for every number of ranks and two or more calls: a run with one failed call, after which the next call of that rank returns without an error although all others have made one call only |
| `FabricRecall.StaleReceiveTakesOtherMessage` | legacy/ofi/fabric_barrier.hpp:149-151 | after a failed call the receive it left posted takes, in barrier 2, a message of barrier 1 |
| `FabricProgress.LossExactly` | legacy/ofi/fabric_barrier.hpp:155-158 | a completion is dropped exactly when the first try to send finds no room and the round's message has already met its receive |
| `FabricProgress.LossIsForever` | legacy/ofi/fabric_barrier.hpp:165-188 | whatever happens afterwards, a call that dropped its completion never returns without an error |
| `FabricProgress.QuiescentDoneIff` | legacy/ofi/fabric_barrier.hpp:122-183 | when nothing can move, every call has completed exactly if no second try was refused, and no first try with the round's message already there |
| `FabricProgress.EffectiveBounded` | legacy/ofi/fabric_barrier.hpp:122-183 | no schedule without a call after a failed call has more than five steps a round and two a call, on every rank |
| `FabricProgress.CanFinish` | legacy/ofi/fabric_barrier.hpp:122-183 | a run without such refusals can always be finished without one |
| `FabricLoss.DrainLosesCompletion` | legacy/ofi/fabric_barrier.hpp:155-158 | for every number of ranks from two: a run in which draining drops the completion of a call that has not failed |
| `FabricLoss.LostCallNeverReturns` | legacy/ofi/fabric_barrier.hpp:165-188 | after that run, on every continuation, that call has not returned without an error |
| `FabricLoss.DropsIff` | legacy/ofi/fabric_barrier.hpp:155-158 | some run without a failed call drops a completion exactly when there are two ranks and a call |
| `FabricLoss.FirstTryDecides` | legacy/ofi/fabric_barrier.hpp:153-159 | among runs without a failed call: if no first try of a send is refused, every run that comes to rest has completed every call; if it may be, exactly with a single rank or no call |
| `FabricDevice.Device.Action` | legacy/ofi/fabric_barrier.hpp:145-183 | in place: one action of the call is the state machine's step |
| `FabricDevice.Device.Barrier` | legacy/ofi/fabric_barrier.hpp:122-141 | in place: one call, or its continuation, is a path of steps up to where it waits or returns, and goes into no second call |
| `FabricDevice.PathIsARun` | legacy/ofi/fabric_barrier.hpp:122-163 | what the object does in place is a schedule of the state machine |
| `RingMultiply.EdgeServedOnceIff` | examples/ofi/mm_minimal.cpp:95-97 | a ring edge is served exactly once, by push or by pull, exactly when the two ranks on one host agree on the switch |
| `RingMultiply.StripeClosed` | examples/ofi/mm_minimal.cpp:213 | the stripe of step s is (rank + s) mod npes |
| `RingMultiply.NextStripeIsHere` | examples/ofi/mm_minimal.cpp:219-240 | if every edge is served, once or twice: once all ranks have finished step s every rank holds its whole next stripe |
| `RingMultiply.CurrentStripe` | examples/ofi/mm_minimal.cpp:212-238 | if every edge is served: while computing, the current buffer holds the stripe of rank (r + s) mod npes, in every interleaving |
| `RingMultiply.NoBufferRace` | examples/ofi/mm_minimal.cpp:214-228 | however the edges are served, no put or pull lands in a buffer that any rank may read in the same step |
| `RingMultiply.NoDoubleWrite` | examples/ofi/mm_minimal.cpp:95-97 | if no edge is served twice, two puts or pulls that may both happen next never write the same element |
| `RingMultiply.ProductIsRight` | examples/mm_hip_gda_proxy.cpp:157-170 | if every edge is served: whatever the order of puts, pulls and atomic additions, a finished rank holds the sums of products |
| `RingServed.ProductRightIff` | examples/ofi/mm_minimal.cpp:95-97 | for all matrices and in all interleavings the product is right exactly if every edge is served, once or twice |
| `RingServed.UnservedEdgeIsWrong` | examples/ofi/mm_minimal.cpp:95-97 | an edge that nobody serves gives a wrong product in a finished run, for some matrices |
| `RingServed.NoDoubleWriteIff` | examples/ofi/mm_minimal.cpp:95-97 | no two transfers ever compete for an element exactly if no edge is served twice |
| `RingMultiply.SomethingToDo` | examples/ofi/mm_minimal.cpp:212-241 | until a rank has made all its steps some action is enabled |
| `RingProgress.EffectiveBounded` | examples/ofi/mm_minimal.cpp:212-241 | however the edges are served, no schedule has more actions than ranks times steps times the elements and products of a step |
| `MatmulKernel.ColumnOfBlock` | examples/mm_hip_gda_proxy.cpp:162-163 | column col is column col % ns of block col / ns, at the row-major index |
| `MatmulKernel.FlatProduct` | examples/mm_hip_gda_proxy.cpp:157-170 | if every edge is served, the flat C stripe of a finished rank holds the product |
| `MatmulKernel.CellIndexInjective` | examples/ofi/mm_minimal.cpp:62 | different entries of C have different flat indices |
| `MatmulKernel.MatmulThread` | examples/ofi/mm_minimal.cpp:52-65 | in place: a thread within bounds adds its products to its column and nothing else; others change nothing |
| `MatmulKernel.ThreadIsARun` | examples/ofi/mm_minimal.cpp:60-63 | if every edge is served: in any reachable state of a computing rank, a thread is a schedule of additions that leaves what the kernel body leaves |
| `MatmulKernel.GridCovers` | examples/ofi/mm_minimal.cpp:181-182 | the launched grid has exactly one thread per element |
| `MatmulKernel.PutHandles.Allocate` | examples/mm_hip_gda_proxy_repeat.cpp:145-155 | in place: handle s goes from buffer s mod 2 to buffer (s + 1) mod 2 of the left neighbour; the first refusal leaves an empty entry, stops the loop before the later ones and yields false |
| `MatmulKernel.HandleIsThePut` | examples/mm_hip_gda_proxy_repeat.cpp:226-251 | handle s is exactly the put the ring needs in step s (every edge being served) |
| `Jacobi.HaloIsNeighboursRow` | examples/ofi/jacobi.cpp:213-240 | a halo row is the neighbour's edge row of the periodic mesh |
| `Jacobi.SweepIsExpected` | examples/ofi/jacobi.cpp:86-94 | the stencil over a current buffer is the next sweep of the global mesh |
| `Jacobi.PutCarriesHalo` | examples/ofi/jacobi.cpp:231-241 | an element put after the trigger is the one the target's halo should have |
| `Jacobi.LeaveKeepsInv` | examples/ofi/jacobi.cpp:259-288 | the barrier and the buffer swap, or the warm-up without one, open the next step with everything in place |
| `Jacobi.JacobiIsSequential` | examples/ofi/jacobi.cpp:271-288 | t distributed iterations equal t sequential ones on the row-periodic mesh (zero beyond the mesh for one rank), in every interleaving |
| `Jacobi.RowHasOneOwner` | examples/ofi/jacobi.cpp:171-175 | every global row belongs to exactly one rank |
| `Jacobi.TriggerExactlyOnce` | examples/ofi/jacobi.cpp:104-111 | the trigger is written once per step, only after all cells of the rank |
| `Jacobi.NoRace` | examples/ofi/jacobi.cpp:228-257 | two actions that may both happen next never conflict on a memory cell |
| `Jacobi.SomethingToDo` | examples/ofi/jacobi.cpp:274-288 | until a rank has made all its steps some action is enabled |
| `Jacobi.OneRankIsNotPeriodic` | examples/ofi/jacobi.cpp:210-211 | with one rank the result differs from the periodic mesh (an instance) |
| `JacobiProgress.EffectiveBounded` | examples/ofi/jacobi.cpp:274-288 | no schedule has more actions than ranks times steps times the cells, blocks and columns of a step |
| `JacobiKernel.LaunchIsEverySchedule` | examples/ofi/jacobi.cpp:82-111 | every schedule leaves, once the blocks of a step are done, what the launch object leaves |
| `JacobiKernel.Launch.SweptIsStencil` | examples/ofi/jacobi.cpp:86-89 | the cell the kernel writes is the stencil of the state machine |
| `Jacobi.BlocksCoverExactly` | examples/ofi/jacobi.cpp:128 | the grid has the least number of blocks of 32 that covers the cells |
| `JacobiKernel.Launch.Block` | examples/ofi/jacobi.cpp:82-111 | in place: a block sweeps exactly its cells and takes one ticket; the last ticket writes the trigger |
| `JacobiKernel.Launch.Run` | examples/ofi/jacobi.cpp:121-134 | in place: in any block order every own cell is swept from the old buffer and the trigger is written once |
| `JacobiKernel.GridSize` | examples/ofi/jacobi.cpp:128-129 | the ticket compared with is the number of blocks |
| `BitMask.SlotIsRemainder` | src/gicc/platform/mlx5/am.hpp:157 | with a power of two slots the slot of a sequence number is its remainder |
| `BitMask.MaskKeepsLowBits` | src/gicc/platform/mlx5/am.hpp:157 | masking with 2^k - 1 is the remainder by 2^k |
| `BitMask.MaskSeparatesIff` | src/gicc/platform/mlx5/am.hpp:43 | the masked index keeps a ring's worth of sequence numbers apart exactly when the slot count is a power of two |
| `AmRing.PollSeesNextMessage` | src/gicc/platform/mlx5/am.hpp:41-58 | the polled slot shows the expected number exactly when that message is delivered, and then holds it whole |
| `AmRing.StepKeepsInv` | src/gicc/platform/mlx5/am.hpp:131-194 | send, wait, network and receiver steps keep every channel intact while the window is kept |
| `AmRing.ConsumedIsSent` | src/gicc/platform/mlx5/am.hpp:41-58 | with at most nslots messages outstanding a receiver consumes a prefix of what was sent: in order, once, every word intact |
| `AmRing.NothingIsLost` | src/gicc/platform/mlx5/am.hpp:41-58 | when neither network nor receiver can move, everything sent has been consumed |
| `AmRing.CompletionKeepsInv` | src/gicc/platform/mlx5/am.hpp:185-194 | staging slots are freed only when every posted put has been executed |
| `AmRing.StagingIsFree` | src/gicc/platform/mlx5/am.hpp:132-139 | a staging slot is overwritten only when no outstanding put reads it |
| `AmOverrun.OverrunLosesEverything` | src/gicc/platform/mlx5/am.hpp:131-180 | for every ring, staging pool and channel, nslots + 1 unconsumed messages bury the first for good: nothing of that channel is ever consumed |
| `AmOverrun.WindowBoundExact` | legacy/ofi/am_test_one.cpp:62-64 | at most w unconsumed messages guarantee delivery exactly for w up to the number of slots |
| `AmOverrun.StepKeepsBooks` | src/gicc/platform/mlx5/am.hpp:131-194 | window or not, the staging pool is freed only with every posted put executed |
| `AmBatches.BatchCount` | legacy/ofi/am_test_one.cpp:97-98 | the number of batches is the least that covers all messages |
| `AmBatches.PollNeverMisses` | legacy/ofi/am_test_one.cpp:165-172 | in the polling phase every message of the batch is already there |
| `AmBatches.BatchLoopDelivers` | legacy/ofi/am_test_one.cpp:118-188 | for any message count and timing: no send is refused, no retry is used, all messages are processed in order |
| `AmBatches.JobNeverSticks` | legacy/ofi/am_test_one.cpp:118-188 | until it has finished, the batch loop can move |
| `AmProgress.JobCompletes` | legacy/ofi/am_test_one.cpp:97-188 | no run of the loop has more than 13 effective steps a message and 4 a batch, and it has finished exactly when it has made them all |
| `AmEndpoint.Wait` | src/gicc/platform/mlx5/comm.hpp:260-280 | the loop ends at the poll that brings the count-th success, or at an error before it |
| `AmEndpoint.Sender.SendHandle` | src/gicc/platform/mlx5/am.hpp:131-180 | in place: -1 and no change when the pool is used up, otherwise the send step of the state machine |
| `AmEndpoint.Sender.TriggerAndWait` | src/gicc/platform/mlx5/am.hpp:185-194 | in place: starts waiting, takes exactly the pending number of completions from the queue while the network goes on, and frees the pool; equal to those steps of the state machine. It succeeds whenever the queue reports no error, and stops without freeing anything exactly at an error before the last completion |
| `AmEndpoint.WaitIsARun` | src/gicc/platform/mlx5/am.hpp:185-194 | what the object goes through while it waits is a schedule of the state machine |
| `AmEndpoint.Receiver.PollPeer` | src/gicc/platform/mlx5/am.hpp:38-58 | in place: takes the longest run of delivered messages up to the limit, and publishes the tail of that peer only |
| `AmEndpoint.Receiver.PollKernel` | src/gicc/platform/mlx5/am.hpp:31-62 | in place: all peers but the own rank; the total is the number of messages consumed on all channels |
| `AmEndpoint.TakesWhatIsThere` | src/gicc/platform/mlx5/am.hpp:41-58 | a poll takes all that is delivered, up to its limit, and hands over exactly the next messages |
| `Rendezvous.NeighboursModular` | examples/ofi/mm_minimal.cpp:89-90 | the neighbours of the ring are (rank - 1) and (rank + 1) mod size |
| `Rendezvous.NeverDeadlocks` | examples/ofi/mm_minimal.cpp:151-161 | the parity-ordered ring (any size from 2, odd included) and the ascending pairwise exchange can always go on until finished |
| `Rendezvous.PairsCanMove` | src/gicc/platform/mlx5/comm.hpp:373-398 | in the pairwise exchange the smallest unfinished rank finds its peer waiting for it |
| `Rendezvous.RingCanMove` | examples/ofi/mm_minimal.cpp:151-161 | in the parity-ordered ring an unfinished rank leads to two ranks that can meet |
| `Rendezvous.EveryoneHasTheData` | src/gicc/platform/mlx5/comm.hpp:375-386 | finished, every rank holds its right neighbour's data, or every peer's, and nothing else |
| `Rendezvous.FinishedIff` | src/gicc/platform/mlx5/comm.hpp:373-398 | the exchange is over exactly after size * calls / 2 meetings, and no schedule has more |
| `Rendezvous.SendFirstDeadlocks` | examples/ofi/mm_minimal.cpp:151-154 | with every rank sending first nothing ever happens |
| `HexBlob.HexSpells` | src/gicc/bootstrap/detail/bootstrap_pmi2.hpp:252-260 | byte i is two digits of the table, the high nibble first |
| `HexBlob.HexEncode` | src/gicc/bootstrap/detail/bootstrap_pmi2.hpp:252-260 | in place: the loop writes the lower-case hex text |
| `HexBlob.HexDecode` | src/gicc/bootstrap/detail/bootstrap_pmi2.hpp:267-281 | the loop yields the bytes, or fails |
| `HexBlob.DecodeAfterEncode` | src/gicc/bootstrap/detail/bootstrap_pmi2.hpp:252-281 | decoding what was encoded gives the bytes back |
| `HexBlob.EncodeAfterDecode` | src/gicc/bootstrap/detail/bootstrap_pmi2.hpp:252-281 | encoding what was decoded gives the text back in lower case |
| `HexBlob.DecodesIff` | src/gicc/bootstrap/detail/bootstrap_pmi2.hpp:267-277 | decoding fails exactly on odd lengths and foreign characters |
| `HexBlob.FetchBlob` | src/gicc/bootstrap/detail/bootstrap_pmi2.hpp:305-333 | the growing-buffer loop reads any value shorter than 1 MiB and gives up on the others |
| `HexBlob.FetchOfPublished` | src/gicc/bootstrap/detail/bootstrap_pmi2.hpp:297-333 | published bytes are read back exactly when their text is below the limit, trailing NUL counted or not |
| `KvsKeys.KeyText` | src/gicc/bootstrap/detail/bootstrap_pmi2.hpp:283-295 | a key is the common prefix and the tag, then a dot and a number each |
| `KvsKeys.NumberText` | src/gicc/bootstrap/detail/bootstrap_pmi2.hpp:289-295 | the numbers are written in decimal |
| `Pmi2Store.CollectiveKeyTexts` | src/gicc/bootstrap/detail/bootstrap_pmi2.hpp:98-131 | the keys of the collectives: tag, epoch, rank |
| `Pmi2Store.MessageKeyText` | src/gicc/bootstrap/detail/bootstrap_pmi2.hpp:145-164 | the key of a message: tag, number, source, destination, message tag |
| `KvsKeys.KeyInjective` | src/gicc/bootstrap/detail/bootstrap_pmi2.hpp:283-295 | different tags or numbers never make the same key |
| `Pmi2Store.KeysAreFresh` | src/gicc/bootstrap/detail/bootstrap_pmi2.hpp:94-169 | whatever the program, no key is published twice |
| `Pmi2Store.PutKeepsInv` | src/gicc/bootstrap/detail/bootstrap_pmi2.hpp:297-304 | a published key was neither committed nor pending |
| `Pmi2Store.FenceKeepsInv` | src/gicc/bootstrap/detail/bootstrap_pmi2.hpp:86-91 | after g fences the store holds exactly what the first g calls of each rank publish |
| `Pmi2Calls.ReceiveOutcome` | src/gicc/bootstrap/detail/bootstrap_pmi2.hpp:149-169 | for every program: a receive returns the message its counters name, and throws exactly if that has not been sent by then, has another length, is too long, or comes from the rank itself |
| `Pmi2Calls.GatherIsColumn` | src/gicc/bootstrap/detail/bootstrap_pmi2.hpp:94-106 | an all-gather returns every rank's data in rank order |
| `Pmi2Calls.BroadcastIsRoots` | src/gicc/bootstrap/detail/bootstrap_pmi2.hpp:123-138 | a broadcast returns the root's data |
| `Pmi2Calls.AlignedCallsSucceed` | src/gicc/bootstrap/detail/bootstrap_pmi2.hpp:94-169 | in a program whose collectives agree and whose messages are sent in time no call fails and each returns the matching data, in every interleaving |
| `Pmi2Calls.AlignedNeverSticks` | src/gicc/bootstrap/detail/bootstrap_pmi2.hpp:86-169 | in such a program no rank is left waiting |
| `Pmi2Process.Process.NextP2pSeq` | src/gicc/bootstrap/detail/bootstrap_pmi2.hpp:193-195 | in place: returns the counter and increases it |
| `Pmi2Process.Process.AllgatherPut` | src/gicc/bootstrap/detail/bootstrap_pmi2.hpp:97-99 | in place: key, text and epoch of the first half |
| `Pmi2Process.Process.AllgatherGet` | src/gicc/bootstrap/detail/bootstrap_pmi2.hpp:101-105 | the reading loop yields the gathered blobs or stops at the first failure |
| `Pmi2Process.Process.SendRecvPut` | src/gicc/bootstrap/detail/bootstrap_pmi2.hpp:159-162 | in place: both counters taken before publishing |
| `Pmi2Process.Process.RecvGet` | src/gicc/bootstrap/detail/bootstrap_pmi2.hpp:149-157 | in place: counter, lookup and length test of a receive |
| `Pmi2Process.Process.ResolveLocalIdentity` | src/gicc/bootstrap/detail/bootstrap_pmi2.hpp:216-237 | in place: local rank and size are the counts over the host map |
| `Pmi2Process.LocalIdentityCounts` | src/gicc/bootstrap/detail/bootstrap_pmi2.hpp:216-237 | the local size is the number of ranks on the host, the local rank the number of those below |
| `Pmi2Process.LocalRanksDistinct` | src/gicc/bootstrap/detail/bootstrap_pmi2.hpp:216-237 | ranks on one host get different local ranks and agree on the local size |
| `Pmi2Process.LocalRanksCover` | src/gicc/bootstrap/detail/bootstrap_pmi2.hpp:216-237 | every number below the local size is some rank's local rank |

## Left out

- libfabric, verbs, HIP/CUDA, MPI and PMI2 calls as such, set-up and teardown of resources, MMIO mapping: foreign code; only the counters, queues, puts, fences and the store are modelled.
- The error returns of `fi_recv` (legacy/ofi/fabric_barrier.hpp:151), of a send for other reasons than a full queue, and of the completion wait (legacy/ofi/fabric_barrier.hpp:172-182): a round fails only when its second try finds no room.
- Timing, statistics, printing, JSON output, stuck detection, environment variables and device selection.
- legacy/ofi/prototype/barrier-verify.cpp: its thresholds fall behind its triggers, so it is no barrier as written.
- examples/mm_hip_gda.cpp, whose puts all target the same buffer, and the `nobarrier` mode of examples/mm_hip_gda_proxy_repeat.cpp, where nothing orders the steps across ranks.
- Packing of the verified word as rank << 24 | epoch: the pair is kept unpacked, so epochs from 2^24 on are not told apart from a neighbouring rank's in the program but are here.
- Wrap-around of 64-bit counters, sequence numbers and 32-bit indices.
- Failure of queueing in gda-proxy.cpp and barrier_proxy.cpp part-way through a slot: queueing a slot succeeds there (in barrier_proxy.cpp it may also fail as a whole).
- Floating-point rounding of the matrix product, and the L2 norm of the Jacobi solver.
- The L2-based early exit of the Jacobi loop: the number of steps is a parameter.
- The compute step of barrier_put_compute_verify.cpp: it touches no shared state.
- `rt.put_no_db`, `prepare_trigger`, `wait` and the OFI active-message library are not part of this model; one trigger releases every queued put, as examples/ofi/jacobi.cpp:69-70 says.
- Handlers, payloads and replies of active messages, and other signaled puts on the same completion queue.
- The pairwise exchange over the PMI2 back end, where every call fences globally and three or more ranks are not aligned.
- `PMI2_KVS_Get` reporting a negative length, and failures of put and fence.
- The calls of the two exchange schedules are modelled on values, not as objects.
- The Jacobi buffers of the kernel object are two-dimensional arrays; the flat index iy * nx + ix is not modelled there.
- ProxyProgress.StuckMeansFinished: says that only finished runs stop, not that a fair run stops, because a failing re-queue may be retried for ever.
