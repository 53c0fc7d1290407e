# eDGuard: verified model

eDGuard watches MySQL servers in Kubernetes pods. A probe on `dispatch_command` records each query in a kernel
queue and signals an event; a pump in user space pops one record per event and prints it; a runner keeps a
registry of database containers in step with a kernel map; a task manager starts these tasks in groups and
shuts them down under one deadline. This project models that logic in Dafny and proves properties of it.

| files | what they model |
|---|---|
| `Group.dfy` | the start/stop protocol of a runnable group: every goroutine, lock, channel, flag and counter as a state machine, one action for each atomic step, a panic as an outcome of its own |
| `GroupInvariant.dfy`, `GroupSafety.dfy` | the inductive invariant of that protocol and what follows from it in every interleaving |
| `GroupTraces.dfy` | the course of each runnable and the error of Start, read off the runs |
| `GroupProgress.dfy` | exactly when `Start` and `StopAndWait` can come to their end |
| `GroupOverlap.dfy` | what an `Add` that overlaps `StopAndWait` comes to: exactly when it returns the error and exactly when something can panic |
| `GroupRuns.dfy` | concrete runs in which a group does not do what its comments promise |
| `RunnableGroup.dfy` | the queue, flags and counter of a group as a class, with the loops that work on them in place, and the proof that each block has that effect in every interleaving of the protocol |
| `Manager.dfy`, `ManagerProgress.dfy`, `ManagerKinds.dfy` | the task manager: the order of starts, the shutdown of three groups under one deadline, exactly when it can still return nil or the error, and what becomes of each kind of task |
| `EventQueue.dfy`, `Pump.dfy` | the bounded record queue, the lossy event ring, and the loop of the pump |
| `Probe.dfy`, `Pipeline.dfy` | the two handlers of the probe, and the whole pipeline under any interleaving of threads |
| `Registry.dfy` | the registry of instances, the cluster map, and pod events |
| `NameCodec.dfy`, `SymbolOffset.dfy`, `Bytes.dfy` | fixed-width names, and file offsets of ELF symbols |

`dafny verify dfyconfig.toml` checks the whole project.

## How to read the results

A run is a sequence of actions; `Exec` gives the state it leads to, and `Reachable` says that some run from the
initial state leads there. Where an action is blocked in a state, no run contains it there. The theorems hold
for all runs, so for every interleaving and for any number of `Add` callers, runnables, server threads and CPUs.

Four things are not what the comments and names in the code suggest; the model follows the code.

* **`Add` during `StopAndWait`.** The comment on `Add` promises an error. Add returns it exactly when it reads
  `stopped` as true: once `stopped` is set, an `Add` returns the error if and only if it had not read `stopped`
  before (`GroupOverlap.ErrorIff`). That `StopAndWait` has been entered is not enough: an `Add` can still get past
  its check as long as `StopAndWait` has not asked for the lock `r.stop`, or if it holds that lock for reading when
  `stopped` is still unset, and in no other case (`GroupOverlap.AcceptPossibleIff`). An `Add`
  that got past it can be queued and return nil (`GroupRuns.AddDuringStopCanReturnNil`), return nil and have its
  runnable dropped (`GroupRuns.AddDuringStopCanBeDropped`), or panic by sending on the closed `r.ch`
  (`GroupRuns.AddDuringStopCanPanic`). `GroupOverlap.PanicPossibleIff` says exactly when a panic can still come,
  and `GroupSafety.OnlyALateAddPanics` that nothing else in a group ever panics.
* **`StopAndWait` and its context.** Its last comment says that an expired context ends it. It first calls
  `Start`, whose loop leaves only on an empty queue, so it ends only after the `Check` of every queued runnable
  has returned true: a `Check` that returned false and a `Check` that never returns both keep it, and `Start`,
  from ever returning (`GroupRuns.ExpiredStopCanBeLost`, `GroupRuns.ExpiredStopCanHang`), and the context that
  a `Check` is given is not cancelled before. `GroupProgress.StartCanFinishIff` and `StopCanFinishIff` show that
  those checks are all that is needed, and `GroupProgress.EndNeedsEveryCheck` that each of them is. For the
  shutdown this means that one cache that is never ready keeps the BPF programs from ever being cancelled
  (`ManagerProgress.StuckGroupBlocks`); `ManagerProgress.NilPossibleIff` says exactly when nil can still come.
* **The group of pumps.** The event pump is routed to the caches, so the group named after it stays empty and
  the pump is stopped first of all (`Manager.PumpStopsBeforePrograms`).
* **The record behind an event.** The pump pops the oldest record for any event. Without eviction the j-th event
  read finds the j-th push, whichever push it was output for (`EventQueue.WithoutEviction`). With events output
  and read in the order of the pushes, that is its own push if and only if no earlier event was lost
  (`EventQueue.MatchesIff`; with evictions, `EventQueue.NextMatchesIff`). When two threads push in one order and
  output in the other, an event finds the record of the other thread although nothing is lost or evicted
  (`EventQueue.OvertakingMismatches`).

## Model

| member | source | states |
|---|---|---|
| GroupInvariant.StepKeepsInv | internal/manager/runnable_group.go:73-246 | every atomic step of every goroutine of a group keeps one invariant that ties the locks, flags, channels, counter, queue and history to the program counters |
| GroupInvariant.StepMoves | internal/manager/runnable_group.go:95-132 | each step of any goroutine moves at most one runnable, from its Add, the queue or reconcile to the next place, and delivers it once |
| GroupInvariant.RemoveFromRemaining | internal/manager/runnable_group.go:146-153 | removing the runnable that signalled leaves the original queue without all that signalled, in order |
| GroupSafety.OnlyALateAddPanics | internal/manager/runnable_group.go:108-131 | no step panics but the send of a late Add after r.ch is closed: ready signals and queued runnables never meet a closed channel, wg.Add never follows wg.Wait, the counter never goes negative |
| GroupSafety.Conservation | internal/manager/runnable_group.go:73-213 | an accepted runnable is in exactly one place: pending in its Add, unsent in the queue, held by reconcile, launched or dropped; any other is in none |
| GroupSafety.LaunchedAtMostOnce | internal/manager/runnable_group.go:192-212 | no runnable is launched twice, or launched and dropped |
| GroupSafety.WaitGroupCounts | internal/manager/runnable_group.go:188-206 | the counter is the number of runnables admitted and not yet Done |
| GroupSafety.NoAdmissionOnceStopped | internal/manager/runnable_group.go:174-190 | once stopped is set no step raises the counter and stopped stays set |
| GroupSafety.QuiescentForever | internal/manager/runnable_group.go:217-245 | after StopAndWait leaves its select through done, no runner is live then or later and nothing is launched any more |
| GroupSafety.StopReturnsComplete | internal/manager/runnable_group.go:217-246 | every call of StopAndWait, first or later, returns only when the group is stopped and cancelled with its whole queue launched; through done only with no live runner, otherwise only with its context expired |
| GroupSafety.QueueIsRegistrationOrder | internal/manager/runnable_group.go:95-128 | before the sending loop the queue grows at its end only, by the Add that saw started false, and the loop starts from it |
| GroupSafety.QueuedFirst | internal/manager/runnable_group.go:126-132 | the launches begin with the whole queue in registration order, no queued runnable is dropped, and stopped implies that the body of Start is over and all of the queue launched |
| GroupSafety.StartReturnsComplete | internal/manager/runnable_group.go:112-163 | any call of Start returns only after every queued runnable was launched and its Check returned true; only the call that ran the body can fail, and only past its deadline |
| GroupTraces.StartFailsIff | internal/manager/runnable_group.go:142-162 | a call of Start returns an error if and only if it ran the body, its context passed its deadline and the select loop then took notice |
| GroupTraces.RunnableCourse | internal/manager/runnable_group.go:193-212 | in every run a runnable starts its check, returns, has its error received exactly once if it failed and never otherwise, and then calls Done; it has exited exactly when that is complete |
| GroupTraces.ErrorsAreDelivered | internal/manager/runnable_group.go:206-241 | when StopAndWait leaves through done every launched runnable has gone through all of it, so the error of each that failed has been received |
| GroupSafety.SignalShortensQueue | internal/manager/runnable_group.go:146-153 | each received signal shortens the queue by exactly one and leaves the initial queue without the acknowledged runnables, in order |
| GroupSafety.StartNeverWaitsInVain | internal/manager/runnable_group.go:126-132 | while Start sends with r.start held, it or reconcile has a step |
| GroupSafety.DropBlocksNoWriter | internal/manager/runnable_group.go:169-181 | when reconcile blocks on errChan holding r.stop for reading, no writer waits for that lock, then or later |
| GroupProgress.StartCanFinishIff | internal/manager/runnable_group.go:139-159 | whichever runnables never have their Check return true from now on, an entered Start can still return if and only if it waits for none of them and for no Check that returned false |
| GroupProgress.StopCanFinishIff | internal/manager/runnable_group.go:217-246 | the same for an entered StopAndWait, whatever its context does |
| GroupProgress.EndNeedsEveryCheck | internal/manager/runnable_group.go:146-157 | in every run that ends Start, or takes StopAndWait past its call of Start, each Check waited for at the beginning returns true |
| GroupProgress.OwedBlocks | internal/manager/runnable_group.go:195-199 | until such a Check returns true, Start and StopAndWait have not returned and the context of the group is not cancelled |
| GroupProgress.StopCanFinishThroughDone | internal/manager/runnable_group.go:232-244 | on that condition it can return through done unless it already left through the expired context |
| GroupRuns.ExpiredStopCanHang | internal/manager/runnable_group.go:222 | a concrete state with an expired StopAndWait that does not return in any run without the true return of the queued Check |
| GroupRuns.ExpiredStopCanBeLost | internal/manager/runnable_group.go:195-222 | a concrete run after whose false Check no continuation lets the expired StopAndWait return |
| GroupOverlap.ErrorIff | internal/manager/runnable_group.go:71-79 | once stopped is set, an Add that returns gives the error if and only if it had not read stopped before |
| GroupOverlap.AcceptPossibleIff | internal/manager/runnable_group.go:74-79 | an Add can still come to be accepted if and only if it was, or stopped is unset and it holds r.stop or StopAndWait has not asked for r.stop |
| GroupOverlap.LaterAddsAreRejected | internal/manager/runnable_group.go:74-79 | an Add that can no longer be accepted never returns nil or sends, and its runnable is never launched or dropped |
| GroupOverlap.PanicPossibleIff | internal/manager/runnable_group.go:74-108 | from any reachable state a panic is possible if and only if no queued Check has returned false and either StopAndWait has not asked for r.stop or some Add has read or is reading stopped as false and is not delivered |
| GroupRuns.AddDuringStopCanPanic | internal/manager/runnable_group.go:71-108 | a concrete run to a state from which the program panics |
| GroupRuns.AddDuringStopCanReturnNil | internal/manager/runnable_group.go:71-102 | a concrete run in which an Add called after StopAndWait was entered returns nil |
| GroupRuns.AddDuringStopCanBeDropped | internal/manager/runnable_group.go:108-180 | a concrete run in which an Add returns nil and its runnable is dropped |
| RunnableGroups.RunnableGroup.constructor | internal/manager/runnable_group.go:60-69 | a new group has the initial fields of the protocol |
| RunnableGroups.RegisterIsAtomic | internal/manager/runnable_group.go:94-105 | in any interleaving, between an Add locking and unlocking r.start, started does not change and the queue changes as Register changes it: its runnable alone is appended, exactly when the group was not started |
| RunnableGroups.RunnableGroup.SendQueue | internal/manager/runnable_group.go:126-132 | the sending loop sends the queue as it stands and marks its runnables |
| RunnableGroups.RunnableGroup.Take | internal/manager/runnable_group.go:147-153 | the search and splice loop removes the first occurrence of the runnable and nothing else |
| RunnableGroups.RunnableGroup.AwaitReady | internal/manager/runnable_group.go:139-159 | the select loop returns at the first signal that empties the queue; a done context only sets the error |
| RunnableGroups.AdmissionIsAtomic | internal/manager/runnable_group.go:174-206 | in any interleaving, while reconcile is in its block stopped does not change and the counter changes as AdmitOrDrop and the calls of Done meanwhile change it; it admits exactly when the group was not stopped |
| RunnableGroups.ReadersPinStopped | internal/manager/runnable_group.go:174-190 | no step changes stopped while r.stop is held for reading, so reconcile admits on a value that still holds |
| RunnableGroups.SendsMark | internal/manager/runnable_group.go:127-131 | after the sending loop exactly the queued runnables are marked as signalling, and nothing else but started has changed |
| RunnableGroups.SendsAreAtomic | internal/manager/runnable_group.go:126-132 | in any interleaving with reconcile and the others, the sending loop leaves started, queue and marks as SendQueue does |
| RunnableGroups.AnyArrivalOrder | internal/manager/runnable_group.go:140-157 | for every order of signals, with repetitions and expiries, what is left is the queue without the runnables that signalled, in order |
| RunnableGroups.LoopEndsIff | internal/manager/runnable_group.go:154-157 | the loop ends exactly when every queued runnable has signalled |
| RunnableGroups.LoopFollowsArrivals | internal/manager/runnable_group.go:139-159 | in any interleaving the select loop leaves of the queue what its arrivals leave, ends exactly when that is empty, and fails exactly on a deadline among them |
| Manager.ShutdownResult | internal/manager/task_manager.go:152-203 | shutdown returns nil exactly when its context was cancelled before the deadline, and then all three groups are quiescent |
| ManagerProgress.StuckGroupBlocks | internal/manager/task_manager.go:184-202 | while a group waits for a Check that failed or never returns true, shutdown never returns nil; if it is the caches, the BPF programs are never cancelled |
| ManagerProgress.NilPossibleIff | internal/manager/task_manager.go:184-202 | in a shutdown nil can still be returned if and only if the context is cancelled, or it is live and no group waits for such a Check |
| ManagerProgress.ErrorPossibleIff | internal/manager/task_manager.go:191-202 | in a shutdown the error can still be returned if and only if the context has not been cancelled |
| ManagerProgress.DeadlineFreesStopper | internal/manager/runnable_group.go:239-244 | once the deadline has passed, a StopAndWait in its select can come to its end without any step of a runner or check |
| Manager.CachesStartLast | internal/manager/task_manager.go:128-140 | outside a shutdown the informers start only after every queued BPF runner was launched and found ready |
| ManagerKinds.RunnersBeforeInformers | internal/manager/runnable.go:52-76 | by the tasks themselves: a BPF runner added before the starts is launched and found ready, in whichever group, before any informer or event pump is launched, outside a shutdown |
| ManagerKinds.InformersStopFirst | internal/manager/task_manager.go:184-188 | no BPF runner is cancelled before every informer and event pump is, and StopAndWait of their group is over |
| ManagerKinds.ReadyMeansStarted | internal/manager/task_manager.go:127-150 | the manager serves only when Start of every group returned nil to it; a shutdown begins only when none of its calls of Start is running |
| ManagerKinds.ServingIsReachable | internal/manager/task_manager.go:127-142 | there is a run at whose end the manager serves |
| ManagerKinds.ServingCanStop | internal/manager/task_manager.go:94-203 | from every state in which it serves there is a run to a shutdown that returns nil, whatever Checks still wait |
| Manager.PumpStopsBeforePrograms | internal/manager/runnable.go:52-76 | the event pump is routed to the caches, the group of pumps never launches anything, and StopAndWait of the pump's group is over before the BPF programs are cancelled |
| Manager.StepKeepsManagerInv | internal/manager/task_manager.go:94-203 | every step of the manager and of its groups keeps the order of starts and stops |
| EventQueue.Accounting | internal/task/pump/pump.go:47-79 | empty reads + events in the ring or held + pushes not signalled + lost events = evicted + queued records; stale prints are the empty reads and never exceed evictions |
| EventQueue.LossesAreReported | internal/task/pump/pump.go:61-64 | every lost event is reported to the reader once or still to be reported |
| EventQueue.ExitIsFinal | internal/task/pump/pump.go:47-80 | after the pump has exited it reads, pops and prints nothing, whatever is still pushed |
| EventQueue.EmptyPopIff | internal/task/pump/pump.go:72-76 | the next pop finds the queue empty if and only if evicted = empty reads + events in the ring + 1 + pushes not signalled + lost events |
| EventQueue.QueueOrder | mysqld_probe.c:94-99 | the queue is the suffix of the pushes not popped or evicted, never over 5120, and nothing is evicted before 5120 were popped or queued; fresh prints are pushes in increasing order; no event is printed for twice |
| EventQueue.PrintsArePushes | internal/task/pump/pump.go:30-77 | every print shows a pushed record, never the initial value of the variable: a stale print repeats the one before and comes after at least 5120 prints |
| EventQueue.WithoutEviction | internal/task/pump/pump.go:61-77 | without eviction every event read finds a record, the j-th the j-th push; at rest the prints lag by exactly the lost events |
| EventQueue.MatchesIff | mysqld_probe.c:251-253 | with events output and read in push order, the event of the j-th print is ahead of j by exactly the events lost before it; without eviction it finds its own push if and only if none was |
| EventQueue.NextMatchesIff | mysqld_probe.c:251-253 | with evictions, the next pop finds the record of its own event if and only if the earlier lost events equal the evictions not made up for by empty reads |
| EventQueue.LossMismatches | internal/task/pump/pump.go:61-77 | a concrete run with one lost event in which the record printed is not the one of the event |
| EventQueue.OvertakingMismatches | mysqld_probe.c:251-253 | a concrete run with nothing lost or evicted in which the same happens because two threads output in the other order |
| EventQueue.StepKeepsInv | mysqld_probe.c:251-253 | every push, signal, read and pop keeps accounting, order and faithfulness of the prints |
| Pump.EventPump.Start | internal/task/pump/pump.go:27-80 | offered any series of rounds, the loop takes them up to the first that ends it and none after it; it returns nil exactly when that is a done context, an error exactly when it is a closed reader or a failed pop, and leaves the channel as the events of the rounds taken do |
| Pump.EventPump.Turn | internal/task/pump/pump.go:55-77 | one round: a sample pops at most one record and prints once unless the pop fails, everything else prints nothing; what is returned for which round |
| Pump.PumpOutput | internal/task/pump/pump.go:72-77 | what a new pump has printed: pushed records only, without eviction the pushes in order, otherwise at most as many repetitions as evictions |
| Probe.MysqldProbe.Query | mysqld_probe.c:107-199 | filling the scratch field by field and copying it to the slot of the thread has the effect of the entry handler as specified |
| Probe.MysqldProbe.QueryReturn | mysqld_probe.c:201-256 | the return handler completes and pushes a pending slot once, evicting the oldest record of a full queue, and does nothing otherwise |
| Probe.WriteStrShows | headers/bpf_helper_defs.h:2757-2762 | an unpadded string copy shows the text cut to the field, whatever the field held |
| Probe.ScratchIndependence | mysqld_probe.c:127-196 | the displayed record depends on the entry and the return alone, not on the old scratch of the CPU |
| Pipeline.Provenance | mysqld_probe.c:206-251 | with threads told apart by their ids, every push carries the id of the thread that returned and reports the latest recorded entry of that thread and the THD it was called with, and its cost is the exact time in between |
| Pipeline.SlotProvenance | mysqld_probe.c:214-251 | without that assumption: it reports the latest entry recorded under the low word of the id |
| Pipeline.PushesAreSeparated | mysqld_probe.c:221-249 | between two pushes of a thread an entry of that very thread was recorded |
| Pipeline.FreshPrintsAreReports | internal/generate/types.go:45-70 | end to end: a fresh print with index i is push number i of the log, and so the report of a recorded entry and of the return that completed it, of one thread |
| Pipeline.PipelineAccounting | mysqld_probe.c:251-253 | the accounting of events and records over any interleaving of threads |
| Pipeline.EventReachesRingOrNot | mysqld_probe.c:253 | the event of a push can reach the ring or be lost, and counts as the one or the other |
| Pipeline.OneRecordPerCall | mysqld_probe.c:107-226 | under k-fold attachment and any interleaving with threads of other ids, a call of command 3 whose thread finds a slot at its entry pushes one record, as does one whose slot was pending at its start; any other pushes none |
| Pipeline.RoomIff | mysqld_probe.c:87-92 | a thread finds a slot exactly when it has been recorded before or fewer than 1024 threads ever have, since slots are never given back |
| Pipeline.UnregisteredIsSilent | mysqld_probe.c:111-117 | a thread of a process that is not in the cluster map records and pushes nothing, whatever it executes |
| Pipeline.StepKeepsPipelineInv | mysqld_probe.c:107-256 | every step of threads, registry, clock and pump keeps slots, log, queue and counters consistent |
| Registry.BpfRunner.AttachInstance | internal/task/bpf_runner/mysql/mysql.go:118-140 | the instance and its cluster are stored, or the instance alone when the map is full; an attach goroutine starts whenever the program is not marked attached |
| Registry.AttachDoes | internal/task/bpf_runner/mysql/mysql.go:118-134 | on any stores: the instance is registered under version, bar and container; the map gets its padded name and offsets under the low word of its pid if it has room, and changes nowhere else |
| Registry.DetachDoes | internal/task/bpf_runner/mysql/mysql.go:142-153 | on any stores: instance and cluster go together, or nothing changes |
| Registry.StoredNames | internal/task/bpf_runner/mysql/mysql.go:124-131 | in agreeing stores the kernel finds under the pid of every instance the offsets of its version and a name that reads as that of its cluster, up to 64 bytes or the first NUL |
| Registry.BpfRunner.DetachInstance | internal/task/bpf_runner/mysql/mysql.go:142-153 | instance and cluster are removed together, or nothing when the key is missing |
| Registry.BpfRunner.OnPodUpdate | internal/task/bpf_runner/mysql/mysql.go:198-249 | the loop registers the first ready, supported, unregistered container of a running managed pod and no other; one error for a failed lookup or a full map, one attach goroutine when the program is not attached |
| Registry.BpfRunner.OnPodDelete | internal/task/bpf_runner/mysql/mysql.go:251-278 | the loop detaches the first registered supported container and no other |
| Registry.AttachAgreesIff | internal/task/bpf_runner/mysql/mysql.go:118-134 | an attach keeps the two stores in agreement exactly when the map has room, the id leaves no old pid behind and no other instance shares the pid with another value |
| Registry.DetachAgreesIff | internal/task/bpf_runner/mysql/mysql.go:142-153 | on agreeing stores a detach finds its key and keeps agreement exactly when no other instance has that pid |
| Registry.RunsAgree | internal/task/bpf_runner/mysql/mysql.go:118-153 | over every run with fixed, distinct pids whose map updates succeed the stores agree after every operation |
| Registry.RunsAgreeIff | internal/task/bpf_runner/mysql/mysql.go:118-153 | with fixed, distinct pids the stores agree after every operation if and only if every attach found room in the map |
| Registry.SmallRunsWork | internal/task/bpf_runner/mysql/mysql.go:124-131 | every attach finds room in a run that names no more ids than the map has entries |
| Registry.MapFits | mysqld_probe.c:80-85 | the map never holds more than 1024 entries |
| Registry.EventsAgree | internal/task/bpf_runner/mysql/mysql.go:198-278 | over any sequence of update and delete events of any pods, with fixed, distinct pids and room for each attach, the stores agree |
| Registry.EventsAgreeIff | internal/task/bpf_runner/mysql/mysql.go:198-278 | with such pids the stores agree after every event if and only if each attach that an event leads to found room |
| Registry.EventsCarry | internal/task/bpf_runner/mysql/mysql.go:237-245 | after any events every instance carries the label and name of a pod of those events, the ids of one of its containers and the pid looked up for it |
| Registry.KeysArePids | internal/task/bpf_runner/mysql/mysql.go:124-131 | in agreement the keys of the cluster map are exactly the pids of the instances |
| Registry.UpdateRegistersOne | internal/task/bpf_runner/mysql/mysql.go:198-248 | an update of a running managed pod registers exactly its first eligible container, with the label and the name of the pod; it changes nothing when there is none or its pid is not found, or for another pod |
| Registry.UpdatesConverge | internal/task/bpf_runner/mysql/mysql.go:198-249 | n updates leave n fewer missing ids, down to a fixpoint with none |
| Registry.DeleteDetachesFirst | internal/task/bpf_runner/mysql/mysql.go:251-276 | a delete detaches exactly the first registered container of the pod, ready or not |
| Registry.DeleteUnregistersPodIff | internal/task/bpf_runner/mysql/mysql.go:254-277 | a delete unregisters the whole pod exactly when at most one of its ids was registered, ready or not |
| Registry.DeleteUndoesUpdate | internal/task/bpf_runner/mysql/mysql.go:198-278 | for a pod with one supported container a delete restores both stores |
| NameCodec.S264B | pkg/tool/tools.go:3-29 | the loops write the name cut to 64 bytes and zeros after it |
| NameCodec.B642S | pkg/tool/tools.go:31-40 | the loop returns the bytes before the first NUL |
| NameCodec.DecodeEncode | pkg/tool/tools.go:3-40 | decoding an encoded name gives its prefix up to 64 bytes or the first NUL |
| NameCodec.RoundTripIff | pkg/tool/tools.go:3-40 | a name survives exactly when it fits and holds no NUL |
| NameCodec.EncodeCollides | pkg/tool/tools.go:3-29 | which names share an encoding |
| NameCodec.EncodeDecodeIff | pkg/tool/tools.go:3-40 | a stored name is re-encoded to itself exactly when nothing follows its first NUL |
| SymbolOffset.GetOffsetBySymbol | pkg/tool/offset.go:10-68 | the nested loops return the offset of the first function symbol of that name, or the error of the first step that fails |
| SymbolOffset.FirstFunctionIsFirst | pkg/tool/offset.go:33-39 | the symbol used is the first function of that name; none exactly when there is no such function |
| SymbolOffset.GuardIsExactIff | pkg/tool/offset.go:51 | the containment test on wrapping integers is exact unless the end of the segment wraps and the address is not below its start |
| SymbolOffset.OffsetOfFirst | pkg/tool/offset.go:44-63 | without wrapping, the offset is that of the first segment holding the address, or the address itself when none does |
| SymbolOffset.OffsetMapsBack | pkg/tool/offset.go:51-58 | with disjoint segments the offset lies in the segment holding the address and maps back to it (Program Header, System V gABI) |

## Left out

- Kubernetes informers, the Docker and containerd clients, `/proc`, ELF parsing, uprobe attachment and the perf reader: library calls and I/O, modelled by their possible results.
- The bytes in user memory and the numeric THD offsets: an oracle. Nothing is claimed about their meaning, in particular about `cluster_name` and `query_len`.
- Probe.ScratchIndependence: here, in Pipeline.Provenance and in Pipeline.FreshPrintsAreReports a read of user memory always delivers its field; what a failing read leaves behind is not modelled.
- Pipeline.Provenance: no two threads of a run share the low word of their ids, as the kernel sees to for threads alive at the same time; Pipeline.SlotProvenance says what holds without that.
- Pipeline.OneRecordPerCall: the process stays registered during the call, and the entry firings come before the return firings; windows in which only one of the two probes is live are not covered.
- Pipeline.StepKeepsPipelineInv: a handler is atomic on its CPU, except that a push and the output of its event are separate steps.
- Registry.RunsAgree: an attach whose map update fails is modelled (the instance stays registered without its cluster), but not the send on `internalErrChan` after it, which the runner's own loop would have to receive.
- Registry.UpdatesConverge: each update is processed before the next, so the hand-over on the runner's channel and the unlocked reads of `Instances` by the pod handlers are not modelled.
- Registry.EventsAgree: each event is processed before the next, as there.
- `ParseImage` and `ParseContainerId`: a container status carries its parsed ids; only the string splitting is missing.
- RunnableGroups.RunnableGroup: the class has the blocks of Add, Start and reconcile that work on the queue, the flags and the counter; goroutines, locks, channels and StopAndWait are steps on values in `Group`, because they interleave.
- Manager.StepKeepsManagerInv: the manager is modelled on values for the same reason; its drain loop appears as the environment that receives errors, and the failure of creating the perf reader only as an early shutdown.
- The group of HTTP servers: it is created and never started, filled or stopped.
- `BpfRunner.Start`, `attach` and the `Attached` flag after an attach: the goroutines started are recorded; their lifetime is not modelled.
- Logging, printing formats, getters, builders and `main.go`: no state worth proving.
