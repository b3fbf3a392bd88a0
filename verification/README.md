# CLPKM, modelled and verified in Dafny

CLPKM makes OpenCL kernels preemptible. A source transformation inserts checkpoint and resume code into kernels, a host
callback re-launches an instrumented kernel slice by slice until it has finished, a bus daemon decides when low priority
work may run, and a separate tool inlines functions before all this. This project models these parts and proves what they
are for. Dafny checks everything with `dafny verify dfyconfig.toml`.

## What is modelled

**The transformation and the slice loop** (`Kernel`, `Structured`, `Liveness`, `LivePaths`, `Labels`, `Instrument`,
`TimerTests`, `Tracker`, `Visitor`, `Original`, `Sliced`, `Headers`, `Protocol`, `Simulation`, `Preservation`, `Rounds`,
`Preemption`, `Termination`, `Host`, `Callback`, `Prologue`, `Blocks`, `Straight`, `Lost`).

- A structured kernel language: declarations in nested blocks, assignments, loads, stores and atomics on local and global
  memory, `if`, `while`/`for`/`do`, `break`, `continue`, `return`, `barrier`. The control state of a work-item is a
  statement and a continuation, so what follows a resume label is a static object. `Structured` explains the same language
  by recursion over statements; `StructuredRun` shows that an item that runs alone ends with the data of that explanation
  and with no other. `PrimEffect` says the same of single memory accesses.
- `Instr` is the rewriting as a function. The class `Instrumentor` does it as the visitor does, updating the label
  counter, the barrier counter, the tracker of variables in scope and the requested size; it is proved equal to `Instr`.
- Clang's liveness analysis is an arbitrary function `claim` from labels to sets of variables; what is saved is what is
  claimed and tracked. The main results ask that it claims at least what is truly live at a label (`ClaimsLive`);
  `PreservedIfRestoring` asks this only of the labels at which items are resumed in the run at hand.
- `Blocks` is the analysis that the tracker asks: it counts assignments as uses, kills at declarations only, and answers
  for the end of the basic block that holds a statement, which for the body of a loop is the block of the loop's condition
  if the body has braces. `Lost` runs a kernel for which the answers are not enough, `Straight` treats kernels without
  timer tests, and runs that the timer does not interrupt.
- `Original` is the meaning of the source kernel: any interleaving of work-items, in which a barrier lets the items of a
  group pass only when all of them are there (section 6.12.8 of OpenCL 1.2). In every run all items of a group pass the
  same barriers in the same order (`SameBarriers`).
- What is live at a point of the text is computed as an equation in `Liveness`; `LivePaths` shows that this is exactly what
  some path of control reads before it is overwritten.
- `Sliced` is the instrumented kernel and the host loop, one atomic action at a time: both barriers of the stop protocol,
  both barriers of the exit protocol, the stop and exit counters, the strided copy by the last batch, the header values
  (0 finished, 1 not started, n resume at label n, -n blocked at barrier n) and the switch on them. The timer test is an
  arbitrary choice; `Preemption` says what follows from its answers. When a slice starts, private and local memory hold
  arbitrary leftovers and only saved values come back. The text in front of the switch is one step there; `Prologue` takes
  it apart, item by item, and shows that this is right. The launch itself goes through the switch, with all headers 1.
- **Assumption about the hardware**, explicit in `Sliced.CanRelease`: a barrier releases when every item of the group that
  has not left the kernel waits at some barrier, whichever textual barrier it is. The generated code relies on this.

The main results: `MeaningPreserved` (every finished sliced run leaves the global memory of some interleaving of the source),
`RelaunchExact` (the next slice stands for the source, whatever is left over in memory, if and only if the labels that are
resumed save what is live), `SlicedTerminates` and `GroupProgress` (if the source always ends and its barriers are uniform,
then so does every sliced run, and every slice shortens the work of every unfinished group), `RoundsAreTested` (an item that
repeats a loop has passed the loop's timer test, unless the loop never repeats or it jumped there with `continue`),
`TimerDecides`, `BarrierDecides` and `ExpiredSliceEnds` (an item stops at a timer test exactly if the timer has expired and
at a barrier exactly if its group is not complete there, and an expired timer ends the slice), and the other properties of
every reached state in `Rounds` and `Host`.

**Addresses, copies and search** (`Layout`, `Toolkit`, `PrivateBuffer`, `LocalBuffer`, `WorkGroup`): the layout of saved
values, the copies of private and local memory byte by byte, what the two buffers hold along every sliced run, linear ids,
the sizes the host computes, and the search for a work-group size.

**Priorities** (`TaskKind`, `Daemon`, `Agreement`, `HighPrio`, `Service`, `LowPrio`, `EndToEnd`): the bit tricks on
machine words, the daemon's counters, the bus between processes, the timers and the worker of high priority processes, the
guards that API functions hold, and the condition variables of low priority processes. Whatever happens while a mutex is
held is one step; all interleavings of these steps are covered. `EndToEnd` puts the processes, the bus and the daemon
together: what a worker has staged is what it sends, and what is signalled is what a low priority worker handles.

**In-order queues** (`InOrder`, `Reorder`) and **the inliner** (`Calls`, `Inlining`, `Inliner`). In `Calls` expressions may
call functions, and functions may store to memory; arguments must not call functions that store, variable names of caller
and callee must differ, and a block that replaces a call runs inside the variables of the function around it.

`Wrappers` and `Sums` are helpers.

What the proofs brought to light:

- `JoinBetweenAnnouncements`: `GetConfig` answers with a bitmap that may not have been announced yet. If the change is
  taken back before the daemon is idle, for instance because its process disconnects, nothing is announced and the
  process that joined keeps the wrong bitmap. `AgreementWhenQuiet` says exactly when it does not.
- `LostBehindBarrier`: a barrier does not end a basic block, so a variable that is read only in the rest of the barrier's
  block is not saved there. In the kernel `x = 0; do ; while (x); barrier(); out[id] = x;`, run with two items of which one
  stops at its timer test, both items store what they find in the register of `x`, while every run of the source stores 0.
- `AcceptedByBlock`: every label saves what is live after it if and only if nothing is read behind a barrier, in the same
  block, that the answer leaves out; loops are never at fault, because assignments count as uses (`KillingLoses` shows
  that they would be otherwise). Then the meaning is preserved. This condition is not necessary for that: a kernel without
  timer tests never resumes at a label and keeps its meaning whatever is saved (`PreservedWithoutTests`). What is exact is
  one relaunch, see `RelaunchExact`.
- `ContinueEscapes`: the timer test of a loop stands at the end of its body, and `continue` jumps over it. An item that
  keeps doing so is never preempted: in `while (1) { continue; }` it goes round for ever although the timer has expired.
  Without `continue` an expired timer ends the slice (`ExpiredSliceEnds`).
- `CountOverflows`: products of local sizes wrap around in the search for a work-group size, so that a choice far over the
  limit can win. `OptimalWhenCounted` says exactly when the choice is right.
- `NameClash`: inlining needs the unique names that the renaming pass provides; with equal names of parameter and argument
  the argument is lost.
- `PackingLosesZero`: the sign that tells a callback to release its event is lost for kind 0.

## Model

| member | source | states |
|---|---|---|
| Preservation.MeaningPreserved | cc/Instrumentor.cpp:321-350 | for every accepted kernel, timer, schedule and leftover memory contents, a finished sliced run leaves the global memory that some complete interleaving of the source kernel leaves |
| Preservation.PreservedIfRestoring | cc/Instrumentor.cpp:398-406 | the same whatever the liveness analysis answers, if every label at which some item is resumed in this run saves what is live there |
| Preservation.RelaunchExact | cc/Instrumentor.cpp:176-178 | in every state related to one of the source, the next slice stands for the source for all leftovers in private and local memory, if and only if every label that is resumed saves what is live after it |
| Preservation.Simulates | runtime/Callback.cpp:254-302 | every run of slices, finished or not, is a run of the source: each state reached is related to one the source reaches by the corresponding events |
| Preservation.CompileSound | cc/Instrumentor.cpp:352-359 | rewriting an accepted kernel gives unique labels from 2 on, one stop counter per barrier and labels that save all that is live after them, and taking out what was added gives the source back |
| Preservation.InstrCounts | cc/Instrumentor.cpp:287-307 | the stop counters the prologue declares are exactly as many as the visitor hands out |
| Preservation.FinishedMeansDone | runtime/Callback.cpp:260-273 | if all headers are 0, every item of the source has ended and the global memories are equal |
| Preservation.StartsFresh | cc/Instrumentor.cpp:342-344 | whatever is left over in private memory, the first slice starts every item at the beginning of the kernel body, with its arguments, its header 1 and full counters |
| Simulation.SimRun | cc/Instrumentor.cpp:400-406 | an action of an item in the kernel body is one source step or none, also when it parks at a timer test |
| Simulation.SimProtocol | cc/Instrumentor.cpp:163-179 | no action inside the stop and exit protocols is visible in the source |
| Simulation.SimRelease | cc/Instrumentor.cpp:163-179 | a barrier release either lets all items of a source group pass one barrier, which they may, or is not visible |
| Simulation.BlockedMayPass | runtime/Callback.cpp:112-118 | a group whose headers are all -n stands for source items that may all pass that barrier |
| Simulation.SimEnter | cc/Instrumentor.cpp:342-344 | entering a slice, with arbitrary leftovers in private and local memory, puts every item at the continuation of its label with what it needs |
| Simulation.SiteAt | cc/Instrumentor.cpp:176-178 | a resume label that can be found is at least 2 and leads to a place in the text; behind a timer test that is the end of a loop body, behind a barrier it has a stop counter |
| Simulation.SameGate | cc/Instrumentor.cpp:157-161 | a stop counter, a barrier and a label identify each other |
| Liveness.StepAgree | cc/Instrumentor.cpp:398-406 | why a label need only restore live variables: items that agree on the live variables take the same step and still agree on what is live afterwards |
| Liveness.LoopEquation | cc/LiveVarTracker.cpp:27-29 | liveness at a loop head, computed with one pass over the body, is a fixed point |
| Liveness.MoveLive | cc/LiveVarTracker.cpp:27-29 | what is live after a control move, taken or not, was live before it |
| LivePaths.LiveIffNeeded | cc/LiveVarTracker.cpp:27-29 | a variable is live at a point if and only if some path of control from there reads it before it is overwritten |
| Kernel.ConstEvalSound | cc/Instrumentor.cpp:382-391 | a condition that is evaluated at compile time has that value in every environment |
| Kernel.ConstEvalWhen | cc/Instrumentor.cpp:382-391 | a condition is evaluated at compile time exactly if it mentions neither a variable nor the item's id |
| TimerTests.InstrTests | cc/Instrumentor.cpp:377-420 | each loop of the emitted text either has a condition that is 0 for every item and environment, or has a timer test with a label at the end of its body |
| TimerTests.NeverRepeatsMeans | cc/Instrumentor.cpp:385-391 | a condition is taken for one that never repeats exactly if it has no variables and ids and is 0 |
| TimerTests.RoundsAreTested | cc/Instrumentor.cpp:398-416 | over whole runs: an item that goes on to another round from the end of a loop's body has passed the test there, or was resumed behind it, unless the condition is 0 for every item and environment |
| Labels.FindPlaced | cc/Instrumentor.cpp:342-344 | the continuation that a resume label leads to consists of code of this kernel in its place |
| Labels.MovePlaced | cc/Instrumentor.cpp:398-416 | control always stays at places of the kernel text whose labels are unambiguous |
| Labels.EraseMoves | cc/Instrumentor.cpp:400-416 | without the emitted constructs a control move is the source's control move |
| Labels.EraseLive | cc/Instrumentor.cpp:398-416 | the emitted constructs do not change what is live |
| Instrument.InstrErases | cc/Instrumentor.cpp:377-420 | taking out what the rewriting adds gives the source statement back |
| Instrument.InstrLabels | cc/Instrumentor.cpp:398-406 | each label is used once, above all labels given out before, and tests stand at the end of loop bodies |
| Instrument.InstrMarks | cc/Instrumentor.cpp:157-161 | barriers, stop counters and resume labels correspond one to one |
| Instrument.InstrNumbers | cc/Instrumentor.cpp:157-161 | labels and stop counters are numbered without gaps: those of a statement are exactly the next ones |
| Instrument.InstrTracks | cc/Instrumentor.cpp:71-79 | a statement only adds to the tracker at the current scope, and traversing a block leaves the tracker exactly as it was |
| Instrument.InScopeIsTracked | cc/Instrumentor.cpp:110-135 | every variable in scope is tracked |
| Instrument.LiveInScope | cc/LiveVarTracker.hpp:76-81 | nothing outside the scope is ever live, so restricting the liveness answer to tracked variables loses nothing |
| Instrument.InstrSaves | cc/Instrumentor.cpp:398-406 | every label saves all variables that are live after it |
| Instrument.InstrSavesScope | cc/Instrumentor.cpp:398-406 | every label saves exactly the variables in scope that are claimed live for it, the label of a loop those in scope around its body |
| Visitor.Instrumentor.TraverseFunctionDecl | cc/Instrumentor.cpp:226-375 | a kernel with parameters becomes the very program of the execution results, the tracker is left empty, and the request serves every label and is a multiple of 4; one without is skipped |
| Blocks.AcceptedByBlock | cc/LiveVarTracker.cpp:50-62 | with the answers by block every label saves what is live after it, and the kernel is accepted, if and only if nothing is read behind a barrier, in its block, that the answer leaves out |
| Blocks.PreservedByBlock | cc/LiveVarTracker.cpp:50-62 | if nothing is, every finished sliced run leaves the memory of a source interleaving |
| Blocks.LoopSites | cc/Instrumentor.cpp:398-398 | at every timer test the answer for the block of the loop body, which is that of the loop's condition if the body has braces, covers what is live |
| Blocks.LiveBackwards | cc/LiveVarTracker.cpp:27-28 | without kills at assignments, what is live where a statement leads to is live before it, apart from what it declares |
| Blocks.LiveIsMentioned | cc/LiveVarTracker.cpp:27-28 | an analysis that does not kill at assignments finds everything that is live |
| Blocks.KillingLoses | cc/LiveVarTracker.cpp:27-28 | why it must not kill: with kills, the answer for `do { x = 0; } while (x);` leaves out x, which the condition reads |
| Blocks.LiveIsRest | cc/LiveVarTracker.cpp:50-62 | what is live at a point is what the rest of its block reads plus what is live at the end and not set before |
| Lost.LostBehindBarrier | cc/Instrumentor.cpp:160-178 | a kernel with answers by block, and a finished sliced run of it that stores the argument found in x, where every complete run of the source stores 0 |
| Lost.SourceLeavesZeros | cc/Instrumentor.cpp:160-178 | every complete source interleaving of that kernel stores 0 for both items |
| Straight.PreservedWithoutTests | cc/Instrumentor.cpp:170-174 | a kernel whose loops never repeat keeps its meaning whatever the liveness analysis answers |
| Straight.NothingResumed | cc/Instrumentor.cpp:163-178 | without timer tests, or if no timer expires, no label is ever resumed: an item stops at a barrier only if another one of its group is elsewhere for good |
| Straight.UninterruptedIsDone | cc/Instrumentor.cpp:163-179 | with uniform barriers a run in which no timer expires is done in its first slice: when all have left, all headers are 0 |
| Prologue.EntersAsOne | cc/Instrumentor.cpp:302-341 | however the items of a group interleave in front of the switch, whoever is past the barrier finds all counters initialised and local memory loaded, as in the one step of the sliced semantics |
| Prologue.AllEnter | cc/Instrumentor.cpp:319-321 | until all items have taken the switch, one of them can act or the barrier releases |
| Prologue.SwitchIsPrivate | cc/Instrumentor.cpp:342-344 | an item that takes the switch late is not noticed by the others |
| Prologue.TakesTheSwitch | cc/Instrumentor.cpp:342-344 | header 1 leads to the beginning of the kernel body, a resume label to what follows it with the saved values back, any other header out of the kernel |
| Prologue.FirstEntry | cc/Instrumentor.cpp:302-344 | a fresh launch, with the prologue taken item by item, ends where the source group starts, with the invariant of the protocols |
| Visitor.Instrumentor.Traverse | cc/Instrumentor.cpp:63-135 | the visitor returns the statement and leaves the counters and the tracker that the rewriting function says, and the requested private size is raised to serve every label |
| Visitor.Instrumentor.TraverseCompound | cc/Instrumentor.cpp:71-79 | a block is traversed in a scope of its own, which is undone |
| Visitor.Instrumentor.TraverseLoop | cc/Instrumentor.cpp:187-224 | a loop is patched after its body was traversed |
| Visitor.Instrumentor.PatchLoopBody | cc/Instrumentor.cpp:377-420 | a body gets a timer test with a fresh label at its end, unless the loop never repeats |
| Visitor.Instrumentor.VisitBarrier | cc/Instrumentor.cpp:137-185 | a barrier gets the next stop counter and a fresh label |
| Visitor.Instrumentor.TakeLabel | cc/Instrumentor.cpp:160-161 | a fresh label saves the tracked variables that are claimed live, and the request grows to their padded total size |
| Visitor.RequestCovers | cc/Instrumentor.cpp:483-487 | the request for private space is large enough at every label of a kernel |
| Tracker.LiveVarTracker.AddTrack | cc/LiveVarTracker.hpp:109-109 | a variable is inserted at the current scope unless it is there already, keeping the order |
| Tracker.LiveVarTracker.PopScope | cc/LiveVarTracker.cpp:64-77 | exactly the variables of the current scope or deeper are erased |
| Tracker.LiveVarTracker.LiveAfter | cc/LiveVarTracker.hpp:76-81 | iteration meets exactly the tracked live variables, in order of descending alignment |
| Tracker.Inserted | cc/LiveVarTracker.hpp:20-30 | inserting where the order says keeps the sorted map a sorted map |
| Protocol.ProtocolKeeps | cc/Instrumentor.cpp:573-580 | every action inside the stop and exit protocols keeps the meaning of the counters and of the ids handed out |
| Protocol.RunKeeps | cc/Instrumentor.cpp:163-165 | so does every action in the kernel body |
| Protocol.ReleaseKeeps | cc/Instrumentor.cpp:163-179 | so does every barrier release, which moves the whole group to the next mode of the protocols |
| Protocol.NoneRemains | cc/Instrumentor.cpp:165-170 | an item reads zero only if every item of the group has decremented this very counter |
| Protocol.SavedAtEnd | cc/Instrumentor.cpp:573-580 | when the whole group has left, the buffer holds its local memory |
| Protocol.LastRound | cc/Instrumentor.cpp:573-580 | in the round in which the exit counter reaches zero all have left the others behind, and its items hold the ids 0 to batch-1, each once |
| Protocol.ZeroMeansLeft | cc/Instrumentor.cpp:573-580 | at zero nobody is left who could begin another round, and when all are gone the counter is zero |
| Protocol.FrozenOnceLeaving | cc/Instrumentor.cpp:573-580 | once an item is past the first exit barrier, local memory does not change until the slice ends, and that is what is saved |
| Rounds.NobodyPassesAlone | cc/Instrumentor.cpp:163-179 | in every state reached, an item released from a source barrier leaves it together with its whole group |
| Rounds.LocalMemorySurvives | cc/Instrumentor.cpp:582-587 | every slice after the first starts with the local memory that the previous one ended with |
| Rounds.LastBatch | cc/Instrumentor.cpp:573-580 | in every state reached in which the exit counter is zero and an item waits at the second exit barrier, the ids of the round are a permutation of 0 to batch-1 |
| Rounds.OneLastRound | cc/Instrumentor.cpp:573-580 | in every slice: once the exit counter is zero no item takes part in another round before the next launch, and a group that is gone has brought it to zero |
| Rounds.OnlyLastBatchStores | cc/Instrumentor.cpp:573-580 | in every run, whatever changes a group's part of the buffer for local memory is an item's action in the round in which the exit counter is zero and all have left the others behind |
| Rounds.FrozenWhileLeaving | cc/Instrumentor.cpp:573-580 | from the first exit round of a slice on no item is in source code, and the group's saved local memory is the one it ends with |
| Rounds.BarrierDecides | cc/Instrumentor.cpp:163-179 | in every state reached, an item that is past the stop protocol of a barrier goes on to this barrier exactly if its whole group has come there; else it leaves with header -n and the values its label saves |
| Preemption.TimerDecides | cc/Instrumentor.cpp:402-406 | in every state reached, whatever its header was, an item at a timer test leaves with header n and the values its label saves if the timer has expired, and stays in the body otherwise |
| Preemption.ExpiredSliceEnds | cc/Instrumentor.cpp:400-406 | once the timer has expired for good, in a kernel without `continue`, every item takes at most as many steps in the kernel body as the text has, and the slice goes on until all have left |
| Preemption.ContinueEscapes | cc/Instrumentor.cpp:408-416 | a kernel in which an item jumps over the test with `continue`, and runs of it of any length in which the timer has expired at every step and the slice does not end |
| Original.SameBarriers | cc/Instrumentor.cpp:178-179 | what the rewriting has to keep: in every run of the source the items of a group pass the same barriers in the same order, none ahead of another |
| Termination.SlicedTerminates | runtime/Callback.cpp:260-302 | if the source always ends within a bound and its barriers are uniform, the number of launches is at most the bound plus one, the length of a run is bounded, and an unfinished run can always go on |
| Termination.GroupProgress | runtime/Callback.cpp:112-118 | for each group, launches with work left are at most one more than the source events of that group |
| Termination.LaunchFreshens | cc/Instrumentor.cpp:405-406 | every launch lets some item of each unfinished group run on from behind a timer test or past a barrier |
| Termination.EventLowers | cc/Instrumentor.cpp:163-179 | an event without a source event of its own brings the slice nearer to its end |
| Termination.NeverStuck | cc/Instrumentor.cpp:573-580 | with uniform barriers an unfinished execution always has a next event |
| Termination.MeetingIsAKernel | cc/Instrumentor.cpp:163-179 | the hypotheses of the termination results can be met: two items that meet at a barrier are an accepted kernel with uniform barriers that always ends |
| Termination.NoClash | runtime/Callback.cpp:107-109 | with uniform barriers no two headers of a group name different barriers |
| Headers.UpdateHeader | runtime/Callback.cpp:67-132 | the in-place pass negates exactly the groups blocked as a whole, returns 0, -1 or 1 as promised, and aborts exactly on a partial group or a clash |
| Callback.CallbackData.ResumeOrFinish | runtime/Callback.cpp:254-302 | the launch completes exactly if all headers are 0; else the next slice starts, and the device has the host's headers although they are written back only after -1 |
| Callback.CallbackData.constructor | runtime/Interface.cpp:568-582 | a launch starts with header 1 for every item, on host and device alike |
| Callback.BlockedIsUnfinished | runtime/Callback.cpp:100-118 | a table with a blocked group is never taken for a finished one |
| Headers.Inspect | runtime/Callback.cpp:89-111 | one group is found unfinished, clashing or blocked as a whole exactly if it is |
| Headers.JudgedByItem | runtime/Callback.cpp:67-132 | item by item: the host aborts exactly if the table is not made of whole groups or two items of a group have different negative headers; else the launch is complete exactly if all headers are 0, and exactly the headers of groups that wait as a whole are negated |
| Headers.UnchangedUnlessBlocked | runtime/Callback.cpp:283-300 | unless -1 is returned nothing has changed, so device and host agree although nothing is written back |
| Headers.FlatSummary | runtime/Callback.cpp:81-83 | the pass over the flat table does to each group what it would do to that group alone |
| Host.HostDecides | runtime/Callback.cpp:254-302 | the result of the pass decides correctly between finished and another slice |
| Host.HostRewrites | runtime/Callback.cpp:283-302 | the next slice starts from the rewritten table |
| Host.SanityCheckHolds | runtime/Callback.cpp:101-110 | with uniform barriers the different-barrier assertion never fires at the end of a slice, and no header is 1 any more |
| Layout.GenerateCovfefe | cc/Instrumentor.cpp:425-491 | variables are stored one behind the other with the width their alignment allows, and the request is the padded maximum |
| Layout.LayoutFits | cc/Instrumentor.cpp:431-487 | every saved variable is aligned to its copy width, inside the request, and apart from all others |
| Layout.NothingBetween | cc/Instrumentor.cpp:458-466 | each variable starts where the one before it ends |
| Layout.AddressAligned | cc/Instrumentor.cpp:334-334 | the address an item accesses is aligned to the copy width, because the request is a multiple of 4 |
| Layout.Width | cc/Instrumentor.cpp:446-456 | the copy width is the largest of 1, 2 and 4 that the alignment allows |
| Layout.SaveThenLoad | cc/Instrumentor.cpp:458-466 | loading after storing everything gives each variable's bytes back |
| Layout.SaveStaysInside | cc/Instrumentor.cpp:334-334 | storing changes nothing outside the item's part of the buffer |
| Layout.SlicesApart | runtime/Interface.cpp:517-518 | the parts of different items or groups do not overlap and stay inside the buffer the host allocates |
| PrivateBuffer.HeldInEveryRun | cc/Instrumentor.cpp:446-487 | in every state of every sliced run the buffer holds, at the offsets of the layout, the bytes of the values that each item saved at its label |
| PrivateBuffer.LoadsWhatEnters | cc/Instrumentor.cpp:342-344 | the loads at the label at which an item is resumed find the bytes of the values the item gets |
| PrivateBuffer.EventHolds | cc/Instrumentor.cpp:458-466 | parking one item stores its variables and leaves what the other items saved alone |
| LocalBuffer.LocalBytesSaved | cc/Instrumentor.cpp:573-587 | when a group is gone, in any run, its part of the buffer holds the bytes of all its local variables, which the next slice reloads |
| LocalBuffer.StoreFits | cc/Instrumentor.cpp:520-521 | while the last batch leaves, each exit id's share of every variable is stored or its holder has yet to store it |
| Layout.StorePrivate | toolkit.cl:24-33 | a copy by words writes exactly the variable's bytes at its offset |
| Layout.LoadPrivate | toolkit.cl:11-23 | and the reverse copy reads exactly these bytes |
| Layout.GenerateLocfefe | cc/Instrumentor.cpp:510-537 | static local variables get padded consecutive regions |
| Layout.LocalRegions | runtime/Interface.cpp:510-518 | static and dynamic local regions of a group are apart, word-aligned and fill what the host allocates per group |
| Layout.RegionsAligned | cc/Instrumentor.cpp:335-336 | in the buffer of the grid every local region starts on a word boundary |
| Toolkit.GetLinearId | toolkit.cl:106-121 | the loop over dimensions computes the mixed-radix value of both ids and the group size |
| Toolkit.CoordsOfLinear | toolkit.cl:112-116 | the coordinates can be read back from a linear id |
| Toolkit.LinearOfCoords | toolkit.cl:112-116 | every number below the product of the sizes is the id of its coordinates |
| Toolkit.StepIn | toolkit.cl:112-116 | dimension 0 varies fastest: one step in a dimension goes past all items of the lower ones |
| Toolkit.GroupChunk | toolkit.cl:117-117 | group g has exactly the global ids from g*W up to (g+1)*W |
| Toolkit.GlobalIdInjective | toolkit.cl:117-117 | different items have different ids |
| Toolkit.GlobalIdSurjective | toolkit.cl:117-117 | every header belongs to an item |
| Toolkit.GridSizes | runtime/Interface.cpp:488-506 | the host accepts exactly divisible sizes and computes the numbers of items and groups and the size of a group |
| Toolkit.ProdSplits | runtime/Interface.cpp:499-506 | items are groups times group size |
| Toolkit.StoreLocal | toolkit.cl:75-101 | one item of the batch copies every batch-th word, and the tail of one to three bytes if it is its turn, and writes each of these bytes once |
| Toolkit.BatchStoresAll | cc/Instrumentor.cpp:573-580 | after all items of a batch, in any order, the buffer holds the source and nothing outside has changed |
| Toolkit.EachByteOnce | cc/Instrumentor.cpp:573-580 | if each exit id is taken once, each byte is written once |
| WorkGroup.FactorsOf | runtime/Support.cpp:60-71 | the list holds exactly the divisors within the device limit |
| WorkGroup.NextTry | runtime/Support.cpp:78-86 | the odometer goes to the next combination in mixed-radix order, and stops only after the last |
| WorkGroup.FindWorkGroupSize | runtime/Support.cpp:34-115 | the result divides the work, respects the limits, and has the largest size below the thread limit in machine arithmetic; it has the largest true product if and only if that can be counted in 64 bits |
| WorkGroup.OptimalWhenCounted | runtime/Support.cpp:90-97 | a choice that is best with products that wrap around is best if and only if its own product does not |
| WorkGroup.CountOverflows | runtime/Support.cpp:90-97 | work sizes for which the choice is wrong |
| WorkGroup.CapsSuffice | runtime/Support.cpp:90-96 | it is enough that the product of the work sizes or that of the device limits is below 2^64 |
| TaskKind.SignSpread | daemon/TaskKind.hpp:52-56 | the sign trick gives all ones exactly if the number is not zero |
| TaskKind.AssignExact | daemon/TaskKind.hpp:59-65 | the xor trick sets or clears exactly the masked bits |
| TaskKind.AssignBits | daemon/TaskKind.hpp:59-65 | the masked bits become 1 if the count is not zero and 0 otherwise, all others stay |
| TaskKind.SameKinds | daemon/Main.cpp:149-161 | a word without bits outside the mask is determined by its kinds |
| TaskKind.WordOf | daemon/TaskKind.hpp:28-33 | there are two kinds, bit 0 and bit 1, and every set of them has its valid word |
| TaskKind.UpdateGlobalBitmap | daemon/TaskKind.hpp:68-87 | the count changes by the difference of the two bits, modulo the word, and the global bit is 1 exactly if the count is not zero |
| TaskKind.AssignKind | runtime/ScheduleService.cpp:299-299 | assigning the bit of a kind adds the kind to the bitmap or takes it away |
| TaskKind.FlipKind | runtime/ScheduleService.cpp:374-375 | reverting a cleared bit adds its kind |
| TaskKind.Cleared | runtime/ScheduleService.cpp:348-349 | the mask trick finds exactly the kinds that went from 1 to 0 |
| Daemon.Scheduler.UpdateProcBitmap | daemon/Main.cpp:110-127 | the entry is replaced; every count stays the number of processes with that bit and the global bitmap follows |
| Daemon.Scheduler.SetHighPrioTaskBitmap | daemon/Main.cpp:130-166 | a bitmap with unknown bits is refused and changes nothing, any other becomes the sender's |
| Daemon.Scheduler.NameOwnerChangeWatcher | daemon/Main.cpp:179-216 | a process that left is forgotten and no longer counted |
| Daemon.Scheduler.GetConfig | daemon/Main.cpp:88-107 | the answer is the bitmap of the kinds with a holder |
| Daemon.Scheduler.Announce | daemon/Main.cpp:346-369 | a signal is sent exactly if the bitmap differs from the one announced last |
| Daemon.GlobalIsUnion | daemon/Main.cpp:70-77 | with fewer processes than a word can count, the global bitmap is the bitwise or of all bitmaps |
| Daemon.RecountedCounts | daemon/Main.cpp:119-123 | adding and subtracting one process keeps each count the number of holders modulo the word |
| Agreement.AgreementWhenQuiet | daemon/Main.cpp:346-361 | when all messages are handled, the daemon has what the connected processes last set, and a low priority process agrees if and only if it was signalled since it subscribed or was answered with the announced bitmap |
| Agreement.JoinBetweenAnnouncements | daemon/Main.cpp:102-105 | the other case happens: a run, with one request of each process at a time, after which a low priority process waits for a bit that nobody holds |
| Agreement.RunKeeps | runtime/ScheduleService.cpp:196-231 | in every run what is queued for the daemon leads to the true table, and the last signal queued for a process is the last announced |
| Agreement.WorldFollows | daemon/Main.cpp:130-166 | what a process runs changes only when it sets kinds that exist or its name is lost |
| HighPrio.NoUpdateIsLost | runtime/ScheduleService.cpp:345-382 | in every state of every run a bit is 1 exactly while its count is not zero, and a change not yet staged has a timer armed or expired and unread |
| HighPrio.GraceIsKept | runtime/ScheduleService.cpp:301-308 | a bit is withdrawn only after its count has been zero without a break for the whole grace period |
| HighPrio.TimerMeasures | runtime/ScheduleService.cpp:298-308 | while a count is zero its timer, if set, expires one grace period after the count became zero and has stayed so |
| HighPrio.Settles | runtime/ScheduleService.cpp:356-376 | once all timers have expired, the next pass of the worker stages every change |
| HighPrio.DeadlinesAreNear | runtime/ScheduleService.cpp:275-281 | no timer is ever set further than the grace period |
| HighPrio.StartIsPrompt | runtime/ScheduleService.cpp:273-281 | in every run, a kind that has a task and is not staged has its timer set to at most one nanosecond after the state in which its count became non-zero for good |
| HighPrio.StartIsTold | runtime/ScheduleService.cpp:345-382 | once that nanosecond is over, a worker in ppoll wakes up, and its pass stages the bit and goes on to call the daemon |
| HighPrio.PassStages | runtime/ScheduleService.cpp:345-382 | every pass stages all kinds that have a task, and calls the daemon exactly if something changed |
| Service.ScheduleService.SchedStart | runtime/ScheduleService.cpp:270-281 | starting a task is the corresponding step of the machine |
| Service.ScheduleService.SchedEnd | runtime/ScheduleService.cpp:292-308 | ending a task is the corresponding step, without underflow |
| Service.ScheduleService.StageChanges | runtime/ScheduleService.cpp:347-376 | the loop over the kinds stages each kind as the machine says |
| Service.ScheduleService.WorkerPass | runtime/ScheduleService.cpp:345-382 | a pass of the worker is the corresponding step |
| Service.ChangedBitmap | runtime/ScheduleService.cpp:378-379 | comparing bitmaps finds out whether anything changed |
| Service.Clients.Schedule | runtime/ScheduleService.hpp:50-51 | a new guard adds one unit to the count of its kind, which stays the number of guards plus bound events |
| Service.Clients.Move | runtime/ScheduleService.hpp:37-38 | moving a guard changes no count |
| Service.Clients.Destroy | runtime/ScheduleService.hpp:40-43 | a guard that still holds a kind gives its unit back |
| Service.Clients.BindToEvent | runtime/ScheduleService.cpp:73-89 | the unit of a guard goes over to the event, or stays if there is no event; a callback for no kind is left if and only if the guard held none |
| Service.Clients.SchedEndOnEventCallback | runtime/ScheduleService.cpp:91-100 | a completed event gives its unit back, to the kind that was bound |
| Service.PackingLosesZero | runtime/ScheduleService.cpp:79-99 | the kind survives the packing into one number; whether to release survives if and only if it is not wanted or the kind is not 0 |
| LowPrio.NoWakeUpIsLost | runtime/ScheduleService.cpp:452-465 | whenever the mutex is free the worker's old bitmap is the current one, and a sleeper on a kind whose bit is 0 still has its notification coming |
| LowPrio.SleepersWaitForABit | runtime/ScheduleService.cpp:259-265 | when the worker is back in ppoll every sleeper's bit is 1 |
| LowPrio.NotificationComes | runtime/ScheduleService.cpp:460-465 | no thread can delay a pending notification, and each step of the worker brings it nearer until nobody of that kind sleeps |
| LowPrio.ClearMeansRunnable | runtime/ScheduleService.cpp:261-263 | in every run, when the worker is back in ppoll, a thread whose bit is 0 runs or will run as soon as it gets the mutex |
| EndToEnd.BitmapsTellTheTruth | runtime/ScheduleService.cpp:388-395 | at rest, after any run of all processes, the bus and the daemon, the bitmap of a low priority process is 1 exactly for the kinds of which some high priority process has a task, if and only if the process was signalled or answered up to date |
| EndToEnd.SleepersWaitForWork | runtime/ScheduleService.cpp:259-265 | then every thread that sleeps waits for a kind of which some high priority process has a task |
| EndToEnd.FreeKindsRun | runtime/ScheduleService.cpp:259-265 | and every other thread runs, or does so as soon as it gets the mutex, which is free |
| EndToEnd.BusyKindsWait | runtime/ScheduleService.cpp:259-265 | and a thread that asks for a busy kind is put to sleep |
| EndToEnd.StepKeeps | runtime/ScheduleService.cpp:381-415 | every step of any process keeps: the bitmap that a process last set is what its worker has told the daemon or is telling it, and what a low priority process works with is what it was sent |
| EndToEnd.GoesOn | runtime/ScheduleService.cpp:335-415 | until it is at rest the system finds something to do by itself |
| InOrder.InOrderExecution | runtime/Support.cpp:130-171 | on a queue created in-order no command starts before every command issued earlier is complete, and a launch is complete only when its last slice has left all headers 0 |
| InOrder.WaitingForALaunch | runtime/Interface.cpp:616-644 | whatever waits for a launch, like the marker whose event the user gets, starts only after its headers are all 0 |
| InOrder.ReferencesAreOwned | runtime/Support.cpp:147-169 | the reference count of an event is the user's handles, plus one for the blocker, plus one for an unfinished launch, and the blocker is alive |
| InOrder.OnlyNecessaryWaits | runtime/Support.cpp:140-142 | in every run each command waits exactly for what the user named and, on an in-order queue, the command before it |
| InOrder.NamedComeFirst | runtime/Support.cpp:140-170 | in every run through a call, a command starts only after all that the user named for it is complete, and the user owns one reference to its event if one was wanted |
| InOrder.UserWaitsForLaunch | runtime/Interface.cpp:616-644 | in every run through a launch, which starts with all headers 1, the event given to the user neither starts nor completes before a slice has left all headers 0, and the launch not before all that the user named is complete |
| Reorder.QueueInfo.ReorderCore | runtime/Support.cpp:130-171 | with or without a user event, and also when the call fails, the queue and all reference counts are as specified |
| Reorder.QueueInfo.EnqueueKernel | runtime/Interface.cpp:585-651 | so are they after a launch, whose user event becomes the blocker of an in-order queue and whose marker the user gets |
| Reorder.QueueInfo.ResumeOrFinish | runtime/Callback.cpp:254-302 | the end of a slice completes the launch and gives up one reference exactly if all headers are 0 |
| Inlining.InliningPreservesMeaning | inliner/Main.cpp:324-385 | after inlining every function gives the same value and memory for the same arguments, or ends neither before nor after |
| Inlining.NameClash | inliner/Main.cpp:353-367 | a program with a parameter named like an argument, whose value changes |
| Inlining.PreserveBinding | inliner/Main.cpp:353-367 | declaring parameters from the last to the first, each in scope of its own initialiser, gives each the value of its argument |
| Inlining.BlockEntry | inliner/Main.cpp:369-380 | a block started in the variables of its caller sees its own variables as a call does |
| Inlining.QuietE | inliner/Main.cpp:353-367 | arguments that call only functions without stores have no effect, so their order does not matter |
| Inliner.InlinerAction.ExecuteAction | inliner/Main.cpp:155-170 | inlining ends, and succeeds exactly if no functions with bodies call each other in a circle; then every body is fully inlined and calls no function with a body, else a circle is reported |
| Inliner.InlinerAction.PerformInline | inliner/Main.cpp:261-393 | one function is finished with all it calls, or a circle of calls is returned |
| Inliner.InlinerAction.GenCodeSnippet | inliner/Main.cpp:212-259 | a called function is finished before its text becomes a snippet |
| Inliner.InlinerAction.ReplaceText | inliner/Main.cpp:329-389 | the text of a function whose callees have snippets is inlined once and for all |
| Inliner.RankedMeansAcyclic | inliner/Main.cpp:272-296 | if all functions could be finished there is no circle |
| Inliner.ChainCloses | inliner/Main.cpp:272-296 | the reported part of the call chain is a circle |
| Inliner.NothingLeft | inliner/Main.cpp:307-389 | in a finished program no body calls a function with a body |
| Inliner.SameText | inliner/Main.cpp:215-216 | a snippet taken once stays right when more functions are finished |

## Left out

- Clang's syntax tree, control-flow graph and rewriter, macro expansion, source locations and text: replaced by the syntax
  of the kernel language. Clang is not part of this model; that a query by block is answered for the end of the block, that
  a statement without a block of its own is looked up with what encloses it, and what the kill option means are taken from
  the interface of the analysis. The all-sub-expressions option makes the calls inside of expressions known to it.
- Edges of the control-flow graph that Clang leaves out because a condition is constant are kept in `Blocks`.
- Blocks.AcceptedByBlock: for kernels in which control can reach the end of every loop body that gets a test. A label that
  it cannot reach may get too small an answer, which does no harm, as no item ever stops there.
- Liveness.StepAgree: about liveness at each point; what the answers by block then need is `Blocks.AcceptedByBlock`.
- Expressions of the kernel language have no side effects, and each statement makes at most one memory access; a condition
  that reads memory is written as a load and a test.
- `switch` and `goto` (rejected by the tool), images and samplers, address-taken private variables, nullary kernels
  (skipped by the tool).
- Preemption.ExpiredSliceEnds: for kernels without `continue`, which jumps over the tests, see `ContinueEscapes`.
- The cost counter, which does nothing today; the timer is an arbitrary choice at every test.
- The walk over dynamically sized local buffers takes the same increments for storing and loading; the use of a string after
  it was moved from (cc/Instrumentor.cpp:558-562) is not modelled.
- Memory is sequentially consistent: each load, store, atomic and protocol action is one step, and fences add nothing.
- Headers are unbounded integers, so kernels with 2^31 labels are not considered; so are ids and sizes outside of
  `FindWorkGroupSize`, whose products wrap at 64 bits as in the source.
- Termination is claimed for kernels whose barriers are uniform within a group and which always end without slicing.
- Agreement.AgreementWhenQuiet: for fewer than 2^32 high priority processes, because the daemon's counters are 32 bits wide.
- Service.ScheduleService.SchedStart: the counts of a process are unbounded, so 2^32 tasks at a time are not considered; its
  bitmaps are sets of kinds, and `TaskKind` shows that the word operations are these set operations.
- Service.Clients.SchedEndOnEventCallback: for a kind that exists. A guard that holds nothing and is bound all the same,
  which no caller does, would end a task outside of the arrays. Whether the event is released is not claimed for kind 0,
  see `PackingLosesZero`.
- Termination events and the shutdown of workers, D-Bus, timerfd, eventfd and poll mechanics, failed system calls.
- Failed vendor calls other than the failure that `ReorderCore` passes on; re-building of programs; release of kernels or
  queues while work is in flight; the pool of kernels and the logging buckets.
- The other API wrappers, which only forward to `Reorder`; the compiler driver, the code cache, YAML profiles and logging.
- Inliner.InlinerAction.ReplaceText: all call sites of a body are rewritten at once, while the source rewrites them from the
  last to the first to keep its source ranges valid; labels, gotos and fresh names stand for "return from the block".
- Inlining.InliningPreservesMeaning: for arguments that call no function with stores, whose order of evaluation C leaves open
  and the inlined code reverses, and for names of caller and callee that differ, see `NameClash`. A function that ends
  without a return statement gives 0 before and after; in C its value must not be used.
- Reorder.QueueInfo.EnqueueKernel: vendor calls do not fail here, and the write of the metadata, for which a launch waits
  besides, is no command of the user's queue.
- EndToEnd: low priority processes stay once they have joined, and each process has a clock of its own.
