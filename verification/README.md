# Verification of the Go-to-C++ compiler and its runtime

These Dafny modules model the parts of the compiler and its C++ runtime in which a mistake would be
hardest to see, and prove what those parts are for. Run `dafny verify dfyconfig.toml`.

- **Channels, select and the scheduler** (`Sched*.dfy`). `SchedModel` has one function per runtime
  entry point over a value `World`: channels with buffer and waiter queues, select awaiters, the ready
  queue, the `parked` counter, host calls and the stack of nested resumes. `SchedInvariant` to
  `SchedInv` prove an invariant of every step, `SchedHistory` what only grows, `SchedTheorems` the
  results, `SchedChoice` when an operation parks and who runs next, `SchedQueues` that nobody
  overtakes, `SchedReports` what a woken goroutine reports, `SchedLife` how goroutines and channels
  begin and end, `SchedClose` what close discards and `SchedAnomalies` two departures from Go.
  `SchedRuntime` is the same runtime as an object that is updated in place, each method equal to its
  function.
- **Control flow** (`ControlFlow`, `Lowering*`). Nested loops, switches, labels, break, continue and
  fallthrough, the labels and gotos emitted for them, and a semantics of each. `SwitchMeaning` tells
  what both share. `LoweringEmitter` is the emitter with its jump stack, counter and pending label.
- **Range-over-func** (`RangeFunc`) and **defer, panic and results** (`Defer*`): the flag-and-value
  rewrite and the panic frame, defer list and epilogue, against Go's meaning. `DeferAnomalies`,
  `DeferEscapes` and `DeferExamples` say which deferred calls the emitted code gets wrong.
- **The collector** (`Gc*.dfy`), **panic chains** (`PanicChains`, `PanicLaws`, `PanicRuntime`), **await
  analysis** (`AwaitAnalysis`), **expressions** (`Precedence`, `OperatorGroups`, `Emission`,
  `ParserState`), **the module loader** (`Loader`, `LoadOrder`, `LoaderState`), **slices** (`Slices`) and
  **datagrams** (`Datagrams`, `NetConn`).

Both semantics of the emitter modules are big-step and carry a number of loop rounds still allowed; two
programs mean the same when they agree for every such number, so neither loops where the other ends.
Conditions, actions and expressions are names, and every theorem holds for any meaning given to them.
A panic ends the run. A `Task` that is awaited re-enqueues its goroutine, which the model does as a
yielding step. Mutexes are atomic steps of the single scheduler thread.

Where the code does not do what Go or its own comments say, the model follows the code, a lemma shows
it, and another says exactly when it happens: a served sender that panics, a select that reports a
discarded send, a return from inside a range-over-func loop that misses a deferred assignment, a
deferred literal whose argument is evaluated twice, a deferred function value that is read late, a
deferred call of a waiting function that never runs, a deferred waiting literal that works on copies, a
deferred call that names variables whose lifetime has ended, and an appended window that straddles the
write point.

## Model

| member | source | states |
|---|---|---|
| SchedTheorems.OneWakeSource | src/runtime.hpp:2443-2485 | In every reachable state an unfinished goroutine has exactly one wake source, counted with multiplicity over running, ready, plain waiters, uncancelled selects and host calls; a finished one has none |
| SchedTheorems.NeverResumedTwice | src/runtime.hpp:2911-2935 | Nobody stands twice in the ready queue, nor there while running, nor there once finished |
| SchedTheorems.NoLostWakeup | src/runtime.hpp:3101-3275 | A goroutine that is neither ready nor running waits in the right queue, and what it waits for (value, room, partner, close, reply) has not happened |
| SchedTheorems.ChannelInvariant | src/runtime.hpp:3069-3076 | Buffer at most the capacity; a live sender means a full open channel, a live receiver an empty open one; both at once only within one select |
| SchedTheorems.Conservation | src/runtime.hpp:3120-3169 | Delivered values, then the buffer, then what close discarded, then live parked senders, are the offers no select withdrew, in order |
| SchedTheorems.HistoriesOnlyGrow | src/runtime.hpp:3120-3275 | No run rewrites what was offered, accepted, delivered or discarded; it only appends |
| SchedTheorems.ReceivesTheOldest | src/runtime.hpp:3138-3169 | A receive gets the oldest queued value, the zero value of a closed drained channel, or parks |
| SchedTheorems.SelectTakesTheOldest | src/runtime.hpp:3387-3432 | A select that goes on at once writes the oldest value of its channel and records exactly that delivery, or the zero value of a closed drained channel, or has its send accepted, or takes the default with no case able to proceed |
| SchedTheorems.SendReachesFirstReceiver | src/runtime.hpp:3120-3135 | A send with a live receiver parked delivers to the one parked longest, and completes its select if it is one |
| SchedTheorems.SelectDecidedOnce | src/runtime.hpp:3387-3468 | A completed select keeps its winner and what was written through it for the rest of the run, and the winner is one of its own cases |
| SchedTheorems.LosersTransferNothing | src/runtime.hpp:3101-3117 | A case that did not win has nothing accepted, discarded or written through it |
| SchedTheorems.WinningSendIsAccountedFor | src/runtime.hpp:3191-3195 | A winning send was accepted or discarded by close, exactly one of the two and once, and discarded only on a closed channel |
| SchedTheorems.ParkedIsBlocked | src/runtime.hpp:2911-2935 | At rest `parked` equals the number of unfinished goroutines, all blocked on channels, though selects and plain waiters are uncounted at different times |
| SchedTheorems.DeadlockVerdictIsExact | src/runtime.hpp:2929-2935 | The deadlock panic comes exactly when nothing can be resumed and some goroutine is blocked; the loop exits exactly when all have finished |
| SchedTheorems.PumpDeadlockIsReal | src/runtime.hpp:2944-2963 | The deadlock panic inside RunUntil means its own helper is blocked on a channel |
| SchedReports.ReportsWhatCame | src/runtime.hpp:3222-3251 | A goroutine that slept through any run and is resumed reports exactly what has reached it meanwhile: a receive or receive case the one value delivered to it, on its own channel, or the zero value of a closed channel; a send or send case none; and no channel delivered it anything else |
| SchedReports.ReceiverReportsItsDelivery | src/runtime.hpp:3101-3109 | In every reachable state a resumed receiver reports the last value delivered to it on its channel, or the zero value and not ok, and then the channel is closed |
| SchedReports.SenderReportsSent | src/runtime.hpp:3216-3219 | A resumed sender faults if and only if its channel is closed; otherwise all it offered there has been accepted |
| SchedChoice.SendsExactly | src/runtime.hpp:3120-3135 | A send faults if and only if the channel is closed, parks if and only if it is open and full with no live receiver, and is accepted otherwise |
| SchedChoice.SelectPicksTheFirst | src/runtime.hpp:3417-3461 | A select goes on with the first case that need not wait, faulting if that is a send on a closed channel; else it takes the first default; it parks if and only if there is neither |
| SchedQueues.NobodyOvertakes | src/runtime.hpp:3101-3275 | Over every run the waiters in a channel's queues keep their order: they leave in front, and whoever joins stands behind |
| SchedChoice.EverybodyGetsATurn | src/runtime.hpp:2915-2927 | The goroutine k places from the head of the ready queue is the next to run after exactly k others, whatever happens in between |
| SchedLife.JoinersGetATurn | src/runtime.hpp:2965-2971 | A new goroutine, a called coroutine and the owner of a completed host call run after exactly those that were ready before them |
| SchedLife.FinishedForGood | src/runtime.hpp:2921-2924 | A goroutine that has finished stays so and is never queued or resumed again |
| SchedLife.MadeChannel | src/runtime.hpp:3302-3305 | make faults for a negative capacity only; the new channel is open and empty and keeps, and never exceeds, its capacity over every run |
| SchedLife.CloseFreesEverybody | src/runtime.hpp:3258-3275 | close faults if and only if the channel is closed; otherwise it is closed for good, its buffer kept, and from then on everybody who waits at it can run |
| SchedLife.PumpWaitsForItsHelper | src/runtime.hpp:2944-2946 | A synchronous function that runs a waiting deferred call does not go on before its helper goroutine has finished, whatever runs meanwhile |
| SchedLife.PumpVerdictIsExact | src/runtime.hpp:2944-2963 | RunUntil goes on, waits for the host or panics exactly as somebody can be resumed, a completion would change something, or nothing that can happen would |
| SchedInv.StepKeepsInv | src/runtime.hpp:3101-3275 | Every enabled step (send, receive, close, select, resume, spawn, host call, completion, nested pump) keeps the whole invariant |
| SchedInv.ReachableInv | src/runtime.hpp:2911-2963 | So every reachable state has it |
| SchedAnomalies.ServedSenderCanPanic | src/runtime.hpp:3216-3219 | A reachable state in which a sender whose value has been received panics when resumed, because the channel closed in between |
| SchedAnomalies.CloseDiscardsUnlessServed | src/runtime.hpp:3268-3274 | close discards the send of a goroutine waiting in send if and only if that goroutine is not yet in the ready queue; one that is there has had everything it offered accepted |
| SchedAnomalies.ClosePanicsServedSenders | src/runtime.hpp:3213-3219 | Whatever runs in between, every goroutine that waited in send when the channel was closed panics on its next turn; its value was discarded if and only if it was not in the ready queue at the close |
| SchedAnomalies.SelectCanReportADiscardedSend | src/runtime.hpp:3269-3274 | A reachable state in which a select reports a send case as chosen whose value close discarded |
| SchedClose.CloseDiscardsSelectSend | src/runtime.hpp:3258-3275 | close completes a select with a send it discards if and only if the select is undecided, waits to send on the channel and does not wait to receive on it |
| SchedAnomalies.SelectReportsDiscardedExactly | src/runtime.hpp:3434-3468 | Whatever runs in between, a select resumed after a close reports, without a panic, a send the close discarded if and only if that held of it at the close |
| SchedRuntime.Runtime.CompleteReceiver | src/runtime.hpp:3101-3109 | In place: stale waiters are skipped, a select is claimed once, the counter and ready queue change as the model says |
| SchedRuntime.Runtime.CompleteSender | src/runtime.hpp:3111-3117 | The same for a sender |
| SchedRuntime.Runtime.TrySendLocked | src/runtime.hpp:3120-3135 | The loop over parked receivers, then the buffer, does what TrySend says to the whole state |
| SchedRuntime.Runtime.TryRecvLocked | src/runtime.hpp:3138-3169 | The buffer with refill from a parked sender, else a sender, else closed, does what TryRecv says |
| SchedRuntime.Runtime.Close | src/runtime.hpp:3258-3275 | Closing drains both queues as CloseChan says, and faults on a closed channel |
| SchedRuntime.Runtime.Send | src/runtime.hpp:3204-3220 | The twice-tried send and its parking are one DoSend |
| SchedRuntime.Runtime.Recv | src/runtime.hpp:3222-3236 | The twice-tried receive and its parking are one DoRecv |
| SchedRuntime.Runtime.TryReady | src/runtime.hpp:3417-3432 | The two loops over the cases pick what TryCases picks, else the default DefaultFrom finds (which one that is: SelectPicksTheFirst) |
| SchedRuntime.Runtime.ParkAll | src/runtime.hpp:3443-3461 | Every communication case is enrolled under one token, as ParkCases says |
| SchedRuntime.Runtime.Select | src/runtime.hpp:3434-3461 | Ready check, re-check and parking are one DoSelect (when it parks: SelectPicksTheFirst) |
| SchedRuntime.Runtime.Go | src/runtime.hpp:2965-2971 | A new goroutine joins the end of the ready queue |
| SchedRuntime.Runtime.Resume | src/runtime.hpp:2915-2927 | One round of the loop: the oldest ready goroutine runs on, with what its awaiter returns (what that is: ReportsWhatCame) |
| SchedRuntime.Runtime.ApplyCompletion | src/runtime.hpp:2799-2811 | A host completion wakes its owner once; an unknown or repeated one changes nothing |
| SchedRuntime.Runtime.Verdict | src/runtime.hpp:2911-2935 | The end of the loop decides as RunVerdict does |
| SchedRuntime.SendBlockedAgain | src/runtime.hpp:3207-3215 | Trying a send that found no room a second time finds none and changes nothing more |
| SchedRuntime.SelectBlockedAgain | src/runtime.hpp:3443-3451 | The re-check of a select that found nothing ready finds nothing ready |
| LoweringProof.StmtPreserved | src/cpp_generator.cc:4635-4775 | Under any jump stack the code of a statement ends as the statement does: normally, by the goto, break or continue the stack prescribes, or not at all |
| LoweringProof.LoopPreserved | src/cpp_generator.cc:4723-4775 | A labelled loop with its post statement moved behind the continue label runs the same rounds with the same effects |
| LoweringProof.CasesPreserved | src/cpp_generator.cc:3950-3975 | Landing on a case label runs that body and those it falls through to, as Go does, then leaves the switch |
| LoweringProof.TestsJump | src/cpp_generator.cc:3921-3941 | The chain of tests jumps to the first matching case, else to the default wherever it stands, else to the end |
| LoweringProof.SwitchPreserved | src/cpp_generator.cc:3902-3979 | A switch with init, tag, default anywhere and fallthrough does what its code does |
| SwitchMeaning.EntersTheFirstMatch | src/cpp_generator.cc:3921-3941 | The case entered is that of the first value, in written order, that equals the tag or is true; every value up to it is evaluated once, none after it |
| SwitchMeaning.NoMatchRunsTheDefault | src/cpp_generator.cc:3936-3941 | With no match a switch runs its only case without values, wherever it stands, or nothing if there is none |
| SwitchMeaning.TestsGoToTheDefault | src/cpp_generator.cc:3921-3941 | The emitted tests are one jump per case with values, in order, and end in a jump to the body of the case without values |
| SwitchMeaning.TestsGoToTheEnd | src/cpp_generator.cc:3936-3941 | Without such a case they end in a jump to the end of the switch |
| SwitchMeaning.BodiesFallThrough | src/cpp_generator.cc:3950-3975 | A body goes on with the next one exactly if it ends in fallthrough and runs to its end |
| SwitchMeaning.OmittedPartsAreNeutral | src/cpp_generator.cc:4723-4775 | A loop without init, condition or post statement is one whose condition is always true and whose statements do nothing |
| LoweringTop.LabelsAreDistinct | src/cpp_generator.cc:4635-4664 | If no Go label is declared twice, no emitted label is defined twice at any depth |
| LoweringTop.StmtAccepted | src/cpp_generator.cc:4666-4721 | The emitter rejects exactly the statements that break Go's placement rules for labels, continue and fallthrough |
| LoweringTop.BodyMeansTheSame | src/cpp_generator.cc:3536-3601 | Every legal body is accepted, and its code ends exactly when it does, in the same state, with no jump left over |
| LoweringEmitter.Emitter.EmitStmt | src/cpp_generator.cc:3536-3601 | Produces the code Lower defines or fails as it does, restores the jump stack and consumes the pending label |
| LoweringEmitter.Emitter.EmitSwitch | src/cpp_generator.cc:3902-3979 | The number, the tests, the frame and the bodies as SwitchCode has them |
| LoweringEmitter.Emitter.EmitTests | src/cpp_generator.cc:3921-3941 | The loop that remembers the last default emits Tests |
| LoweringEmitter.Emitter.EmitCases | src/cpp_generator.cc:3950-3975 | The loop over the bodies emits LowerCases and rejects a fallthrough out of the last |
| LoweringEmitter.Emitter.EmitFor | src/cpp_generator.cc:4723-4775 | A loop between BeginLoop and EndLoop emits LoopCode |
| LoweringEmitter.Emitter.BeginLoop | src/cpp_generator.cc:4635-4647 | Pushes a frame that takes the pending label |
| LoweringEmitter.Emitter.EndLoop | src/cpp_generator.cc:4648-4651 | Pops it and emits the break label if the loop has one |
| LoweringEmitter.Emitter.EmitBreak | src/cpp_generator.cc:4666-4689 | The backward search of the jump stack finds what LowerBreak defines |
| LoweringEmitter.Emitter.EmitContinue | src/cpp_generator.cc:4691-4721 | The backward search skips switches and finds what LowerContinue defines |
| RangeFunc.StmtPreserved | src/cpp_generator.cc:4499-4505 | Inside any nesting of loops, a return in an iterator's lambda has stored its value, raised the shared flag and answered false; break and continue answer false and true with the flag down |
| RangeFunc.CallPreserved | src/cpp_generator.cc:4777-4877 | After the iterator's call the flag tells exactly whether the loop was left by a return |
| RangeFunc.RangePreserved | src/cpp_generator.cc:4859-4877 | Call and escape check together end as Go's loop does, the iterator stopped before the function returns |
| RangeFunc.FunctionReturnsTheSame | src/cpp_generator.cc:4418-4463 | A legal body is accepted and returns the same value in the same state for every iterator, at any depth of nesting; a bare return of a named result is the return of the expression that reads it |
| DeferProof.RunAllSame | src/runtime.hpp:540-563 | Running a list of calls that are emitted as Go means them, from the function or from the destructor, gives the effects, the result and the panic state Go prescribes, each call once, last in first out |
| DeferProof.AwaitSame | src/cpp_generator.cc:3695-3711 | A waiting literal that names no variable and does not touch the result does on its copies what it would do on the originals |
| DeferProof.FunctionMeansTheSame | src/cpp_generator.cc:5125-5223 | The emitted body, epilogue and destructors answer as Go says: same value, same world, same unrecovered panic, for every body whose deferred calls are of the kinds DeferredAsInGoExactly finds right; returns in range-over-func loops included unless a deferred call touches the named result or names a variable of the body |
| DeferProof.EveryDeferRunsOnce | src/cpp_generator.cc:4474-4497 | Whatever way the function is left, the calls run are exactly those registered, in reverse |
| DeferProof.ReturnSame | src/cpp_generator.cc:4499-4575 | A return of a named result assigns it, runs the list and only then reads it; in a range-over-func loop it escapes with its value; other returns leave the list to its destructor |
| DeferProof.PanicRaised | src/cpp_generator.cc:3545-3554 | A panic statement leaves its message in the frame and stands at the end label with nothing run yet |
| DeferLaws.DeferredSeesAndSetsTheResult | src/cpp_generator.cc:4474-4497 | In Go and in the emitted code a deferred call runs once the returned value has been assigned, may read it, and what it assigns is returned |
| DeferLaws.RecoveredPanicReturns | src/cpp_generator.cc:5145-5223 | In both a deferred call that recovers is given the panic's message and the function returns |
| DeferLaws.UnrecoveredPanicGoesOn | src/runtime.hpp:2245-2256 | In both, if nobody recovers, the deferred call runs and the message goes on to the caller |
| DeferLaws.NothingToRecover | src/runtime.hpp:2258-2267 | In both recover without a panic gives nothing |
| DeferLaws.ArgumentIsEvaluatedAtTheDefer | src/cpp_generator.cc:3712-3788 | In both a deferred function gets its argument's value from the defer statement and runs after what follows |
| DeferLaws.LastDeferredRunsFirst | src/runtime.hpp:550-556 | In both the call deferred last runs first |
| DeferAnomalies.DeferredAsInGoExactly | src/cpp_generator.cc:3688-3788 | A function that defers a call and is fine otherwise does what Go says for every meaning of its names if and only if the call is of a literal without an argument or of a function by its name that does not wait; names no variable of an inner block nor, without a named result, of the body; and, if a waiting literal, names no variable and does not touch the result |
| DeferEscapes.RangeReturnExactly | src/cpp_generator.cc:4859-4877 | A function that defers any such calls and then returns from a range-over-func loop does what Go says for every meaning of its names if and only if none of them assigns the named result, reads it when a value is given, or names a variable of the body |
| DeferExamples.RangeReturnLosesTheDeferredAssignment | src/cpp_generator.cc:4859-4877 | A concrete function body for which Go returns 2 and the emitted code 1 |
| DeferExamples.WaitingLiteralLosesTheAssignment | src/cpp_generator.cc:3205-3228 | A deferred literal that waits and then sets the named result to 2: Go returns 2, the emitted code the 1 of the return |
| DeferExamples.VariablesAreGone | src/cpp_generator.cc:5145-5151 | A deferred literal that names a variable of the body, in a function without a named result: Go answers, the emitted code names the variable after its end |
| DeferRuntime.Activation.Push | src/cpp_generator.cc:3688-3788 | Registers a call with its argument evaluated now and a function value not yet; a waiting literal without its call |
| DeferRuntime.Activation.Raise | src/cpp_generator.cc:3545-3554 | Marks the frame before the message is evaluated |
| DeferRuntime.Activation.Recover | src/runtime.hpp:2258-2267 | Takes the pending panic once |
| DeferRuntime.Activation.Await | src/runtime.hpp:2596-2613 | A waiting literal runs on its copies and, from the destructor, without a panic to recover; the originals are back afterwards |
| DeferRuntime.Activation.RunAll | src/runtime.hpp:550-556 | The loop pops and runs until the list is empty, as the recursive definition does |
| DeferRuntime.Activation.Destroy | src/runtime.hpp:2245-2256 | The list's destructor, then the frame's, which lets an unrecovered panic out |
| GcModel.RootListIsExact | src/runtime.hpp:1328-1404 | Over every run of allocations, constructions, moves, assignments, destructions and collections the root list is the handles that hold an object, once each |
| GcModel.NothingReachableIsFreed | src/runtime.hpp:1200-1270 | Over every such run nothing a handle leads to is ever freed |
| GcModel.CollectIsExact | src/runtime.hpp:1293-1317 | A collection keeps exactly what the handles lead to, frees exactly the rest, and changes no reachability |
| GcModel.CollectTwiceIsOnce | src/runtime.hpp:1293-1317 | A second collection in a row changes nothing |
| GcModel.RemoveRootTakesOne | src/runtime.hpp:1250-1258 | Removing by moving the last entry takes exactly one entry and loses no other |
| GcModel.MovedRoots | src/runtime.hpp:1365-1383 | Moving a handle onto another leaves the source unregistered and the target registered once exactly if it now holds something |
| GcModel.MarkingEnds | src/runtime.hpp:1301-1307 | With no grey entry left, black is exactly reachable |
| GcHeap.Heap.Collect | src/runtime.hpp:1293-1317 | Whiten, mark, sweep: the objects left are those reachable from the roots, in their order, members untouched |
| GcHeap.CollectIsTheStep | src/runtime.hpp:1293-1317 | For any numbering of the objects, what Collect keeps is what one collection step of the numbered heap keeps, in the same order |
| GcPaths.CollectKeepsWhatIsPointedTo | src/runtime.hpp:1293-1317 | Over every run an object at the end of a chain of pointers that starts at a handle is in the heap, and a collection keeps exactly these objects, cycles and sharing included |
| GcPaths.ReachableByMembers | src/runtime.hpp:1293-1317 | The objects Heap.Collect keeps are those at the end of a chain of members from a root |
| GcPaths.FilterKeepsOrder | src/runtime.hpp:1306-1317 | They keep their order |
| GcHandles.HoldsWhatItWasGiven | src/runtime.hpp:1328-1404 | Over every run each handle holds what the last operation on it gave it, a moved-from handle nothing, and each object points where its members were last set |
| GcHeap.Heap.Mark | src/runtime.hpp:1300-1307 | The grey loop over a list with duplicates ends, by the objects not yet black and the entries unread, with black equal to reachable |
| GcHeap.Heap.Round | src/runtime.hpp:1302-1306 | One entry: nothing if it is black, else it is blackened and traced |
| GcHeap.Heap.Trace | src/runtime.hpp:1277-1291 | Exactly the members that are neither null nor black turn grey |
| GcHeap.Heap.Sweep | src/runtime.hpp:1308-1316 | Keeps the black objects in order |
| GcHeap.Heap.MakeRooted | src/runtime.hpp:1238-1245 | The new object is in the heap and its handle among the roots in one step |
| GcHeap.Heap.Remove | src/runtime.hpp:1250-1258 | The search loop removes what RemoveRoot says |
| GcHeap.Persistent.Move | src/runtime.hpp:1365-1371 | Takes over the object, empties the source, and exchanges their registrations |
| GcHeap.Persistent.MoveFrom | src/runtime.hpp:1372-1381 | The same onto a live handle; onto itself, nothing |
| GcHeap.Persistent.Reset | src/runtime.hpp:1347-1351 | Detach, assign, attach |
| PanicChains.ChainIsOwnFrames | src/runtime.hpp:2238-2256 | Under any interleaving a goroutine's chain is exactly its own open frames, innermost first, and the current head is the running one's |
| PanicChains.SameAsAlone | src/runtime.hpp:337-378 | Under any interleaving every recover and unrecovered panic turns out as if the goroutine ran alone |
| PanicChains.InterleavingDoesNotMatter | src/runtime.hpp:2457-2478 | Two runs with the same events of a goroutine, interleaved differently, give it the same frames and replies |
| PanicChains.StepKeepsInv | src/runtime.hpp:2915-2927 | Entering, panicking, recovering, leaving, spawning, resuming and suspending keep every chain and the saved VThreads right |
| PanicLaws.RepliesOfARun | src/runtime.hpp:2238-2267 | In any interleaving a recover answers the message of the panic in its own frame, once, and nothing for another frame's panic or none; a panic nobody recovers goes on with its message |
| PanicRuntime.PanicFrame.constructor | src/runtime.hpp:2243 | A new frame extends the running owner's chain and no other |
| PanicRuntime.PanicFrame.Destroy | src/runtime.hpp:2245-2256 | Leaving restores the chain from before and answers the panic that goes on |
| PanicRuntime.Runtime.Recover | src/runtime.hpp:2258-2267 | Goes by the current head, takes a pending panic and leaves the links |
| PanicRuntime.Runtime.EndResume | src/runtime.hpp:2921-2924 | Restores the VThread that was current before the resume |
| Loader.LoadedInDependencyOrder | src/module_loader.cc:360-402 | A module that loads lists each reachable package exactly once, after everything it imports, the entry last |
| Loader.LoadsExactlyWhenPossible | src/module_loader.cc:419-438 | Loading succeeds if and only if everything reachable is readable and resolves and nothing reachable imports itself |
| Loader.CycleReportedExactlyWhenThereIsOne | src/module_loader.cc:360-364 | When every import resolves a cycle is reported if and only if the reachable imports have one |
| Loader.ErrorsAreReal | src/module_loader.cc:242-248 | A reported chain is a chain of imports from the entry that closes on itself, and every other error is true of a reachable package |
| Loader.LoadOrders | src/module_loader.cc:385-401 | One call adds only packages its argument reaches, in dependency order, itself last, and none under way |
| LoadOrder.DirectIsTheImports | src/module_loader.cc:384-396 | The direct list of a package is its imports that resolve to a path, in the order they are written |
| LoadOrder.DirectHas | src/module_loader.cc:384-396 | A path is in it if and only if an import resolves to it |
| LoadOrder.ImportsLoadInOrder | src/module_loader.cc:384-396 | An import of the entry is listed before a later one that no import up to it leads to |
| LoadOrder.FirstErrorIsReported | src/module_loader.cc:360-396 | If all imports before it can be loaded, what is wrong with an import of the entry is the error reported |
| LoaderState.LoadState.LoadResolved | src/module_loader.cc:360-402 | The walk that pushes, pops, merges and appends in place returns what Load says and leaves the chain as it was |
| LoaderState.LoadState.LoadImports | src/module_loader.cc:384-396 | The loop over imports stops at the first error and records the direct paths |
| AwaitAnalysis.AnalyzeAsync | src/cpp_generator.cc:1419-1485 | Ends, and marks exactly the functions from which a chain of name-matched calls reaches a body that waits |
| AwaitAnalysis.MarkedExactly | src/cpp_generator.cc:1419-1485 | Any justified set with nothing left to mark is that set |
| AwaitAnalysis.MarkedIsLeast | src/cpp_generator.cc:1399-1417 | It is the least set with nothing left to mark |
| AwaitAnalysis.OrderDoesNotMatter | src/cpp_generator.cc:1437-1442 | The order of functions and files makes no difference |
| AwaitAnalysis.NeedsExactly | src/cpp_generator.cc:1159-1267 | A body needs to await if and only if a receive, a send, a select, a loop over a channel, a call into gocvm or a call that matches a mark stands in it, at any depth, outside of go statements |
| AwaitAnalysis.MatchesByName | src/cpp_generator.cc:1165-1194 | A callee matches a function's mark if and only if it is its bare name, its name selected from an imported package, or, for a method, its name selected from anything |
| AwaitAnalysis.KeyEndsWithName | src/cpp_generator.cc:1188-1194 | Comparing a method key's tail compares the method name and nothing more, for names without dots |
| AwaitAnalysis.StmtsNeedAwait | src/cpp_generator.cc:1219-1224 | The loop answers as the recursive condition does |
| AwaitAnalysis.ExprNeedsAwait | src/cpp_generator.cc:1159-1217 | The cases for receives, literals and calls answer as the condition does |
| Precedence.ParsesExactly | src/parser.cc:392-424 | The parser returns a tree if and only if it is a tree over all the tokens that respects the table with left association |
| Precedence.OneTreePerYield | src/parser.cc:29-58 | There is at most one such tree |
| Precedence.PrintThenParse | src/parser.cc:392-407 | Printing any tree with parentheses where the table asks for them and parsing it gives the tree back |
| Precedence.BinaryFinds | src/parser.cc:392-407 | A tree is found whatever follows it that does not bind tighter |
| OperatorGroups.LaterGroupBindsTighter | src/parser.cc:29-58 | With Go's operators, and C++'s, named group by group: of two operators the one from the tighter group takes the operand between them, whichever comes first |
| OperatorGroups.OneGroupGoesLeft | src/parser.cc:392-407 | Of two operators of one group the first does |
| OperatorGroups.OthersEndIt | src/parser.cc:395-396 | A token of no group ends the expression, whatever follows |
| OperatorGroups.PrefixesExactly | src/parser.cc:409-424 | An operator in front of an operand parses if and only if it is one of the prefix operators |
| Emission.EmissionKeepsTheShape | src/cpp_generator.cc:2279-2349 | What is emitted for a parsed token string is read by C++'s table as the expression that was meant |
| Emission.EmissionKeepsTheValue | src/cpp_generator.cc:2279-2391 | For every meaning of its names, what is emitted for a parsed token string has as C++ the value Go gives the source, `^x`, `&^` and receives included |
| Emission.WrittenRespects | src/cpp_generator.cc:2344-2349 | The parenthesized tree respects C++'s table, `& ~` included |
| Emission.TablesDisagree | src/parser.cc:29-58 | Without the parentheses C++ would read a mixed expression differently |
| ParserState.Parser.ParseBinary | src/parser.cc:392-407 | The loop that rebuilds the left operand while advancing the cursor returns what the recursive parser does |
| ParserState.Parser.ParseUnary | src/parser.cc:409-424 | The same for prefix operators |
| ParserState.Parser.Primary | src/parser.cc:681-691 | The same for operands and parentheses |
| Slices.Append | src/runtime.hpp:1948-1971 | The new view is the old one and the elements; in place when they fit, else in a new buffer of the doubled capacity, the old one untouched |
| Slices.AppendRange | src/runtime.hpp:1974-1977 | Appends the source's elements, or for a straddling window its first part repeated; from nil fewer than two moves per element; it writes as many elements behind the window as fit and nothing else in the buffer, and has a buffer of its own exactly if they do not all fit |
| Slices.SnapshotExactlyIfPeriodic | src/runtime.hpp:1974-1977 | A straddling window is appended as it was if and only if it repeats its first part |
| Slices.Copy | src/runtime.hpp:1984-1996 | Copies the shorter length as if the source had been read first, overlapping or not, and nothing else changes |
| Datagrams.PipeKeepsDatagrams | stdlib/net/net.go:341-418 | Payloads below 2^32 bytes written with WriteTo come out of ReadFrom in order, each cut to its buffer, and then the end is found |
| Datagrams.BoundariesSurvive | stdlib/net/net.go:371-418 | The same however the bytes are cut into chunks |
| Datagrams.ReadFullBytes | stdlib/net/net.go:326-339 | readFull returns the next n bytes, or fails if and only if there are not that many |
| Datagrams.HeaderIsExactBelowTheLimit | stdlib/net/net.go:355-356 | The four-byte length survives if and only if it is below 2^32 |
| NetConn.Conn.Read | stdlib/net/net.go:88-119 | Fills the caller's buffer in place, keeps the rest of the chunk, and reports closed, unusable and finished connections |
| NetConn.Conn.Write | stdlib/net/net.go:121-142 | Sends a copy as one chunk, or reports why not |
| NetConn.ReadFully | stdlib/net/net.go:326-339 | The loop that advances an offset fills the whole buffer as ReadFull says |
| NetConn.PacketConn.WriteTo | stdlib/net/net.go:341-369 | Sends the header and a payload that is not empty as a chunk each |
| NetConn.PacketConn.ReadFrom | stdlib/net/net.go:371-418 | Reads header and payload and copies what fits, as ReadFrom says, or leaves the buffer alone |

## Left out

- Interleavings finer than one channel operation: the mutexes of different channels share a select's cancel flag, so the theorems belong to the single scheduler thread.
- Nil channels: the plain awaiters dereference a null state before the check for it, which is not a defined behaviour to model.
- Coroutine frames, their allocation and destruction; a goroutine is a thread of control.
- Channel elements are integers; nothing in the runtime looks inside them.
- `SchedRuntime.Runtime` repeats the operations on channels and the scheduler loop in place; host call submission, finishing and the nested pump are only in `SchedModel`. A pump started outside any goroutine is not modelled.
- Sockets, the host bridge, files, clocks: a host call is a pending number that completes once.
- The text of the emitted C++; emitters return trees. C++'s rule that a goto may not pass an initialised variable is not checked.
- The loops `for range` emits for slices, arrays, maps, strings, channels and integers: the lowering has condition, three-clause and endless loops, and range loops only over functions.
- Labels on statements other than loops and switches, `goto`, select and type switch bodies (they push no jump frame, so break inside them is not covered), and labelled jumps across a range-over-func loop.
- The rewrite of `return` is proved with ordinary loops and no switch around it; switches change nothing it depends on.
- Deferred calls: receivers, which are evaluated after the arguments and copied; more than one argument; a waiting literal with an argument, whose emitted code does not compile. What Go's per-iteration variables hold is not modelled, because the emitted code has lost them by the time the call runs.
- Panics other than a panic statement of the function itself: a call or an operation that panics ends the program. A panic statement in the body of a range-over-func loop, whose jump to the end label would stand in the iterator's lambda. The epilogue of `main`.
- Multi-value results, named results of function literals, and deferred calls with defers or panics of their own. A function without a defer statement is modelled with an empty list.
- A panic that leaves a frame unrecovered ends the program here, as in the runtime; Go would go on in the caller.
- Slice expressions; the three-index form checks its third index and then keeps the old capacity.
- `append` without elements, which allocates for a nil slice; element types other than integers.
- PanicFrame promotion to a bridge error while a host bridge is active.
- Path resolution (`ResolveImport`, go.mod, the `internal` rule's string test) is a parameter of the loader: each import is given with its outcome.
- Type inference in the await analysis: whether a range goes over a channel is given.
- The special emissions of comparisons with nil, string literals, complex numbers and narrow integer casts.
- NetConn.Conn.Read: does not model waiting for a chunk; everything the peer will send before closing is given, because the channel theorems already say it arrives in order.
- NetConn.Conn.Write: does not model the pipe's limit of sixteen chunks, because it only delays the writer.
- Maps, sorting, byte searches, the other packages of the library and the command line: easy or textbook members.
