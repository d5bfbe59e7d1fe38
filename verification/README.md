# A verified model of four parts of a JavaScript engine

Escargot is a JavaScript engine written in C++. This project models the parts of
its built-in library whose correctness is hardest to see from the code, and proves
what ECMA-262 and the code promise about them.

* **Waiting and notifying on shared memory** (`Atomics*.dfy`). `Atomics.wait`,
  `Atomics.waitAsync` and `Atomics.notify` as a transition system: any number of
  agents and worker threads, one mutex per waiter list, a second mutex for the
  table of asynchronous waits of each VM instance, spurious wakeups, timeouts, and stores by any agent
  at any moment. The theorems hold in every state of every run.
* **Array algorithms** (`SparseObjects.dfy`, `FastArrays.dfy`, `Array*.dfy`). The
  built-ins that work in place, jump over holes, choose a direction for overlapping
  moves, or leave a fast path in the middle of a loop. Objects are a length and a
  finite map from index to value; fast-mode arrays are vectors of optional values
  with the same reading. Every method is proved against a pointwise description of
  its result. `Array.fromAsync` (`FromAsync*.dfy`, `ArrayFromAsync.dfy`), a coroutine
  written by hand with a resume stage, is proved equal to the loop it encodes, for
  every sequence of await outcomes; what that loop stores and when it is the loop of
  the standard is proved separately.
* **Iterator helpers** (`Iterator*.dfy`). `map`, `filter`, `take`, `drop`, `flatMap`
  and `concat` as heap objects that own the iterators below them, nested to any
  depth. Pulling them to the end gives the list the pipeline denotes, and any
  sequence of `next` and `return` calls keeps the discipline for closing them.
* **`BigInt.asUintN` and `asIntN`** (`BigIntBits.dfy`). Masking on unbounded two's
  complement, shown to be modular arithmetic.

`Common.dfy` holds the small shared definitions. `dafny verify dfyconfig.toml`
verifies the project.

## How the pieces fit

A run of the protocol is a sequence of states with a schedule (`Atomics.IsRun`).
`AtomicsInvariant` shows that every step keeps the ownership of the mutexes,
`AtomicsWaiters` that it keeps the invariant about waiters, lists and entries, one
lemma per kind of step; `AtomicsTheorems` draws the conclusions. Each state of a run
carries history (the order of notifications, the sum returned by `notify`, what
became of every waiter) that no step reads.

The iterator helpers are split in two. `IteratorStates` treats one helper as a value
and proves, closure by closure, that the values still to come are what the pipeline
denotes. `IteratorHelpers` holds the objects themselves; its methods do what the
closures do and use those lemmas. A pipeline is described by a `Recipe`. The
callback of a `flatMap` picks its result from a finite list of pipelines by value and
position; a run over finite sources calls the callback finitely often, and the list
may be as long as that.

## Where the code does not do what one expects

The model follows the code. The exact condition is proved in each case, except for the
two differences that are named as outside the comparison.

* `unshift` on a sparse array with two or more arguments leaves stale copies behind
  exactly when some element comes after more holes than there are arguments
  (`UnshiftArrayRightIff`, example `UnshiftSlowWrong`).
* `join` on a proxy ignores everything after the first undefined element; the result
  is right exactly when all of that renders as the empty string
  (`ProxyJoinRightIff`, example `ProxyJoinWrong`).
* An iterator helper does not look at its own done flag in `next`, so `next` after
  `return` goes on with whatever the closed iterators below still yield
  (`NextAfterReturn` and `CollectAfterReturn`, example `ReturnDoesNotEnd`).
* `Iterator.concat` never flags its finished iterators, so `return` closes them after
  they reported done: exactly those before the current one (`ReturnChain`, example
  `ConcatClosesFinished`). `iteratorStepValue` does not set the flag either; the other
  helpers set it themselves.
* In `Array.fromAsync` an exception in a resumed worker is caught by nobody and leaves
  the promise pending for ever: reading an iterator result, a later `next`, defining
  an element of an array-like, or PromiseResolve on a value that is awaited.
  `RunLostIff` and `ArrayLikeRunLostIff` say exactly which runs end so (examples
  `SecondThrowIsLost`, `UnresolvableIsLost`). Resume stages 1, 3 and 5 are never
  entered, because closing the iterator with a throw completion always throws.
* `Array.fromAsync` closes the iterator when the awaited result of `next` is a
  rejection, which ECMA-262 does not do (`RejectedNextCloses`). When looking up
  `return` throws while closing, that error replaces the original one
  (`CloseReplacesError`). And it pauses between two turns and before the first element
  of an array-like, so that other jobs may change what the next turn meets
  (`JobInPauseBreaksNext`). `EngineIsStandardIff` says exactly when the engine does
  what the loop of section 23.1.2.2 says, delivery after delivery and whatever happens
  in the pauses, and `ArrayLikeIsStandardIff` the same for array-likes. Two
  differences lie outside that comparison: the engine does not wait for the promise
  that `return` gives, and it fulfils its promise with the result object where the
  standard resolves it, which matters when a constructor makes a thenable.
* `return` on a flatMap closes the outer iterator before a live inner one, where
  ECMA-262 closes the inner one first; the order is the standard's exactly when no
  inner iterator is alive and a concatenation is still at its first part
  (`ReturnOrderIff`, example `ReturnClosesOuterFirst`).
* The address of a waiter list counts the byte position four times, so elements of two
  different buffers can share a list (`BlocksShareAListIff`, example
  `BlocksShareAListExample`), and a notify call for one can be used up by a waiter of
  the other (`NotifyGoesAstray`). Without such a collision a waiter is notified by calls
  for its own location only (`NotifiedByOwnLocation`). Elements of one buffer never
  collide (`OneListPerElement`).
* The early exit of `reverse` is reached only on a proxy whose two middle elements are
  missing, where nothing is left to do.

## Model

| member | source | states |
|---|---|---|
| AtomicsTheorems.NoLostWakeup | src/builtins/BuiltinAtomics.cpp:419-583 | In every run: after a store of a value other than v and a completed unlimited notify, with the cell staying different from v, no waiter that expected v is queued; each was notified or timed out. |
| AtomicsTheorems.WaiterConservation | src/builtins/BuiltinAtomics.cpp:465-582 | In every reachable state a waiter is queued exactly while un-notified and not departed, is logged as notified exactly when its flag is set, and ends "ok" exactly when it was notified. |
| AtomicsTheorems.NotifiedInOrder | src/builtins/BuiltinAtomics.cpp:566-578 | First in, first out: whoever entered a list before a notified waiter was notified before it or timed out; nobody is notified twice. |
| AtomicsTheorems.NotifyReturnsAddUp | src/builtins/BuiltinAtomics.cpp:564-582 | The values returned by all notify calls on a list add up to the number of distinct waiters notified there. |
| AtomicsTheorems.WorkerReports | src/builtins/BuiltinAtomics.cpp:481-494 | At its report step a worker finds exactly one entry for its waiter in the table of its VM instance; the step clears it, records the outcome, raises the pending count by one and leaves the other tables alone. |
| AtomicsTheorems.WorkerBehindEntry | src/builtins/BuiltinAtomics.cpp:465-500 | A worker whose entry is not pushed yet cannot take the list mutex, which its creator still holds; every worker past the mutex has its entry, and no table has another for that waiter. |
| AtomicsTheorems.PendingCountsReports | src/builtins/BuiltinAtomics.cpp:481-500 | In each VM instance the pending count is the number of cleared entries, entries belong to distinct waiters of that instance, and an entry is cleared exactly when its waiter was reported. |
| AtomicsTheorems.DeadlockFree | src/builtins/BuiltinAtomics.cpp:419-580 | Whenever some thread is neither at rest nor suspended on its condition variable, some such thread can step. |
| AtomicsTheorems.EnqueueComparedEqual | src/builtins/BuiltinAtomics.cpp:419-449 | The enqueue step is reached only from a comparison that found the expected value under the same mutex. |
| AtomicsTheorems.NonePendingStays | src/builtins/BuiltinAtomics.cpp:419-521 | While the cell differs from v, no step makes a waiter for v queued or about to be queued. |
| AtomicsTheorems.DrainEnds | src/builtins/BuiltinAtomics.cpp:564-580 | When an unlimited notify leaves its loop the list is empty and nobody is between comparison and insertion. |
| AtomicsTheorems.DrainStep | src/builtins/BuiltinAtomics.cpp:564-580 | From taking the mutex on, a notifier is still draining or nothing is pending, whichever thread steps. |
| AtomicsInvariant.StepKeepsLocks | src/builtins/BuiltinAtomics.cpp:419-580 | Every step keeps each mutex owned by exactly the thread inside its critical section. |
| AtomicsWaiters.RunInv | src/builtins/BuiltinAtomics.cpp:419-583 | The whole invariant on mutexes, threads, waiters, lists and entries holds in every state of every run. |
| AtomicsWakeups.NotifiedReturns | src/builtins/BuiltinAtomics.cpp:472-521 | From any state of any run in which a notified waiter's thread is suspended and the mutex is free, a wakeup and four steps of that thread continue the run to a state where the wait has ended with "ok": an agent has returned, a worker goes on to report true. |
| AtomicsWakeups.ExpiredReturns | src/builtins/BuiltinAtomics.cpp:472-521 | The same for a timeout: the wait ends with "timed-out", or with "ok" if the waiter was notified before; it is no longer queued. |
| AtomicsWakeups.SpuriousWakeup | src/builtins/BuiltinAtomics.cpp:474-476 | Waking a waiter that was not notified leads back to sleep and changes nothing. |
| AtomicsWakeups.OnlyFiniteTimesOut | src/builtins/BuiltinAtomics.cpp:473-477 | In every run only a wait with a finite timeout ends with "timed-out". |
| AtomicsWakeups.CompareDecides | src/builtins/BuiltinAtomics.cpp:421-449 | Under the mutex: an unequal value is refused as not-equal, an equal one with a zero timeout of an asynchronous wait as timed-out, and every other wait is queued. |
| AtomicsWakeups.RefusedWait | src/builtins/BuiltinAtomics.cpp:421-449 | A refused wait leaves the whole state as it was. |
| AtomicsWakeups.AsyncWaitExecutes | src/builtins/BuiltinAtomics.cpp:465-505 | waitAsync from the call to its return: one more waiter at the end of the list, one more entry pointing at it in the table of its VM instance, one worker thread, both mutexes free again and nothing else changed. |
| AtomicsWakeups.StoreWrites | src/builtins/BuiltinAtomics.cpp:325-346 | A store is seen by later comparisons at its location and at no other. |
| AtomicsExecutions.CheckStep | src/builtins/BuiltinAtomics.cpp:473-477 | One turn of the condition variable's predicate loop: leave with true when notified, with false when timed out only, else release the mutex and sleep. |
| AtomicsExecutions.WaitExecutes | src/builtins/BuiltinAtomics.cpp:506-511 | A synchronous wait that finds the expected value: one more waiter at the end of the list, and the agent suspended. |
| AtomicsWaiters.ReportFinds | src/builtins/BuiltinAtomics.cpp:481-493 | The search in the table stops at the entry pushed for the waiter, and no other entry points at it. |
| AtomicsNotify.WaiterQueue.Notify | src/builtins/BuiltinAtomics.cpp:566-578 | The critical section of notify removes and flags exactly the first min(count, size) waiters, leaves the others alone and returns their number. |
| AtomicsNotify.SectionNotifies | src/builtins/BuiltinAtomics.cpp:564-580 | In the protocol, too, the steps of notify from the count to the exit remove and flag exactly the first min(count, size) waiters, touch nothing else and add that number to the total. |
| AtomicsNotify.ValidateAtomicAccess | src/builtins/BuiltinAtomics.cpp:66-78 | Succeeds exactly for an integer index inside the view, with the byte position of that element, which lies inside as a whole; otherwise a RangeError. |
| AtomicsNotify.OneListPerElement | src/builtins/BuiltinAtomics.cpp:400-405 | Within one buffer two elements share a waiter list only if they are the same. |
| AtomicsNotify.BlocksShareAListIff | src/builtins/BuiltinAtomics.cpp:553-562 | Two disjoint buffers share a waiter list exactly when their distance is a multiple of 16 that is small enough. |
| AtomicsNotify.BlocksShareAListExample | src/builtins/BuiltinAtomics.cpp:553-562 | A concrete pair of disjoint buffers that share a list. |
| AtomicsCollisions.NotifiedByOwnKey | src/builtins/BuiltinAtomics.cpp:553-578 | In every run a notified waiter was notified by a call for a location with the same key. |
| AtomicsCollisions.NotifiedByOwnLocation | src/builtins/BuiltinAtomics.cpp:553-578 | If no two locations in use share a list, it was a call for the waiter's own location. |
| AtomicsCollisions.NotifyGoesAstray | src/builtins/BuiltinAtomics.cpp:553-578 | A run in which a notify call with count 1 wakes a waiter of another buffer and leaves the waiter of its own location queued. |
| SparseObjects.JSObject.NextIndexForward | src/runtime/Object.cpp:1808-1844 | The least present index above cur and below end, else end; on a proxy the next index. |
| SparseObjects.JSObject.NextIndexBackward | src/runtime/Object.cpp:1846-1880 | The greatest present index below cur and above end, else end; on a proxy the previous index. |
| ArrayReverse.Reverse | src/builtins/BuiltinArray.cpp:923-976 | In place, for every sparse map and length, ordinary or not: the mirror image, holes mirrored, nothing beyond the length touched. |
| ArrayReverse.ReverseTwice | src/builtins/BuiltinArray.cpp:923-976 | Reversing twice restores every element and every hole. |
| ArrayShift.ShiftSlow | src/builtins/BuiltinArray.cpp:2252-2296 | Returns the first element, moves all others down by one, holes included, and shortens the length; also for length zero and plain objects. |
| ArrayShift.ShiftFast | src/builtins/BuiltinArray.cpp:2232-2249 | The fast path drops exactly the first slot and returns it, a hole as undefined. |
| ArrayShift.ShiftPathsAgree | src/builtins/BuiltinArray.cpp:2217-2296 | Both paths give the same elements, length and result on every fast-mode array. |
| ArrayShift.UnshiftSlow | src/builtins/BuiltinArray.cpp:2335-2396 | The exact effect of the slow path for every map and argument list: insertion, except at stale positions, which keep their old element; the length error and nothing else stops it. |
| ArrayShift.MoveUp | src/builtins/BuiltinArray.cpp:2339-2373 | The hole-skipping move puts every element its distance higher, except at the stale positions it jumps over. |
| ArrayShift.UnshiftSlowRightIff | src/builtins/BuiltinArray.cpp:2360-2372 | The slow path equals the reference insertion if and only if no position is stale. |
| ArrayShift.UnshiftArrayRightIff | src/builtins/BuiltinArray.cpp:2360-2372 | On arrays: right if and only if there is at most one argument or no element follows more holes than there are arguments. |
| ArrayShift.OneArgumentIsRight | src/builtins/BuiltinArray.cpp:2360-2372 | With at most one argument the slow path is the reference insertion on every object. |
| ArrayShift.UnshiftSlowWrong | src/builtins/BuiltinArray.cpp:2360-2372 | A four-element array with two arguments for which it is not. |
| ArrayShift.UnshiftFast | src/builtins/BuiltinArray.cpp:2309-2326 | The fast path is the reference insertion for every number of arguments, whatever the new slots held before. |
| ArraySplice.Splice | src/builtins/BuiltinArray.cpp:1010-1163 | For every start, delete count and item list: prefix, items, suffix with holes kept, the new length, the removed range as a fresh array, and a TypeError exactly when the new length is too large. |
| ArraySplice.ActualStart | src/builtins/BuiltinArray.cpp:1023-1027 | Where a splice starts, for every kind of argument. |
| ArraySplice.ActualDelete | src/builtins/BuiltinArray.cpp:1029-1044 | How many elements it removes: none without arguments, all from the start on with one argument, else the count clamped to what is there. |
| ArraySplice.SplicesVector | src/builtins/BuiltinArray.cpp:1010-1163 | On an array without holes: the slices before and after the removed one with the items between them. |
| ArraySplice.CopyRemoved | src/builtins/BuiltinArray.cpp:1050-1076 | The removed range, holes included, moved to the origin of a fresh array. |
| ArraySplice.MoveDown | src/builtins/BuiltinArray.cpp:1083-1116 | The suffix moved down through its own overlap, and the tail deleted. |
| ArraySplice.MoveUp | src/builtins/BuiltinArray.cpp:1117-1147 | The suffix moved up through its own overlap. |
| ArraySplice.ToSpliced | src/builtins/BuiltinArray.cpp:1313-1376 | Exactly the state splice would leave, with every hole read as undefined, in a fresh array that holds nothing else. |
| ArraySplice.SpliceBack | src/builtins/BuiltinArray.cpp:1010-1163 | Splicing the removed elements back in place of the items restores the length and every element, with removed holes filled by undefined. |
| ArraySplice.SpliceBackRestoresIff | src/builtins/BuiltinArray.cpp:1010-1163 | So the array is restored if and only if no hole was removed. |
| ArrayCopyWithin.CopyWithin | src/builtins/BuiltinArray.cpp:2469-2528 | A simultaneous copy from a snapshot, holes as deletions, for all arguments including negative and infinite ones, in either direction. |
| ArrayCopyWithin.CopyCount | src/builtins/BuiltinArray.cpp:2487-2488 | The count is the largest that stays within both the copied range and the array. |
| ArrayCopyWithin.CopiesRange | src/builtins/BuiltinArray.cpp:2469-2528 | With indices in range, exactly the given range is copied to the target. |
| Common.Clamp | src/builtins/BuiltinArray.cpp:2477-2490 | Where a relative index lands: counted from the end when negative, kept between zero and the length. |
| Common.ClampEnd | src/builtins/BuiltinArray.cpp:1239-1240 | Where an end index lands; a missing one is the length. |
| ArraySlice.SliceSlow | src/builtins/BuiltinArray.cpp:1232-1277 | The exact sub-map and length for every start and end, jumping over holes. |
| ArraySlice.SliceFast | src/builtins/BuiltinArray.cpp:1246-1256 | The same sub-map by copying fast-mode slots. |
| ArraySlice.CopyFastElements | src/runtime/ArrayObject.cpp:472-490 | Copies exactly the given range of slots and leaves the others alone. |
| ArraySlice.SlicePathsAgree | src/builtins/BuiltinArray.cpp:1232-1277 | Copying branch and hole-skipping loop build the same array. |
| ArraySlice.AppendSlow | src/builtins/BuiltinArray.cpp:1201-1216 | Appends one array, holes included, and sets the length. |
| ArraySlice.AppendFast | src/runtime/ArrayObject.cpp:472-490 | The same by copying, or nothing but the new length when the result leaves fast mode. |
| ArraySlice.Concat | src/builtins/BuiltinArray.cpp:1165-1230 | The juxtaposition of all arguments, whichever path each one takes; a TypeError exactly when a checked argument makes the result too long. |
| ArraySlice.Slice | src/builtins/BuiltinArray.cpp:1232-1277 | The sub-map and length, whichever branch is taken. |
| ArraySlice.AppendArgument | src/builtins/BuiltinArray.cpp:1170-1227 | One argument of concat: refused exactly when checked and too long, else appended behind what is there, in either branch. |
| ArraySlice.SliceConcatRebuilds | src/builtins/BuiltinArray.cpp:1165-1277 | Cutting an array anywhere and concatenating the slices rebuilds it, holes and length included, whichever branches the four copies take. |
| ArrayJoin.Join | src/builtins/BuiltinArray.cpp:839-921 | The loop that skips undefined runs and emits separators in bulk returns the element-by-element join for every map, length and separator; on a proxy, of what comes before the first undefined element; and the empty string for an object whose join is running already. |
| ArrayJoin.Renders | src/builtins/BuiltinArray.cpp:868-872 | Holes, undefined and null give the empty string, everything else its own text. |
| ArrayJoin.NextDefined | src/builtins/BuiltinArray.cpp:874-906 | No defined element is jumped over, and the index grows. |
| ArrayJoin.JoinedOverBlanks | src/builtins/BuiltinArray.cpp:860-867 | Over elements that render empty the join grows by separators only. |
| ArrayJoin.HidingShortens | src/builtins/BuiltinArray.cpp:886-889 | Leaving out elements shortens the join unless they rendered empty. |
| ArrayJoin.ProxyJoinRightIff | src/builtins/BuiltinArray.cpp:886-906 | On a proxy the join is right if and only if everything after the first undefined element renders empty. |
| ArrayJoin.ProxyJoinWrong | src/builtins/BuiltinArray.cpp:886-906 | A three-element proxy for which it is not. |
| ArrayFlat.FlattenInto | src/builtins/BuiltinArray.cpp:147-182 | Writes exactly the depth-bounded flattening from the start index on, touches nothing else and returns the end; a TypeError exactly when an index would reach the limit, with everything below the limit written; with or without a mapper. |
| ArrayFlat.StoreElement | src/builtins/BuiltinArray.cpp:166-177 | One element: its own flattening, or the element itself. |
| ArrayFlat.FlattenAppend | src/builtins/BuiltinArray.cpp:147-182 | Flattening distributes over juxtaposition. |
| ArrayFlat.FlattenOpens | src/builtins/BuiltinArray.cpp:166-168 | A nested array is opened once for each level of depth; infinite depth stays infinite. |
| ArrayFlat.FlattenKeepsLeaf | src/builtins/BuiltinArray.cpp:156-177 | A value that is no array is kept at every depth, a hole dropped. |
| ArrayFlat.FlattenStops | src/builtins/BuiltinArray.cpp:166-177 | At depth zero or below, exactly the present elements remain, in order. |
| ArrayFlat.FlattensOnce | src/builtins/BuiltinArray.cpp:2185-2197 | An example at the default depth, with a hole inside the nested array. |
| ArrayFlat.FlattenInTwoParts | src/builtins/BuiltinArray.cpp:2185-2197 | Flattening a, and b behind it, writes what flattening a + b writes. |
| ArrayFlat.FlattenTwice | src/builtins/BuiltinArray.cpp:2185-2197 | Flattening to depth c and then to depth d is flattening to depth c + d. |
| ArrayFlat.FlattenAll | src/builtins/BuiltinArray.cpp:2185-2197 | With infinite depth no array is left. |
| ArrayMap.Map | src/builtins/BuiltinArray.cpp:1714-1799 | Fast path, bail-out and slow loop together make the same calls and build the same result as the plain loop, for a callback that may switch the mode of the source, resize or rewrite it at any call. |
| ArrayMap.MapSlow | src/builtins/BuiltinArray.cpp:1774-1799 | Jumping over holes changes neither calls nor result. |
| ArrayMap.MapExplained | src/builtins/BuiltinArray.cpp:1714-1799 | Every run has a trace: call i is made in the state the previous call left, for the element that state holds at its index; the result holds what each call returned; an index without a call was a hole when its turn came. |
| ArrayMap.CallsInOrder | src/builtins/BuiltinArray.cpp:1714-1799 | Whatever the callback does, calls come at most once per index, in increasing order, within the original length. |
| ArrayMap.PureCallback | src/builtins/BuiltinArray.cpp:1714-1799 | With a callback that changes nothing the result is the element-wise image, holes kept. |
| ArrayFromAsync.RunIterator | src/builtins/BuiltinArray.cpp:412-552 | For every sequence of await outcomes the staged worker ends where the sequential loop does; exactly the elements before k are stored, each with the value its delivery provides (the awaited mapped value, or the value read from the awaited result); where it waits is decided by the number of deliveries. |
| ArrayFromAsync.IteratorRecord.Await | src/builtins/BuiltinArray.cpp:542-552 | The stage is set, then PromiseResolve runs: a reaction is registered exactly when it does not throw. |
| ArrayFromAsync.IteratorRecord.Top | src/builtins/BuiltinArray.cpp:434-448 | From label Stage6 to the first await: keeps stages in {0,2,4,6} and at most one reaction or settlement, and agrees with a turn of the loop. |
| ArrayFromAsync.IteratorRecord.AfterNext | src/builtins/BuiltinArray.cpp:449-489 | From label Stage2: the same, for reading an awaited iterator result. |
| ArrayFromAsync.IteratorRecord.Store | src/builtins/BuiltinArray.cpp:496-513 | Defines element k, or closes and rejects; the same invariant and agreement. |
| ArrayFromAsync.IteratorRecord.Resume | src/builtins/BuiltinArray.cpp:412-515 | Jumping to the label named by the stage continues the loop at that await. |
| ArrayFromAsync.IteratorRecord.Deliver | src/builtins/BuiltinArray.cpp:517-540 | One promise reaction advances the operation by exactly one delivery. |
| ArrayFromAsync.RunArrayLike | src/builtins/BuiltinArray.cpp:590-680 | The same refinement for array-likes, with stages in {0,1,2}; element i is the value of the delivery that was awaited for it. |
| FromAsyncTurns.TurnBegins | src/builtins/BuiltinArray.cpp:434-448 | The start of a turn in terms of the user code: too many elements, a throwing next, a promise that cannot be awaited, or the first await. |
| FromAsyncTurns.ResultEnds | src/builtins/BuiltinArray.cpp:449-470 | An awaited result that ends the run: a rejection closes and rejects; a non-object and a throwing done or value are lost; done sets the length and resolves, or rejects if that throws. |
| FromAsyncTurns.ResultGoesOn | src/builtins/BuiltinArray.cpp:472-513 | An awaited result with a value: the mapper is called with that value and the index, or the value is defined at the index. |
| FromAsyncTurns.MappedGoesOn | src/builtins/BuiltinArray.cpp:490-513 | The awaited mapped value is defined at the index; a rejection or a throw closes and rejects. |
| FromAsyncTurns.Completes | src/builtins/BuiltinArray.cpp:412-552 | A run of n turns in which nothing throws, followed by a result that is done, resolves with exactly the n values its deliveries provide, without closing the iterator. |
| FromAsyncTurns.ElementBegins | src/builtins/BuiltinArray.cpp:601-650 | The head of the array-like loop in terms of the user code. |
| FromAsyncTurns.ElementGoesOn | src/builtins/BuiltinArray.cpp:613-641 | An awaited element is given to the mapper with its index, or defined; the next one is read at once. |
| FromAsyncTurns.ArrayLikeCompletes | src/builtins/BuiltinArray.cpp:590-680 | If nothing throws, the run over an array-like resolves with exactly its length many provided values. |
| ArrayFromAsync.ArrayLikeRecord.Await | src/builtins/BuiltinArray.cpp:670-680 | The stage is set, then PromiseResolve runs: a reaction is registered exactly when it does not throw. |
| ArrayFromAsync.ArrayLikeRecord.Head | src/builtins/BuiltinArray.cpp:599-651 | Reads and awaits the next element, or sets the length and resolves. |
| ArrayFromAsync.ArrayLikeRecord.Store | src/builtins/BuiltinArray.cpp:636-641 | Defines element k and goes on without giving way. |
| ArrayFromAsync.ArrayLikeRecord.Resume | src/builtins/BuiltinArray.cpp:590-651 | Jumping to the label named by the stage continues the loop at that await. |
| ArrayFromAsync.ArrayLikeRecord.Deliver | src/builtins/BuiltinArray.cpp:653-668 | One promise reaction advances the operation by exactly one delivery. |
| FromAsyncRuns.RunStores | src/builtins/BuiltinArray.cpp:412-552 | In every run over an iterator, at every suspension and on success, the elements before k and only those are stored: element i is the value of delivery 3i+1 when mapping, and the value read from delivery 2i otherwise. |
| FromAsyncRuns.ArrayLikeRunStores | src/builtins/BuiltinArray.cpp:590-680 | The same over an array-like: after the first delivery, element i is the value of delivery 2i+1 when mapping, and of delivery i otherwise. |
| FromAsyncRuns.WaitsAt | src/builtins/BuiltinArray.cpp:412-552 | A run with d deliveries that waits for a result of next has stored d/3 elements when mapping and d/2 otherwise; the other two places follow one delivery later and earlier. |
| FromAsyncLost.IterateContinues | src/builtins/BuiltinArray.cpp:412-552 | The loop can be cut at every await: one more delivery continues from the outcome so far. |
| FromAsyncLost.DeliveryLostIff | src/builtins/BuiltinArray.cpp:434-489 | One delivery is lost if and only if the iterator result cannot be read, the mapper returns a promise that cannot be awaited, or a later next throws or returns such a promise. |
| FromAsyncLost.RunLostIff | src/builtins/BuiltinArray.cpp:412-552 | A whole run leaves the promise pending for ever if and only if one of its deliveries meets that guard. |
| FromAsyncLost.TameNeverLost | src/builtins/BuiltinArray.cpp:412-552 | If next and the mapper behave and every delivered result can be read, no run is lost. |
| FromAsyncLost.SecondThrowIsLost | src/builtins/BuiltinArray.cpp:434-448 | An iterator that throws at its second next: the error is lost, although at the first next it rejects the promise. |
| FromAsyncLost.ArrayLikeContinues | src/builtins/BuiltinArray.cpp:590-680 | The array-like loop can be cut at every await. |
| FromAsyncLost.ElementLostIff | src/builtins/BuiltinArray.cpp:590-651 | One delivery is lost if and only if storing the element throws, or what is awaited next, element or mapped value, cannot be awaited. |
| FromAsyncLost.ArrayLikeRunLostIff | src/builtins/BuiltinArray.cpp:590-680 | A whole run over an array-like is lost if and only if one of its deliveries meets that guard. |
| FromAsyncStandard.EngineIsStandardIff | src/builtins/BuiltinArray.cpp:412-552 | Whatever other jobs do in the pauses, the engine does what the loop of section 23.1.2.2 says (outcome, error, stored elements, whether the iterator is closed) after every delivery, if and only if no delivery meets the guard: a rejected or unreadable result, a promise that cannot be awaited, a close that replaces the error, or a next turn that cannot be started in the state after the pause or in the state before it. |
| FromAsyncStandard.AgreesIff | src/builtins/BuiltinArray.cpp:412-552 | The same from any turn on, whatever states the engine and the standard start it in. |
| FromAsyncStandard.EngineEndsAsStandardIff | src/builtins/BuiltinArray.cpp:412-552 | When no pause changes whether next can be called and awaited, a run also ends as the standard says if and only if no delivery meets the guard. |
| FromAsyncStandard.JobInPauseBreaksNext | src/builtins/BuiltinArray.cpp:508-513 | A job that runs in a pause makes next throw: the engine loses the error, the standard has gone on to await the next result. |
| FromAsyncStandard.StandardReads | src/builtins/BuiltinArray.cpp:449-470 | What the standard's loop does with an awaited result, in terms of the user code: whatever goes wrong in reading it rejects without closing. |
| FromAsyncStandard.StandardGoesOn | src/builtins/BuiltinArray.cpp:472-507 | And with a value: a throwing mapper, a promise that cannot be awaited and a throwing definition close and reject with that error. |
| FromAsyncStandard.RejectedNextCloses | src/builtins/BuiltinArray.cpp:526-540 | A rejected result of next: the engine closes the iterator and the standard does not. |
| FromAsyncStandard.CloseReplacesError | src/builtins/BuiltinArray.cpp:683-701 | The mapper throws: the engine rejects with what closing throws, the standard with the error of the mapper. |
| FromAsyncStandard.UnresolvableIsLost | src/runtime/PromiseObject.cpp:234-253 | The mapper returns a promise whose constructor cannot be read: the engine loses the error, the standard closes and rejects. |
| FromAsyncStandard.ArrayLikeIsStandardIff | src/builtins/BuiltinArray.cpp:590-680 | Whatever other jobs do in the opening pause, the engine does what the standard says after every delivery if and only if the first read (or, for length zero, setting the length) goes alike in both states and no delivery loses the run. |
| FromAsyncStandard.ArrayLikeEndsAsStandardIff | src/builtins/BuiltinArray.cpp:590-680 | When the opening pause hides nothing, a run ends as the standard says if and only if no delivery loses it. |
| IteratorHelpers.Collect | src/builtins/BuiltinIterator.cpp:988-1011 | Building any finite nesting of helpers and pulling it to the end yields exactly the list it denotes. |
| IteratorHelpers.CollectTake | src/builtins/BuiltinIterator.cpp:746-783 | Collecting a take closes the underlying iterator exactly once if it has at least as many values as the limit, and never otherwise. |
| IteratorHelpers.ToArray | src/builtins/BuiltinIterator.cpp:988-1011 | From any state, pulling yields exactly the values still to come, and terminates; of a take it also says whether the iterator was closed. |
| IteratorHelpers.Drive | src/builtins/BuiltinIterator.cpp:263-301 | After any sequence of next and return calls, in the driven helper and in every helper below it: each record was closed at most once and, except in a concatenation, never after it reported done; in a flatMap all inner records but the latest are done and the alive flag holds exactly when an inner iterator is set. |
| IteratorHelpers.NextAfterReturn | src/runtime/IteratorObject.cpp:704-712 | In every state, next after return yields done exactly when nothing is left below; a sealed pipeline always does, a transparent one never notices. |
| IteratorHelpers.CollectAfterReturn | src/builtins/BuiltinIterator.cpp:271-301 | What a pipeline yields when return is the first call on it. |
| IteratorLists.LeftOverExtremes | src/builtins/BuiltinIterator.cpp:271-301 | Nothing is left of a sealed pipeline, everything of a transparent one. |
| IteratorLists.MapFromAt | src/builtins/BuiltinIterator.cpp:325-357 | The mapped list: each value with its own position. |
| IteratorLists.FilterFromEnd | src/builtins/BuiltinIterator.cpp:458-496 | The filtered list: a value is kept exactly when the predicate holds of it and its position. |
| IteratorLists.TakeDropCut | src/builtins/BuiltinIterator.cpp:746-925 | Taking and dropping cut a list at the limit. |
| IteratorLists.FlatFromEnd | src/builtins/BuiltinIterator.cpp:1014-1098 | The flat-mapped list: each value adds the list chosen for it and its position. |
| IteratorHelpers.Record.Step | src/runtime/IteratorObject.cpp:346-374 | Yields the next value and does not touch the done flag. |
| IteratorHelpers.Record.Close | src/runtime/IteratorObject.cpp:405-430 | Calls return on the iterator once; what it has left afterwards is what was determined before. |
| IteratorHelpers.Iter.Next | src/builtins/BuiltinIterator.cpp:263-269 | Every helper yields the head of what it stands for and then stands for the tail; only a take at its limit closes anything. |
| IteratorHelpers.Iter.NextMap | src/builtins/BuiltinIterator.cpp:325-357 | The same for map, with the counter equal to the position in the underlying iterator. |
| IteratorHelpers.Iter.NextFilter | src/builtins/BuiltinIterator.cpp:458-496 | The same for filter, with a loop that terminates because the underlying list shrinks. |
| IteratorHelpers.Iter.TryFilter | src/builtins/BuiltinIterator.cpp:475-496 | One turn: ends, yields, or skips one value. |
| IteratorHelpers.Iter.NextTake | src/builtins/BuiltinIterator.cpp:746-783 | The same for take, finite or infinite limit; a used-up limit closes, otherwise the record is stepped and the limit lowered. |
| IteratorHelpers.Iter.EndTake | src/builtins/BuiltinIterator.cpp:763-770 | The used-up limit flags and closes the underlying iterator unless it is done, and marks the helper done. |
| IteratorHelpers.Iter.NextDrop | src/builtins/BuiltinIterator.cpp:880-925 | The same for drop. |
| IteratorHelpers.Iter.SkipDropped | src/builtins/BuiltinIterator.cpp:895-909 | The dropping loop terminates, also for an infinite count, and drops exactly the remaining count. |
| IteratorHelpers.Iter.NextFlatMap | src/builtins/BuiltinIterator.cpp:1014-1098 | The same for flatMap; outer list and inner flag together decrease. |
| IteratorHelpers.Iter.NextInner | src/builtins/BuiltinIterator.cpp:1044-1061 | Yields from the inner iterator, or flags and forgets it. |
| IteratorHelpers.Iter.OpenNext | src/builtins/BuiltinIterator.cpp:1063-1096 | Takes one outer value and opens what the callback maps it to, or ends. |
| IteratorHelpers.Iter.NextConcat | src/builtins/BuiltinIterator.cpp:70-117 | The same for concat. |
| IteratorHelpers.Iter.OpenPart | src/builtins/BuiltinIterator.cpp:76-89 | Opening the current iterable changes nothing of what is still to come. |
| IteratorHelpers.Iter.NextPart | src/builtins/BuiltinIterator.cpp:91-113 | Yields from the current iterator, or moves on to the next iterable. |
| IteratorHelpers.Iter.Return | src/builtins/BuiltinIterator.cpp:271-301 | Closes exactly the records that are not flagged, once each and in list order; leaves a finished helper alone; the exact list that is left. |
| IteratorHelpers.Iter.CloseAll | src/builtins/BuiltinIterator.cpp:288-294 | Every record that was not flagged is flagged and closed, in list order; the others are untouched. |
| IteratorHelpers.ReturnInOrder | src/builtins/BuiltinIterator.cpp:288-294 | On an unfinished flatMap the outer record is closed first, then the inner one if it is alive. |
| IteratorHelpers.ReturnClosesOuterFirst | src/builtins/BuiltinIterator.cpp:271-301 | Build a flatMap, take one value, return: the outer iterator is closed before the live inner one. |
| IteratorHelpers.ConcatClosesFinished | src/builtins/BuiltinIterator.cpp:91-104 | Build a concatenation of an empty and a one-element list, take the value, return: the iterator that had reported done is closed. |
| IteratorStates.FilterSteps | src/builtins/BuiltinIterator.cpp:475-496 | A filter's meaning after one underlying value, selected or not. |
| IteratorStates.TakeClosesIff | src/builtins/BuiltinIterator.cpp:746-783 | While a take yields nothing is closed; when it ends, its iterator has been closed once if the limit stopped it and not at all otherwise. |
| IteratorStates.FlatYields | src/builtins/BuiltinIterator.cpp:1044-1061 | A flatMap keeps its meaning and its records' discipline when the inner iterator yields. |
| IteratorStates.FlatForgets | src/builtins/BuiltinIterator.cpp:1053-1057 | The same when the inner iterator is exhausted. |
| IteratorStates.FlatEnds | src/builtins/BuiltinIterator.cpp:1063-1070 | The same when the outer iterator is exhausted, and nothing was left. |
| IteratorStates.FlatOpens | src/builtins/BuiltinIterator.cpp:1072-1096 | The same when an inner iterator is opened. |
| IteratorStates.ChainYields | src/builtins/BuiltinIterator.cpp:91-104 | A concatenation keeps its meaning when the current iterator yields. |
| IteratorStates.ChainMoves | src/builtins/BuiltinIterator.cpp:96-100 | The same when the current iterator is exhausted. |
| IteratorStates.ChainOpens | src/builtins/BuiltinIterator.cpp:76-89 | The same when the next iterable is opened. |
| IteratorStates.ReturnKeeps | src/builtins/BuiltinIterator.cpp:285-296 | After return a helper stands for exactly what its closed records leave. |
| IteratorStates.ReturnFlat | src/builtins/BuiltinIterator.cpp:285-296 | The same for flatMap, whose inner record is closed too. |
| IteratorStates.ReturnChain | src/builtins/BuiltinIterator.cpp:285-296 | A concatenation closes every record it opened once; one is closed late exactly when it comes before the current one. |
| IteratorStates.ReturnOrderIff | src/builtins/BuiltinIterator.cpp:288-294 | Closing follows the order of ECMA-262 if and only if no inner iterator of a flatMap is alive and a concatenation is still at its first part. |
| IteratorStates.DisciplineKept | src/builtins/BuiltinIterator.cpp:271-301 | What the invariant of each kind of helper says about its records. |
| IteratorStates.ReturnDoesNotEnd | src/runtime/IteratorObject.cpp:704-712 | A mapped one-element list that still yields its value when return is called first. |
| BigIntBits.AndMaskIsMod | src/builtins/BuiltinBigInt.cpp:68-88 | AND with 2^n - 1 is the Euclidean remainder, for every integer. |
| BigIntBits.AndBits | src/builtins/BuiltinBigInt.cpp:68-88 | AND is bitwise on infinite two's complement. |
| BigIntBits.PowBit | src/builtins/BuiltinBigInt.cpp:68-119 | 2^n has exactly bit n set. |
| BigIntBits.AsUintN | src/builtins/BuiltinBigInt.cpp:68-88 | The congruent value in [0, 2^n), or a RangeError exactly when the bit count is not an integer from 0 to 2^53 - 1. |
| BigIntBits.AsIntN | src/builtins/BuiltinBigInt.cpp:90-119 | The congruent value in [-2^(n-1), 2^(n-1)), zero for no bits, or a RangeError exactly when the bit count is not an integer from 0 to 2^53 - 1. |
| BigIntBits.ReadingsUnique | src/builtins/BuiltinBigInt.cpp:68-119 | Both results are determined by those properties. |
| BigIntBits.TruncateFirst | src/builtins/BuiltinBigInt.cpp:68-119 | Truncating to m bits first, signed or unsigned, changes no reading of n bits with n at most m. |

## Left out

- Property descriptors, getters, prototype chains and species constructors: elements are own data properties and results are fresh arrays. `join` looks at own elements only.
- Proxies appear only as objects that are not ordinary; traps with side effects do not.
- The 2^32 - 1 limit on array lengths, the maximum string length and rounding of doubles: lengths and indices are integers, with infinities where arguments allow them.
- `sort` and `toSorted`: the sorting algorithm is outside these files.
- The protocol of wait and notify is modelled on values, as a transition system, because its steps interleave; only the body of one critical section (`WaiterQueue.Notify`) is an imperative method.
- Which agent belongs to which VM instance: a wait may name any instance, so every assignment is covered.
- Memory models weaker than sequential consistency, real clocks, and fairness: a timeout or a wakeup may happen at any time, and nothing says that it must.
- Coercion of the arguments of wait and notify, the choice between Int32 and BigInt64 cells, and notify on a buffer that is not shared.
- How the VM consumes finished asynchronous waits.
- Callbacks that throw in iterator helpers, and the error for calling a running helper again.
- Iterators that are not lists: a source is a finite list that either ends on `return` or ignores it.
- The preparation of `Array.fromAsync` before the worker starts, and a result object that is itself thenable.
- The limbs of the big-number library: `And`, multiplication and subtraction are exact integer operations.
- Date, DataView, ArrayBuffer, JSON, Proxy, ShadowRealm, generator and async-function built-ins, and all functions that only install properties.
- ArrayMap.Map: models the source array as part of an arbitrary script state and the result as a sequence, so that the result is not shared holds by construction.
