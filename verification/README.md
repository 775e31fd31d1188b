# Verification of lamlock, punyenc and the vdso-rng pool

A Dafny 4.11 model of three parts of the repository, with proofs of what they promise.
`dafny verify dfyconfig.toml` checks all of it.

**`lamlock`** is a flat-combining lock. Threads swap stack nodes into a tail, link themselves, and wait on a futex
word; one of them walks the chain, runs everybody's closures on the protected data, and then closes the chain and
releases the lock, or hands the still locked lock to a successor. `Machine.dfy` models it as an interleaved machine:
any number of stack slots, one step per atomic operation (loads, stores, swaps, compare-exchanges, the kernel wait and
the kernel wake), and two steps per closure, so that everything may happen while one runs. A slot's index is the
address of its node, and slots are used again, so that a wake on a stale address hits whatever lives there by then.
Both cargo variants are in it (`Mode`): with `std`, panics are caught and stored; without it, they unwind the combiner
and its `Bomb` cancels the queue. A `History` records tail swaps, executed closures, calls and returns; no step looks
at it. `Invariant.dfy` states the invariant, `Steps.dfy`, `OwnerSteps.dfy`, `CursorSteps.dfy` and `Runs.dfy` prove
that every step keeps it, and `Theorems.dfy` draws the conclusions about whole runs. `Access.dfy` proves which nodes a
step can read or write, and `Messages.dfy` how nodes are woken for the last time and how a queue is cancelled.
`Service.dfy` proves that a queued request is served however many others keep arriving, and `Answers.dfy` what each
call answers and what kills a lock. `Cells.dfy` has the objects of the lock as classes that are updated in place, tied
to the same atomic operations, with the fast path, the combining loop and `Bomb::drop` as methods. `Poison.dfy` adds
the poison flag on top.

**`punyenc`** encodes Punycode with a sort and a Fenwick tree in place of the rescans of RFC 3492. `Textbook.dfy` is
the encoder of section 6.3 of the RFC, `Decoder.dfy` the decoder of section 6.2, `Bootstring.dfy` the variable-length
integers and the bias. `RoundTrip.dfy` proves that decoding the textbook's output gives the input back; its invariant
reads the decoder's `n` and `i` as one number to the base `handled + 1`. `Fenwick.dfy` is the tree and `Punyenc.dfy`
the fast encoder in 64-bit arithmetic, which is proved to push the deltas that the textbook emits, under the same
biases. `Walk.dfy` has its loop invariants: the decoder stays behind the fast encoder as it does behind the textbook,
and every delta has a closed form over the sorted pairs. Additions that can overflow are checked: the encoder fails
exactly where a debug build of the original panics. `Vectors.dfy` proves known encodings.

**`vdso-rng`'s pool** rents out opaque state blocks. `Blocks.dfy` is the layout arithmetic, `Pool.dfy` the pool and
its clients updated in place, `PoolRuns.dfy` every interleaving of any number of clients (pops outside the lock,
growth inside it, one push at a time), `PoolTheorems.dfy` what holds in every run, and `PoolOutcomes.dfy` what a `get`
ends with.

Where code and comments differ, the model follows the code:

- `crates/punyenc/src/lib.rs:7-10` recalls that an encoder must signal overflow, but `delta += …` signals it only
  in builds with overflow checks. `Punyenc.Encode` fails exactly if `Punyenc.Overflows`: some delta, computed from
  the sorted pairs alone, is 2^64 or more. There are such inputs (`Punyenc.SomeInputOverflows`), but none of up to
  2^43 code points (`Punyenc.NeverOverflows`).
- `crates/vdso-rng/src/config.rs:37` always adds a page when the guessed size is a whole number of pages, and a
  block may still hold fewer states than there are CPUs, as with pages of 4096 bytes, states of 144 and 85 CPUs
  (`Blocks.OneStateMissing`). `Blocks.BlockTooSmall` says when: exactly if the gaps at the ends of all pages
  take more than the last page has to spare.
- `crates/vdso-rng/src/pool.rs:88` expects the loop in `get` to end because `mmaps` is locked. Others can pop the
  new states without the lock. The loop does end, because blocks are never more than clients and one
  (`PoolTheorems.GrowthBound`): `PoolTheorems.GetEnds` bounds the steps of every `get`.

## Model

| member | source | states |
|---|---|---|
| Theorems.RunGood | crates/lamlock/src/node.rs:95-170 | In every state of every run the lock's invariant holds, the executed closures are a prefix of the queue, nobody bypasses a waiting head except those who were there first, and no wake-up is lost. |
| Theorems.Linearizable | crates/lamlock/src/nonpoison.rs:50-98 | The protected memory is what the logged closures leave behind when run one after the other; each runs at most once; a request that got an outcome took effect at one place of the log between its call and its return, with that outcome; with `std` every answer is such an outcome; nobody reads an uninitialised result. |
| Theorems.RealTimeOrder | crates/lamlock/src/nonpoison.rs:131-143 | If one request returned before another was called, it took effect first. |
| Answers.AnswersExactly | crates/lamlock/src/nonpoison.rs:50-100 | What a request returns with, exactly: it unwinds if and only if its own thread was executing a queued closure that panicked, without `std`; otherwise it delivers the outcome of its closure, panic included, unless the closure never ran or panicked in the queue without `std`, and only then it is refused. |
| Answers.BrokenExactly | crates/lamlock/src/bomb.rs:30-56 | Only the panic of a queued closure, without `std`, kills a lock: it is dead, or its bomb is about to store POISONED, if and only if there was one. Until then, and always with `std`, every request that returns gets its outcome. |
| Answers.Uncontended | crates/lamlock/src/nonpoison.rs:131-143 | On a free lock with an empty queue a call executes its closure itself in five steps, returns the outcome, and leaves the lock free, also after a panic and in both variants. |
| Answers.RefusedAtOnce | crates/lamlock/src/rawlock.rs:51-61 | On a dead lock with an empty queue a call is refused in two steps, without joining the queue. |
| Theorems.NodeLifetime | crates/lamlock/src/node.rs:98-121 | Every node in `Touches` of a step belongs to a request that is still inside `attach`, at the very place of the queue the step is about: the predecessor at `store_next`, the cursor, the successor. After the swap of `notify` only the address is used. |
| Access.WritesOnly | crates/lamlock/src/node.rs:98-169 | A step changes the memory of no node but its own and those in `Touches`. |
| Access.ReadsOnly | crates/lamlock/src/node.rs:98-169 | Nor does the memory of another node make a difference to it: with anything else there, the lock, the protected memory and all other slots come out the same. |
| Theorems.NoStrayAccess | crates/lamlock/src/futex.rs:54-64 | Node lifetime without a table: memory that a step changes, or that makes a difference to it, is its own or the node of a request that has not returned, at the place the step is about. |
| OwnerSteps.PredecessorAlive | crates/lamlock/src/node.rs:98-100 | In the window between `swap_tail` and `store_next` the predecessor exists, has no link yet, and will not be woken for good. |
| Theorems.Fifo | crates/lamlock/src/node.rs:128-169 | The executed places of the queue are a prefix of all tail swaps, across closed chains and hand-overs, and ran in that order. |
| Theorems.CloseOnlyWhenDone | crates/lamlock/src/rawlock.rs:41-50 | Unless the lock is poisoned, `try_close` succeeds only when every node ever queued has executed. |
| Theorems.UsedOnce | crates/lamlock/src/nonpoison.rs:55-61 | A request that has returned gave up its closure once, to its execution or to its cancelled caller; with `std` its closure ran and it got its outcome. |
| Theorems.Ownership | crates/lamlock/src/rawlock.rs:51-69 | `status` is LOCKED exactly when someone owns the lock, a waiter already sent HEAD included; owners are unique; closures run only under ownership and on memory nobody else has changed since they started; at most one head races in `acquire`. |
| Theorems.NoLostWakeUp | crates/lamlock/src/futex.rs:30-64 | A parked thread's word is SLEEPING or someone is about to make a kernel wake on its address; however it is woken, it leaves the wait only with DONE, HEAD or POISONED in its word, and then does what `attach` does with that message. |
| Messages.WakesSleepers | crates/lamlock/src/futex.rs:54-64 | A kernel wake is asked for only by a thread that has just taken the word from SLEEPING. |
| Messages.CombinesWhileLinked | crates/lamlock/src/node.rs:128-169 | A combiner closes the queue, or hands the lock over, only after it found its cursor without a successor: as long as there is a link it executes the next closure. |
| Theorems.SpinsUnderTail | crates/lamlock/src/node.rs:155-167 | A combiner that waits for its successor's link sees a tail, as the debug assertion demands. |
| Theorems.BoundedBypass | crates/lamlock/src/nonpoison.rs:136-142 | While the head of the open chain has not started, only closures of requests that held the lock on the fast path, or had already seen an empty tail when it joined, are executed. |
| Messages.PoisonIsForever | crates/lamlock/src/bomb.rs:33-34 | Once POISONED is stored it stays, no closure starts, goes on or ends any more, and the protected memory stays as it is. |
| Messages.WokenOnce | crates/lamlock/src/bomb.rs:35-55 | No two steps of a run, of the combiner or the bomb, send the last message to the same node. |
| Messages.WokenBy | crates/lamlock/src/node.rs:135-152 | A node that has been woken for good was sent its last message by some step. |
| Messages.LastMessages | crates/lamlock/src/bomb.rs:35-55 | What a node is told last never changes: DONE if its closure ran to its end, and POISONED, only without `std`, if its closure never runs or its panic took the queue down. |
| Messages.RunDoomed | crates/lamlock/src/bomb.rs:33-55 | No node is told POISONED before the lock is poisoned. |
| Theorems.BoundedWork | crates/lamlock/src/node.rs:98-169 | Without new calls, all threads together make at most as many non-spinning steps as the measure at the start, plus two for each spurious wake. |
| Progress.StepDrops | crates/lamlock/src/rawlock.rs:62-69 | Every step either spins and changes nothing, or lowers the measure. |
| Progress.NoDeadlock | crates/lamlock/src/node.rs:98-169 | As long as a request has not returned, some thread has a step that does not spin. |
| Service.JoinAwaits | crates/lamlock/src/node.rs:98-100 | A node awaits its execution from its tail swap on, until a thread reaches it. |
| Service.BoundedService | crates/lamlock/src/node.rs:128-169 | Service under load: while a queued place awaits its execution, the requests that were called before make at most as many non-spinning steps as their measure at the start, plus two for each of their spurious wakes, however many others call, queue and wait meanwhile. |
| Service.AlwaysServed | crates/lamlock/src/node.rs:155-167 | All that time one of those requests has a step that does not spin, except that a bomb which has come to the place itself may wait for a later node behind it, whose thread is about to link it. |
| Service.AwaitsUntil | crates/lamlock/src/bomb.rs:33-55 | The wait ends with the execution of the closure or, only when the lock is poisoned, with the message POISONED, or one step of a bomb before it. |
| Service.Told | crates/lamlock/src/bomb.rs:43-47 | That step can be made, and sends POISONED. |
| Theorems.Quiescence | crates/lamlock/src/node.rs:146-153 | When no thread can go on, every request has returned, every node has been woken for good, the queue is empty and the lock is free or poisoned. |
| Runs.NextOk | crates/lamlock/src/node.rs:95-170 | Every step of every thread keeps the invariant. |
| OwnerSteps.EnqueueOk | crates/lamlock/src/rawlock.rs:36-39 | Swapping a node into the tail keeps the invariant, also while an earlier chain is closed but not released. |
| OwnerSteps.LinkOk | crates/lamlock/src/node.rs:89-100 | Linking the node to its predecessor keeps the invariant. |
| OwnerSteps.HeadOk | crates/lamlock/src/node.rs:111-121 | A waiter that has been sent HEAD becomes the combiner, at the first place nobody has reached. |
| OwnerSteps.AcquireOk | crates/lamlock/src/node.rs:123-126 | The head of a chain that acquires the lock becomes the combiner of its chain. |
| OwnerSteps.FastRunOk | crates/lamlock/src/nonpoison.rs:136-140 | A closure that ends on the fast path extends the log by one sequential step. |
| OwnerSteps.UnlockOk | crates/lamlock/src/node.rs:146-152 | Releasing after a closed chain keeps the invariant, also when the next chain already has a head. |
| CursorSteps.BeginOk | crates/lamlock/src/nonpoison.rs:50-61 | Moving the cursor's closure out of its slot keeps the invariant: it was still there. |
| CursorSteps.ExecuteOk | crates/lamlock/src/nonpoison.rs:63-67 | A closure that ends under the combiner extends the log by one sequential step, and stores its outcome unless it unwinds. |
| CursorSteps.PassOk | crates/lamlock/src/node.rs:135-141 | Waking the cursor for the last time and moving on to its successor keeps the invariant, for the combiner (DONE) and for the bomb (POISONED). |
| CursorSteps.ShutOk | crates/lamlock/src/rawlock.rs:41-50 | Closing the tail keeps the invariant. |
| CursorSteps.PromoteOk | crates/lamlock/src/node.rs:155-158 | Sending HEAD moves the locked lock to the successor. |
| CursorSteps.LastOk | crates/lamlock/src/node.rs:146-152 | The last notification of a combiner or a bomb keeps the invariant. |
| CursorSteps.PoisonOk | crates/lamlock/src/rawlock.rs:71-74 | Storing POISONED keeps the invariant, whether a closure unwound or the lock was refused. |
| Steps.ReturnOk | crates/lamlock/src/nonpoison.rs:78-98 | What a request returns with is what its node holds, and a closure that was not consumed is dropped by its caller. |
| Progression.NextKept | crates/lamlock/src/node.rs:128-169 | No step undoes a run, an answer, a link, or a last message. |
| Effects.NoLostWakeOk | crates/lamlock/src/futex.rs:54-64 | Every step keeps: parked with a word other than SLEEPING means that a kernel wake is coming. |
| Order.InOrderOk | crates/lamlock/src/node.rs:134-144 | Every step keeps the executed places a prefix of the queue, in its order. |
| Order.NoBypassOk | crates/lamlock/src/nonpoison.rs:136-142 | Every step keeps the bypass bound. |
| Cells.RawLock.SwapTail | crates/lamlock/src/rawlock.rs:36-39 | In place: the machine's `SwapTail`. |
| Cells.RawLock.TryClose | crates/lamlock/src/rawlock.rs:41-50 | In place: closes exactly if the tail is the expected node. |
| Cells.RawLock.TryAcquire | crates/lamlock/src/rawlock.rs:51-61 | In place: the machine's `TryAcquire`, with the refusal of a poisoned lock only without `std`. |
| Cells.RawLock.HasTail | crates/lamlock/src/rawlock.rs:32-34 | Whether the queue is open. |
| Cells.RawLock.Poison | crates/lamlock/src/rawlock.rs:71-74 | In place: only `status` changes. |
| Cells.RawLock.Release | crates/lamlock/src/rawlock.rs:76-78 | In place: only `status` changes; also all of `UnlockGuard`'s drop. |
| Cells.Node.Notify | crates/lamlock/src/futex.rs:54-64 | In place: publishes the message and asks for a kernel wake exactly if the word was SLEEPING. |
| Cells.Node.FallAsleep | crates/lamlock/src/node.rs:39-51 | In place: WAITING becomes SLEEPING, and any message that is already there is reported and kept. |
| Cells.Node.Look | crates/lamlock/src/node.rs:101-110 | In place, with another thread that may notify before any look: the first message is returned and kept, no kernel wake is asked for, and the thread goes to sleep exactly if none has come. |
| Cells.Node.Execute | crates/lamlock/src/nonpoison.rs:50-68 | In place: the closure is consumed and its outcome stored, except for a panic without `std`, which unwinds and leaves no result. |
| Cells.TryRun | crates/lamlock/src/nonpoison.rs:131-143 | The fast path: with an empty queue and a free lock the closure runs at once and the lock is free again, also after a panic; otherwise nothing happens and the request queues, or is refused by a poisoned lock. |
| Cells.Join | crates/lamlock/src/node.rs:98-100 | Tail swap and link: the chain is extended at its end by the node, which heads it if there was none. |
| Cells.Serve | crates/lamlock/src/node.rs:128-144 | The combining loop on a chain: it runs the closures in order, the memory is their sequential replay, every node but the last reached holds its outcome and DONE, and it stops early exactly at a panic that unwinds. |
| Cells.Lead | crates/lamlock/src/node.rs:128-153 | Combining to the end: all nodes DONE with their outcomes, tail closed and lock free; or, without `std`, the panicking node and all after it POISONED with their closures still there, tail closed and lock dead. |
| Cells.DropBomb | crates/lamlock/src/bomb.rs:33-55 | `Bomb::drop` in place: lock dead, tail closed, every node from the failing one to the tail POISONED, and a kernel wake exactly for those that were SLEEPING. |
| Poison.Lock.Run | crates/lamlock/src/poison.rs:89-107 | In place, the flag raised around the closure: the same memory and outcome as `Program(Run(f))`, the closure that the machine serializes. |
| Poison.Lock.Poison | crates/lamlock/src/poison.rs:34-45 | In place: the same memory and outcome as its program. |
| Poison.Lock.TryUnpoison | crates/lamlock/src/poison.rs:54-68 | In place: the same memory and outcome as its program. |
| Poison.OneTask | crates/lamlock/src/poison.rs:34-107 | One task sets, keeps or clears the flag by its outcome; a poisoned lock rejects everything but a recovery and leaves the data alone; a healthy lock ignores a recovery. |
| Poison.FlagHistory | crates/lamlock/src/poison.rs:34-107 | At every task boundary the flag is set if and only if some task panicked or `poison` succeeded with no later `try_unpoison` that answered true. |
| Poison.WhilePoisoned | crates/lamlock/src/poison.rs:96-99 | While the flag is set, `run` is rejected whatever its closure is, and the data changes only by what a recovery's closure does to it. |
| Poison.RejectedUntilRecovered | crates/lamlock/src/poison.rs:47-68 | From a panic on, everything but a recovery is rejected until a recovery answers true. |
| Poison.PoisonHistory | crates/lamlock/src/poison.rs:34-107 | In every run of the lock, however requests interleave, the flag says exactly that; and a request that was rejected ran while it was set. |
| Bootstring.DigitToChar | crates/punyenc/src/lib.rs:21-28 | The digit's character has that digit-value, is a lower-case letter or a decimal digit, and is not the delimiter. |
| Bootstring.ReadsBack | crates/punyenc/src/lib.rs:44-63 | Reading an integer written under any bias, as in section 3.3 of RFC 3492, gives that integer and leaves exactly the text after it. |
| Bootstring.VlqLength | crates/punyenc/src/lib.rs:44-63 | It has at most one digit more than it has in decimal. |
| Bootstring.AdaptIs | crates/punyenc/src/lib.rs:31-40 | The adapted bias in numbers: damped by 700 the first time and by 2 later, plus its share, divided by 35 as often as it takes to come down to 455, 36 for each division and `36 * e / (e + 38)` for what is left. |
| Bootstring.AdaptBound | crates/punyenc/src/lib.rs:31-40 | The adapted bias stays far below the delta it comes from. |
| Punyenc.Adapt | crates/punyenc/src/lib.rs:31-40 | In 64-bit arithmetic, without overflow: the bias adaptation of section 6.1 of RFC 3492. |
| Punyenc.PushDelta | crates/punyenc/src/lib.rs:44-63 | In 64-bit arithmetic, without overflow: appends the spelling of the delta under the bias. |
| RoundTrip.DeltasRebuild | crates/punyenc/src/lib.rs:130-176 | The decoder's machine, driven by the textbook's deltas alone, rebuilds the input; `Punyenc.Encode` ensures it of the deltas that the fast encoder pushes. |
| RoundTrip.DeltasBounded | crates/punyenc/src/lib.rs:5-10 | Every delta of the textbook, and by `Punyenc.Encode` every delta pushed, is below 0x110000 times the length of the input. |
| RoundTrip.DelimiterFound | crates/punyenc/src/lib.rs:84-97 | The last `-` of the textbook's output, and so of the fast encoder's, is the delimiter if there is a basic code point, and there is no `-` otherwise. |
| RoundTrip.DecodeEncode | crates/punyenc/src/lib.rs:80-179 | For every sequence of code points, the decoder of section 6.2 of RFC 3492 turns the textbook's output into exactly that sequence; `Punyenc.Encode` ensures it of the fast encoder's output. |
| RoundTrip.Injective | crates/punyenc/src/lib.rs:80-179 | Different inputs have different textbook encodings, which are the ones the fast encoder writes. |
| Vectors.Umlauts | crates/punyenc/src/lib.rs:80-179 | "öü" is "ndam". |
| Vectors.Books | crates/punyenc/src/lib.rs:186-189 | "bücher" is "bcher-kva". |
| Vectors.Chinese | crates/punyenc/src/lib.rs:236-240 | The simplified Chinese sample of section 7.1 of RFC 3492 is "ihqwcrb4cv8a8dqg056pqjye". |
| Fenwick.Tree.FromIter | crates/punyenc/src/lib.rs:116-128 | One pass, each of the `n` nodes added to its parent once, builds a valid tree of the items. |
| Fenwick.Tree.PrefixSum | crates/punyenc/src/lib.rs:156 | The sum over the positions before the index, from as many nodes as the index has binary ones. |
| Fenwick.Tree.AddAt | crates/punyenc/src/lib.rs:172-175 | One position changes, the tree stays valid, and no more nodes are visited than the length has binary digits. |
| Fenwick.EdgeStep | crates/punyenc/src/lib.rs:120-123 | A node's children are completed in the order in which the single pass reaches them. |
| Punyenc.IndexAgrees | crates/punyenc/src/lib.rs:116-128 | What the tree answers at `p` is the number of positions left of `p` whose code point is below `m`; at the end of the input, `placed_below_m`. |
| Pairs.Sorts | crates/punyenc/src/lib.rs:99-109 | The sort permutes the pairs into strictly ascending order. |
| Pairs.NextIsLeast | crates/punyenc/src/lib.rs:136-142 | The next pair holds the value that a scan for the least remaining code point finds. |
| Pairs.NoneBetween | crates/punyenc/src/lib.rs:151-155 | No occurrence of the value lies between the last one visited and the next pair. |
| Walk.SkipTracks | crates/punyenc/src/lib.rs:154-157 | Up to the next occurrence the decoder stays exactly `delta` states behind, when `delta` grows by the difference of two prefix counts. |
| Walk.NextEmission | crates/punyenc/src/lib.rs:154-163 | The textbook's sweep emits next at that pair, with the delta grown by the difference of two prefix counts, which is the delta of the closed form; the decoder lands on the pair, and the invariant of the inner loop holds again. |
| Walk.GroupFinishes | crates/punyenc/src/lib.rs:166-170 | After the last occurrence, the textbook's delta is `placed_below_m - prev_c` larger, and the carry into the next value keeps the decoder as far behind: the invariant of the outer loop holds again. |
| Walk.PendingBound | crates/punyenc/src/lib.rs:136-141 | At the head of the outer loop, the pending delta is below `(n + 1) * (handled + 1)`. |
| Walk.ClosedForm | crates/punyenc/src/lib.rs:136-176 | There is one delta for each sorted pair, and it is the distance between the values times the length reached, plus the difference of two counts. |
| Punyenc.EncodePair | crates/punyenc/src/lib.rs:154-163 | One occurrence in 64-bit arithmetic: what is pushed, the bias and the counters are those of the textbook's next emission, unless its delta does not fit. |
| Punyenc.EncodeGroup | crates/punyenc/src/lib.rs:151-164 | The inner loop: the same state as the textbook's sweep, or a delta that does not fit. |
| Punyenc.PlaceGroup | crates/punyenc/src/lib.rs:172-175 | After the group, the tree counts the positions below the next value. |
| Punyenc.Encode | crates/punyenc/src/lib.rs:80-179 | The deltas pushed, with their biases, and the output are the textbook's; the decoder turns the output, and its machine the deltas, into exactly the input; the encoder fails, by an overflow, if and only if some pair has a delta of 2^64 or more. No subtraction underflows. It visits at most `n * (2 * b + 1)` nodes of the tree, `b` being the number of binary digits of the length `n`. |
| Punyenc.OverflowsAsTextbook | crates/punyenc/src/lib.rs:5-10 | Some pair's closed form is 2^64 or more if and only if the textbook emits such a delta. |
| Punyenc.SomeInputOverflows | crates/punyenc/src/lib.rs:139-141 | It happens: 2^44 letters followed by the last code point. |
| Punyenc.NeverOverflows | crates/punyenc/src/lib.rs:5-10 | It does not happen for up to 2^43 code points. |
| Blocks.NewConfig | crates/vdso-rng/src/config.rs:34-46 | The given page and state sizes are kept; whole pages that hold more than the guessed bytes and at most one page more; as many states as fit into a page. |
| Blocks.BlockServesEveryCpu | crates/vdso-rng/src/config.rs:35-39 | If the state size divides the page size, a block has a state for every CPU and one to spare. |
| Blocks.BlockTooSmall | crates/vdso-rng/src/config.rs:35-39 | A block has fewer states than there are CPUs if and only if the gaps at the ends of all its pages take more than what the last page has to spare. |
| Blocks.OneStateMissing | crates/vdso-rng/src/config.rs:35-39 | With pages of 4096 bytes, states of 144 and 85 CPUs it has 84. |
| Blocks.StateInPage | crates/vdso-rng/src/pool.rs:70-79 | Every state lies inside one page of one mapped block. |
| Blocks.StatesApart | crates/vdso-rng/src/pool.rs:70-79 | No two states overlap, within and across blocks. |
| Blocks.NewStatesApart | crates/vdso-rng/src/config.rs:34-46 | With the configuration for a page size and a state size, the states of mapped blocks are apart by that state size, and each lies inside one page of that page size. |
| Pool.Pool.Grow | crates/vdso-rng/src/pool.rs:58-81 | In place, with its two loops: one block is mapped and exactly its states are appended; nothing changes if the mapping fails. |
| Pool.Pool.Get | crates/vdso-rng/src/pool.rs:82-100 | In place: the first free state, or the first of a new block; it fails only without either. |
| Pool.Pool.Recycle | crates/vdso-rng/src/pool.rs:101-103 | In place: the pointer goes to the end of the free list, whatever it is; a rented state goes back where it belongs. |
| Pool.Pool.Drop | crates/vdso-rng/src/pool.rs:107-126 | The count is the expected one if and only if nothing is rented, and every block is unmapped. |
| Pool.LocalState.Open | crates/vdso-rng/src/lib.rs:82-90 | What is rented overlaps nothing rented before. |
| Pool.LocalState.Drop | crates/vdso-rng/src/lib.rs:149-154 | The state goes back. |
| PoolRuns.NextOk | crates/vdso-rng/src/pool.rs:58-104 | Every step of every client keeps the partition, the lock's exclusion and the growth bound. |
| PoolTheorems.Conservation | crates/vdso-rng/src/pool.rs:58-104 | In every interleaving, free, rented and not yet pushed states together are the states of all mapped blocks, each once. |
| PoolTheorems.Exclusive | crates/vdso-rng/src/pool.rs:82-104 | What a client holds lies inside one page of one block and overlaps neither what another holds, nor a free state, nor one that is still to be pushed. |
| PoolTheorems.NewPoolExclusive | crates/vdso-rng/src/pool.rs:70-79 | The same of what two clients of such a pool hold, in every run. |
| PoolTheorems.DropCount | crates/vdso-rng/src/pool.rs:107-122 | The count checked in `Drop` holds if and only if nothing is rented or pending, as when every client is gone. |
| PoolTheorems.GrowthBound | crates/vdso-rng/src/pool.rs:82-100 | All blocks but one hold no more states than were rented at some one moment, and so no more than there are clients. |
| PoolTheorems.OwnStepDrops | crates/vdso-rng/src/pool.rs:86-99 | Each step a `get` makes, also one that maps or pushes a block, brings it closer to its end. |
| PoolTheorems.OtherStepKeeps | crates/vdso-rng/src/pool.rs:86-99 | No step of another client takes it further away. |
| PoolTheorems.GetEnds | crates/vdso-rng/src/pool.rs:82-100 | In every run, a `get` makes at most `(clients + 2) * (states per block + 4)` steps before it holds a state or has failed. |
| PoolOutcomes.GetOutcome | crates/vdso-rng/src/pool.rs:82-100 | A `get` fails if and only if it asked for a block and got none, after it found the free list empty outside and inside the lock; otherwise it holds what was at the front of the list at its own pop; it takes the lock only after it found the list empty. |
| PoolOutcomes.FreeListFifo | crates/vdso-rng/src/pool.rs:58-103 | States are handed out in the order in which they were put into the free list, by growth or by return. |
| PoolTheorems.SomeoneSteps | crates/vdso-rng/src/pool.rs:82-100 | As long as a `get` is under way, some thread can step. |

## Left out

- Weak memory: every atomic operation is sequentially consistent; the orderings of the source are not modelled.
- Closures are total functions from memory to memory and outcome: closures that never end, that enter the same
  lock again, panic payloads, panic hooks and the thread on which destructors run are not modelled.
- The kernel side of the futex: a set of parked threads, woken by their address or at any time for no reason.
  `FUTEX_WAIT` compares the word and parks in one step.
- `Lock::get_mut` (an exclusive borrow), prefetching (`nightly`) and the miri variants.
- Fairness: `Theorems.BoundedWork`, `Theorems.Quiescence` and `Service.BoundedService` bound the steps and exclude
  deadlock; that a scheduler runs every thread is assumed, not modelled.
- Cells.Serve: runs on a chain that nobody joins; what others may do in between is the subject of `Machine.dfy`.
- Cells.Lead: as for `Cells.Serve`, without the loop that waits for a successor's link.
- Cells.DropBomb: as for `Cells.Serve`, without the loop that waits for a link.
- Cells.Join: makes the swap and the link in one go; what others may do in between is in `Machine.dfy`.
- Cells.TryRun: as for `Cells.Join`, without the slow path.
- Cells.Node.Look: ends where the kernel wait begins; one message may come, before any of the looks.
- `RawLock::acquire` and `Futex::wait` as methods: alone, their loops would never end, so they are steps only.
- Punyenc.Encode: a build without overflow checks wraps where it fails; what such a build then writes is not
  modelled. The input is at most 2^63 - 1 code points, which is what a `str` can hold.
- Surrogates: the model's inputs are all numbers below 0x110000, more than a `str` can contain.
- The source of the `ftree` crate is not part of this model; `Fenwick.dfy` is a tree with the three operations
  the encoder uses, and says nothing about that crate's own code.
- `SegQueue` is an atomic queue; `Vec::sort` is an insertion sort. Of the `O(n log n)` that the encoder promises,
  the visits to the tree are counted, and not the comparisons of the sort.
- Pool: the lock around `mmaps` is an exclusive holder, as `lamlock` provides it; its closure cannot panic, so
  the error for a poisoned pool does not arise. `mmap` answers with a fresh page-aligned block or not at all.
- Blocks.NewConfig: integers are unbounded, and a state is assumed to fit into a page.
- `LocalState::fill` and `try_fill`, `vdso.rs`, `auxv.rs`, `utils.rs`: system calls and foreign functions around
  easy loops. `LocalState`'s re-entrancy flag is left out with them.
