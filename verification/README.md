# HighSpeed in Dafny

A model of the hard parts of the HighSpeed C++ runtime, and proofs about it.

The runtime has two kinds of core.

*Concurrent protocols.* These are modelled as step systems: the shared fields, a sequence of
threads of any length, and one step for each locked region and each access to an atomic, under
sequential consistency. A scheduler picks the steps. A theorem about a protocol quantifies over
every finite run. The parts performed under a lock also exist as class methods that update fields
in place, proved equal to the functions the step system uses.

- `Executor*.dfy`, `ThreadPool.dfy`, `Strand.dfy`: a strand on top of a thread pool.
  `ExecutorCalls.dfy` follows single submissions from call to execution.
- `MemoryPool*.dfy`: per-thread caches over a global free list of fixed-size blocks, for one pool
  (bounds) and for any number of pools that share the caches (conservation, block sizes).
- `Awaitable*.dfy`: coroutines that await coroutines, resumed by pool workers. Coroutine bodies
  are trees whose continuations may depend on the value or exception awaited; `Eval` evaluates
  them directly, and the runtime is shown to refine it, with termination.
- `Scheduler*.dfy`: the coroutine scheduler, whose counter is looser than the queue it counts.
  `SchedulerCalls.dfy` follows single coroutines.

*Codecs.* These have an imperative form, with the loops and positions of the source, proved
against recursive specifications, and theorems about those.

- `Json*.dfy`: parser, both printers, assignment through paths. `JsonLayout.dfy` defines what a
  JSON text is, independently of the parser, `JsonErrors.dfy` what is wrong with one, and
  `JsonRows.dfy` what the printers print.
- `Http*.dfy`: the message codec. `HttpLayout.dfy` defines lines and blocks of header text,
  independently of the parser.
- `Buffer*.dfy`: the gap buffer, in place on an array.
- `Format*.dfy`: the format-string scanner, against readings of the string as tokens.

`Sums.dfy` and `Options.dfy` are shared helpers. `dafny verify dfyconfig.toml` checks everything.

## What the proofs turned up

Where a natural property is false of the code, the code was kept, the exact condition proved and the
failure shown by a run or covered by the other direction of the equivalence.

- JSON object keys are printed without escaping (`include/protocol/Json.hpp:153`, `166`), so a
  printed value parses back exactly if no key holds a quote or a backslash.
- A JSON text that ends inside a string is accepted (`include/protocol/Json.hpp:472-494`); this
  can only happen at top level, and `ParseIff` says so.
- An HTTP message without headers has its body searched for header lines, because the length at
  `include/protocol/Http.hpp:183` wraps. It comes back exactly if its body has no colon.
- The last HTTP header line loses its line end before the trailing carriage return is removed, so a
  value that ends in one loses it if its header is printed last.
- An unknown HTTP version is printed as `HTTP/1.1`.
- `Scheduler::stop` asserts that the counter is zero. With a worker, this is safe exactly if no client
  is inside `add_coroutine` when `stop` is called.
- The last part of `ThreadPool::stop` destroys tasks pushed after the join. If one is a strand's
  hand-off, the strand's `running_` stays set with nobody to clear it, and the strand is dead.
- `localCache` is shared by all pools of a thread, so a pool may hand out a block of a pool with
  smaller blocks. For the pools of `GlobalPoolManager` this can happen.
- A format string with numbered fields only always fails when there are arguments.

## Model

| member | source | states |
|---|---|---|
| `ExecutorTheorems.StrandSerialises` | include/net/Strand.hpp:43-93 | in every reachable state at most one thread runs a strand job; the finished jobs, then the one popped and not finished, then `queue_` are the jobs pushed, in push order; there is at most one hand-off token; a queued job implies `running_` |
| `ExecutorTheorems.FlagFollowsToken` | include/net/Strand.hpp:55-92 | `running_` is set exactly while the token is with a thread or in the pool queue, if and only if `stop` has not destroyed a hand-off with that queue; once it has, the flag is set and there is no token |
| `ExecutorTheorems.OnlyLateTasksAreDestroyed` | include/tools/ThreadPool.hpp:203-210 | every task `stop` destroys, a hand-off too, was pushed by an outside thread after `running_` of the pool was cleared |
| `ExecutorTheorems.DestroyedStrandIsDead` | include/net/Strand.hpp:57-83 | from then on `running_` of the strand stays set and no job is ever finished, whatever is submitted |
| `ExecutorWitness.StopDestroysHandoff` | include/tools/ThreadPool.hpp:194-210 | a run in which this happens: an `addTask` of the strand between the join and the clearing of the queue |
| `ExecutorTheorems.NoSubmissionIsLost` | include/tools/ThreadPool.hpp:114-169 | while a started worker is left and `task_queue_` is not empty, a worker is awake, or some thread is between its push and its notification and will see the waiter count above zero, although that count is read without the lock |
| `ExecutorTheorems.PopFindsTask` | include/tools/ThreadPool.hpp:144-169 | a worker that gets past the exit test finds a task: the empty case of the pop is never taken |
| `ExecutorTheorems.DrainOnStop` | include/tools/ThreadPool.hpp:144-213 | when `stop` has returned, each task pushed before it cleared `running_`, and each task pushed at any time by a task on a worker, has been executed exactly once |
| `ExecutorTheorems.AtMostOnce` | include/tools/ThreadPool.hpp:144-182 | no task is executed twice in any run, stopped or not |
| `ExecutorTheorems.StrandDrainsOnStop` | include/net/Strand.hpp:73-93 | if every outside `Strand::addTask` had returned at the flip and none began later, a returned `stop` leaves the strand empty and idle with all jobs done, in push order |
| `ExecutorTheorems.InvStep` | include/tools/ThreadPool.hpp:144-182 | every kind of step of the composed system keeps mutex discipline, counters, wake-up, histories and the token invariant |
| `ExecutorCalls.SubmittedIsQueued` | include/tools/ThreadPool.hpp:93-121 | the task a thread passes to `addTask` is the one its next push queues, whatever other threads do in between |
| `ExecutorCalls.WorkersRunWhatWasPushed` | include/tools/ThreadPool.hpp:148-182 | a worker runs under each ticket exactly the task that was pushed with it |
| `ExecutorCalls.SubmittedIsRun` | include/tools/ThreadPool.hpp:98-213 | so a task submitted before the flip, or by a task on a worker, is the one found at its ticket, finished exactly once, when `stop` has returned |
| `ExecutorCalls.SubmittedJobIsQueued` | include/net/Strand.hpp:43-64 | the job passed to `Strand::addTask` is the one queued on the strand, and the flag is set with it |
| `ExecutorCalls.NotifyAllMisses` | include/tools/ThreadPool.hpp:185-192 | right after `notify_all` no worker sleeps, and one found asleep later had evaluated its predicate and not yet gone to sleep when `notify_all` was called |
| `ExecutorCalls.MissedSinceFlip` | include/tools/ThreadPool.hpp:150-160 | and it had been between the two already when `running_` was cleared |
| `ThreadPools.ThreadPool.Push` | include/tools/ThreadPool.hpp:117-121 | the in-place locked push is the region the step system takes |
| `ThreadPools.ThreadPool.AddTask` | include/tools/ThreadPool.hpp:114-127 | the task goes to the end of the queue, is counted, and whether to notify is decided by the waiters there were |
| `ThreadPools.ThreadPool.NextTask` | include/tools/ThreadPool.hpp:148-169 | an uninterrupted pass takes exactly the oldest task, or waits only while running with nothing queued, or exits; the waiter count is left raised exactly if it waits |
| `ExecutorTheorems.RegionIsItsSteps` | include/tools/ThreadPool.hpp:148-169 | the steps of the step system, taken by a worker alone, do what that pass does: same pool state, same outcome |
| `ThreadPools.ThreadPool.Take` | include/tools/ThreadPool.hpp:163-168 | yields the oldest task and removes it, or nothing when the queue is empty |
| `ThreadPools.ThreadPool.ExchangeRunning` | include/tools/ThreadPool.hpp:131-134 | the flag is replaced and its old value returned |
| `ThreadPools.ThreadPool.Clear` | include/tools/ThreadPool.hpp:203-210 | the loop empties the queue and takes exactly its length off the counter |
| `Strands.Strand.Add` | include/net/Strand.hpp:57-64 | the job goes to the end of the queue, the flag is set, and the caller must schedule exactly if it was clear |
| `Strands.Strand.Next` | include/net/Strand.hpp:75-87 | an empty queue clears the flag; otherwise the oldest job is taken and the flag left alone |
| `MemoryPoolTheorems.BlocksArePartitioned` | include/alloc/MemoryPool.hpp:32-106 | one pool: in every reachable state each carved block is in exactly one place (client, one cache, global list) exactly once and nothing else is anywhere; blocks are aligned and pairwise byte-disjoint |
| `MemoryPoolSharing.BlocksArePartitionedAcrossPools` | include/alloc/MemoryPool.hpp:70-106 | any number of pools with any block sizes, whose threads have one cache for all of them: each carved block is in exactly one of client hands, one cache or one list of one pool, whichever pools it was freed through; blocks are aligned, and byte-disjoint by the sizes they were carved with |
| `MemoryPoolSharing.SharedAllocateIsUnused` | include/alloc/MemoryPool.hpp:32-52 | whichever pool is asked, the block overlaps no block a client holds, by the sizes both were carved with |
| `MemoryPoolSharing.ConservedStep` | include/alloc/MemoryPool.hpp:32-106 | every step of every thread on every pool keeps this |
| `MemoryPoolSizes.LargeEnoughIff` | include/alloc/MemoryPool.hpp:70-73 | pools that share thread caches always hand out blocks as large as promised if and only if no pool whose blocks can get into a cache has smaller blocks than another |
| `MemoryPoolSizes.ManagerBlocksCanBeTooSmall` | include/alloc/MemoryPool.hpp:139-170 | the pools of the manager do not meet that condition |
| `MemoryPoolTheorems.AllocateReturnsUnusedBlock` | include/alloc/MemoryPool.hpp:32-52 | one pool: `allocate` returns a block that overlaps no block a client holds |
| `MemoryPoolTheorems.MemoryBound` | include/alloc/MemoryPool.hpp:32-106 | blocks ever carved never exceed peak live blocks plus T * max(2L+1, B), also when several threads see an empty global list and all carve |
| `MemoryPoolTheorems.FlushBound` | include/alloc/MemoryPool.hpp:54-106 | for each thread, (L+1) * (flushes - carves) is at most its number of frees |
| `MemoryPoolTheorems.RefillBound` | include/alloc/MemoryPool.hpp:32-52 | for each thread, L * (refills that find L blocks - 1) is at most its number of allocations |
| `MemoryPoolTheorems.InvStep` | include/alloc/MemoryPool.hpp:32-106 | every step of every thread keeps the partition, the bound and the flush account |
| `MemoryPoolRuns.BlocksAreDisjoint` | include/alloc/MemoryPool.hpp:75-88 | any two blocks of any chunks that do not overlap are themselves disjoint |
| `MemoryPoolRuns.BlocksAreAligned` | include/alloc/MemoryPool.hpp:65-88 | every block of an aligned chunk is aligned, because the block size is rounded up |
| `MemoryPools.AlignBlockSize` | include/alloc/MemoryPool.hpp:65-68 | the least multiple of 16 that is not below the request |
| `MemoryPools.MoveConserves` | include/alloc/MemoryPool.hpp:90-106 | moving blocks between the lists loses and duplicates none |
| `MemoryPools.MoveIs` | include/alloc/MemoryPool.hpp:90-106 | exactly the last blocks move, and they arrive last first behind what was there |
| `MemoryPoolRuns.AllocateIsItsSteps` | include/alloc/MemoryPool.hpp:32-52 | a thread left alone in `allocate` with an empty cache gets through the steps: with the last block the refill brought, or of the new chunk exactly if it brought none |
| `MemoryPoolRuns.DeallocateIsItsSteps` | include/alloc/MemoryPool.hpp:54-62 | a thread left alone in `deallocate` caches the block, or keeps the oldest `limit` blocks and gives the others back, newest first |
| `MemoryPoolRuns.CacheIsStack` | include/alloc/MemoryPool.hpp:32-62 | blocks leave a cache in the order opposite to that in which they came |
| `MemoryPoolSharing.ActsAsItsPool` | include/alloc/MemoryPool.hpp:32-106 | each action in the system of many pools is the same action of the one-pool system on the pool asked and the one cache of the thread; the lists of all other pools stay |
| `MemoryPools.ThreadSafeMemoryPool.RefillLocalFromGlobal` | include/alloc/MemoryPool.hpp:90-97 | the loop moves exactly the newest min(limit, size) global blocks to the end of the cache, newest first, and keeps all else |
| `MemoryPools.ThreadSafeMemoryPool.FlushLocalToGlobal` | include/alloc/MemoryPool.hpp:99-106 | the loop leaves exactly the oldest `limit` blocks in the cache; the others go to the end of the global list, newest first |
| `MemoryPools.ThreadSafeMemoryPool.AllocateChunkToLocal` | include/alloc/MemoryPool.hpp:75-88 | the loop appends all blocks of the chunk to the cache and records the chunk |
| `MemoryPools.ThreadSafeMemoryPool.Allocate` | include/alloc/MemoryPool.hpp:32-52 | the newest cached block, or the last one a refill brings, or the last one of the chunk; cache, global list and chunks in each case |
| `MemoryPools.ThreadSafeMemoryPool.Deallocate` | include/alloc/MemoryPool.hpp:54-62 | a null pointer changes nothing; otherwise the block becomes the newest, and a cache past twice the limit keeps exactly its oldest `limit` blocks, the others going back in a known order |
| `JsonLayouts.ParseLayout` | include/protocol/Json.hpp:398-529 | the text of every well-formed document, with any white space at every place the grammar allows, parses to the value of the document, members in order and duplicates kept |
| `JsonLanguage.ParseIff` | include/protocol/Json.hpp:398-529 | `parse` returns `v` exactly on the layouts of `v`, and for a string also on its text without the closing quote |
| `JsonErrors.FailsIff` | include/protocol/Json.hpp:398-529 | `parse` throws a given error exactly on the texts that can be read as far as a place where that is wrong: at any depth, after any items and members, in any layout, whatever follows |
| `JsonErrors.WreckFails` | include/protocol/Json.hpp:413-529 | one direction, for a value inside a larger document |
| `JsonErrors.ValueBroken` | include/protocol/Json.hpp:413-529 | the other: every refused text is such a one |
| `JsonLayouts.EscapeIsRead` | include/protocol/Json.hpp:476-489 | a backslash and any character stand for the character with the code the format gives it, `b` and `f` included |
| `JsonLayouts.CharacterClasses` | include/protocol/Json.hpp:409-411 | white space and digits, by their codes |
| `JsonLayouts.ValueLayout` | include/protocol/Json.hpp:413-424 | a value followed by any text is read and exactly that text left over, given what may follow a number |
| `JsonLanguage.ScanStops` | include/protocol/Json.hpp:497-511 | the number token is as long as it can be: what follows cannot continue it |
| `JsonRows.StringIsSpelled` | include/protocol/Json.hpp:48-62 | every character is printed on its own, the five special ones as backslash and letter |
| `JsonRows.CompactArray` | include/protocol/Json.hpp:208-218 | the compact text is the texts of the elements joined by commas in brackets |
| `JsonRows.CompactObject` | include/protocol/Json.hpp:148-158 | quoted key, colon and value, joined by commas in braces |
| `JsonRows.IndentedArray` | include/protocol/Json.hpp:220-232 | one row per element, (depth + 1) * indent blanks in front of each, commas at the row ends, the closing bracket behind depth * indent blanks |
| `JsonRows.IndentedObject` | include/protocol/Json.hpp:160-172 | the same for members, with colon and one blank between key and value |
| `JsonRows.IndentedEmpty` | include/protocol/Json.hpp:160-172 | an empty array or object still takes two lines; a negative indent gives the compact text |
| `JsonRoundTrip.ToStringRoundTrips` | include/protocol/Json.hpp:148-158 | for values whose numbers survive printing, the compact text parses back to the value if and only if no key holds a quote or backslash |
| `JsonRoundTrip.DumpRoundTrips` | include/protocol/Json.hpp:160-172 | the same for `dump`, at every indent, negative ones included, and every depth |
| `JsonRoundTrip.ToStringIsInjective` | include/protocol/Json.hpp:148-158 | two such values with the same compact text are equal |
| `JsonRoundTrip.IntegersSurvive` | include/protocol/Json.hpp:75-79 | whole numbers up to 999999 in magnitude survive printing with six significant digits |
| `JsonRoundTrip.SupportedRoundTrips` | include/protocol/Json.hpp:48-79 | values with such numbers come back through both printers if and only if their keys are clean |
| `JsonRoundTrip.EscapeDecodes` | include/protocol/Json.hpp:48-62 | every string, whatever its characters, is the decoding of its escaped text |
| `JsonPrintedText.TightText` | include/protocol/Json.hpp:208-218 | the compact printer prints a layout without any white space |
| `JsonPrintedText.IndentedText` | include/protocol/Json.hpp:220-232 | the indenting printer prints a layout of the same document |
| `JsonParsing.ParseValue` | include/protocol/Json.hpp:413-424 | on every input, well formed or not, a successful parse consumes at least one character; this is the measure of the mutual recursion |
| `JsonParsing.ParseMembers` | include/protocol/Json.hpp:426-449 | a successful member list consumes text and is not empty |
| `JsonParsing.ParseElements` | include/protocol/Json.hpp:451-467 | a successful element list consumes text and is not empty |
| `JsonParsing.ScanNumber` | include/protocol/Json.hpp:497-511 | the scanned token and what is left are the input, split in two |
| `JsonMethods.ParseText` | include/protocol/Json.hpp:398-406 | the position-passing parser agrees with the suffix parser on every text, errors included |
| `JsonMethods.SkipSpacesAt` | include/protocol/Json.hpp:409-411 | stops at the first character that is not white space, inside the text |
| `JsonMethods.ParseValueAt` | include/protocol/Json.hpp:413-424 | same value, same error, same position; the position strictly advances and stays in range |
| `JsonMethods.ParseObjectAt` | include/protocol/Json.hpp:426-449 | the member loop agrees with the recursive reading of an object |
| `JsonMethods.ParseArrayAt` | include/protocol/Json.hpp:451-467 | the element loop agrees with the recursive reading of an array |
| `JsonMethods.ParseStringAt` | include/protocol/Json.hpp:469-495 | the character loop decodes what the recursive reading decodes, at the end of input too |
| `JsonMethods.ParseNumberAt` | include/protocol/Json.hpp:497-518 | the digit loops end where the token ends and hand exactly the token to the library |
| `JsonMethods.ParseBooleanAt` | include/protocol/Json.hpp:520-524 | both words by prefix, no check of what follows |
| `JsonMethods.ParseNullAt` | include/protocol/Json.hpp:526-529 | the word by prefix, no check of what follows |
| `JsonMethods.QuoteString` | include/protocol/Json.hpp:48-62 | the loop builds the quoted escape of the string |
| `JsonMethods.PrintObject` | include/protocol/Json.hpp:148-158 | the member loop, commas included, prints what the compact specification prints |
| `JsonMethods.PrintArray` | include/protocol/Json.hpp:208-218 | the element loop prints what the compact specification prints |
| `JsonMethods.PrintIndentedObject` | include/protocol/Json.hpp:160-172 | line breaks, indents and commas of the member loop |
| `JsonMethods.PrintIndentedArray` | include/protocol/Json.hpp:220-232 | line breaks, indents and commas of the element loop |
| `JsonPaths.AssignIff` | include/protocol/Json.hpp:320-378 | assignment leaves exactly the document described by what is replaced on the path and kept beside it: other members and elements in place, later duplicates of a key untouched, nodes of the wrong kind replaced, gaps null |
| `JsonPaths.GetIff` | include/protocol/Json.hpp:136-140 | the constant `operator[]` finds the first member with the key or the element at the index, and nothing else |
| `JsonPaths.WithKeyShape` | include/protocol/Json.hpp:128-134 | a missing key is appended with null; otherwise nothing changes |
| `JsonPaths.LookupAssigned` | include/protocol/Json.hpp:320-378 | assigning through a path of any length and looking it up gives the assigned value |
| `JsonPaths.AssignTwice` | include/protocol/Json.hpp:363-378 | a second assignment at a path leaves exactly what it would have left alone |
| `JsonPaths.AssignElsewhere` | include/protocol/Json.hpp:320-339 | a path that diverges at two keys or two indices looks up what it did before, except at an array gap the assignment created, where it finds null |
| `JsonPaths.GapsWereUndefined` | include/protocol/Json.hpp:192-201 | such a gap was never at a path that was defined |
| `JsonPaths.JsonObject.GetRefForKeyCreate` | include/protocol/Json.hpp:128-134 | the position returned is that of the first member with the key; the members are as before, or as before with one null member at the end exactly if the key was missing |
| `JsonPaths.JsonArray.GetElementRefCreate` | include/protocol/Json.hpp:192-201 | the loop fills with nulls exactly up to the index |
| `AwaitableTheorems.OneResumePerRoot` | include/coro/Awaitable.hpp:85-92 | in every reachable state the coroutines of one root have at most one pending or running resume between them |
| `AwaitableTheorems.ResumesAreOfSuspended` | include/coro/Awaitable.hpp:30-39 | what the pool resumes is suspended at its start and pending only once; what a finished coroutine resumes is waiting for exactly that coroutine |
| `AwaitableTheorems.ExecutorIsSet` | include/coro/Awaitable.hpp:85-92 | the executor assertion in `await_suspend` never fails |
| `AwaitableTheorems.AwaitYieldsDirectResult` | include/coro/Awaitable.hpp:94-98 | `co_await` hands on the value or exception that directly evaluating the awaited coroutine gives |
| `AwaitableTheorems.StartedInOrder` | include/coro/Awaitable.hpp:85-92 | pool tasks start frames in the order in which `await_suspend` and `co_spawn` handed them over |
| `AwaitableTheorems.SpawnedRefinesDirect` | include/coro/Awaitable.hpp:195-212 | a spawned coroutine that has ended has ended as direct evaluation ends; when the queue is empty and the workers idle, all have ended |
| `AwaitableProgress.NeverStuck` | include/coro/Awaitable.hpp:30-98 | the runtime can take no step exactly if the queue is empty and all workers are idle |
| `AwaitableProgress.RuntimeTerminatesCorrectly` | include/coro/Awaitable.hpp:30-98 | under every interleaving the number of steps is bounded by what the spawned programs cost, and when no step is left every spawned coroutine has the outcome of direct evaluation |
| `AwaitableSteps.InvStep` | include/coro/Awaitable.hpp:30-98 | each statement another thread can observe keeps meanings, links, the one cursor per root and the one holder per runnable frame |
| `HttpRoundTrip.RoundTripIff` | include/protocol/Http.hpp:124-205 | for a given header order, parsing the serialisation into any message object gives the message back if and only if the version is known, the URL is not empty and free of white space, keys have no colon or line feed, values no line feed and no leading space, the last value does not end in a carriage return, and a message without headers has no colon in its body |
| `HttpRoundTrip.EveryOrderIff` | include/protocol/Http.hpp:131-134 | the same for all header orders at once, with a condition that does not mention the order |
| `HttpRoundTrip.ParsedBack` | include/protocol/Http.hpp:152-205 | exactly what comes back when URL and headers are plain, for any body, one holding an empty line included |
| `HttpRoundTrip.ParsedIsPlain` | include/protocol/Http.hpp:161-199 | whatever is parsed, the URL has no white space, keys have no colon, values no leading space and neither has a line feed |
| `HttpRoundTrip.ColonsMakeHeaders` | include/protocol/Http.hpp:183-199 | a text taken for the header section adds no header if it has no colon, and at least one if it has; so a message without headers gets some exactly from a body with a colon |
| `HttpLayouts.BlockReads` | include/protocol/Http.hpp:181-199 | any block of lines, with or without carriage returns, with repeated keys and lines without a colon: the headers are what the lines say, read from first to last |
| `HttpLayouts.EveryBlockReads` | include/protocol/Http.hpp:181-199 | every text is such a block, so this says what is read from any header section |
| `HttpLayouts.LineReads` | include/protocol/Http.hpp:185-198 | a line gives the key before its first colon and the value after the blanks behind it, whatever else is in them |
| `HttpLayouts.BareLineReads` | include/protocol/Http.hpp:185-198 | without a carriage return at its end a line loses one that ends its value |
| `HttpLayouts.MessageReads` | include/protocol/Http.hpp:152-205 | any start line, any non-empty lines and any body are taken apart at the first line end and the first empty line |
| `HttpLayouts.FieldsRead` | include/protocol/Http.hpp:181-199 | and the headers stored are those of the lines |
| `HttpLayouts.HeadersEnd` | include/protocol/Http.hpp:174-179 | the empty line is found after the header lines and nowhere before |
| `HttpLayouts.StartLineReads` | include/protocol/Http.hpp:161-172 | three words, with any white space around them, whatever follows |
| `HttpLayouts.ShortStartLineReads` | include/protocol/Http.hpp:161-172 | missing words are empty, an unknown method and an unknown version |
| `HttpLayouts.RefusedIff` | include/protocol/Http.hpp:156-179 | a text is accepted exactly if it has an empty line; a refused one leaves headers and body alone, and everything if it has no line end |
| `HttpLayouts.RefusedStartLine` | include/protocol/Http.hpp:161-179 | a refused text with a line end still stores its start line |
| `HttpLayouts.MethodWords` | include/protocol/Http.hpp:72-119 | the word of each method in both directions, and every other word is the unknown method |
| `HttpLayouts.VersionWords` | include/protocol/Http.hpp:87-103 | the same for versions |
| `HttpRoundTrip.SerializedIs` | include/protocol/Http.hpp:124-142 | the text is the start line, a line per header in the order given, an empty line and the body, in the terms the parser is specified in |
| `HttpRoundTrip.MethodTable` | include/protocol/Http.hpp:72-119 | every method, the unknown one included, is printed as a word that reads back as it |
| `HttpRoundTrip.VersionTable` | include/protocol/Http.hpp:87-103 | a version reads back as itself exactly if it is known |
| `HttpMessages.HttpMessage.SerializeToString` | include/protocol/Http.hpp:124-142 | the loop prints the headers in the order given |
| `HttpMessages.HttpMessage.ParseFromString` | include/protocol/Http.hpp:152-205 | all fields after the call, on success and on both refusals; a text without an empty line is refused after the start line was stored |
| `HttpMessages.HttpMessage.ReadStartLine` | include/protocol/Http.hpp:161-172 | three words split at white space, missing ones empty |
| `HttpMessages.HttpMessage.ReadHeaders` | include/protocol/Http.hpp:181-199 | the line loop agrees with the recursive reading of the header section |
| `HttpMessages.Find` | include/protocol/Http.hpp:156-158 | the first occurrence, or none anywhere |
| `BufferRuns.BufferIsByteQueue` | include/io/Buffer.hpp:53-140 | after any sequence of operations 8 <= readIndex <= writeIndex <= size, and the readable bytes are the bytes ever put in, less those a queue would have handed out |
| `BufferRuns.DeliveredInOrder` | include/io/Buffer.hpp:58-140 | the bytes handed out so far followed by the readable ones are all bytes put in, in order |
| `BufferRuns.GrowsIff` | include/io/Buffer.hpp:81-102 | an append grows storage exactly if readable and new bytes together do not fit behind the prepend area |
| `BufferRuns.DrainingReclaims` | include/io/Buffer.hpp:58-68 | taking everything makes all of the storage writable again; taking less reclaims nothing |
| `BufferRuns.CapacityBound` | include/io/Buffer.hpp:81-130 | if no append, counting the overflow of `readFd`, exceeds L and content never exceeds M, storage never exceeds its initial size or 7 + M + L |
| `BufferRuns.CapacityIsReached` | include/io/Buffer.hpp:81-102 | for all limits M > L > 0, a run within them that ends with exactly 7 + M + L bytes of storage, having started with less |
| `Buffers.CompactionMovesDown` | include/io/Buffer.hpp:89-102 | the copy is reached only with readIndex > 8, so it goes strictly downwards; making space keeps the content and makes room |
| `BufferRuns.StepIs` | include/io/Buffer.hpp:53-140 | each operation takes from the front of the readable bytes and adds at the back |
| `Buffers.Buffer.constructor` | include/io/Buffer.hpp:53-56 | the initial storage and indices |
| `Buffers.Buffer.Append` | include/io/Buffer.hpp:81-87 | the whole new storage and both indices, in each of the three cases |
| `Buffers.Buffer.MakeSpace` | include/io/Buffer.hpp:89-102 | grows or compacts, and leaves room for the request |
| `Buffers.Buffer.MoveDown` | include/io/Buffer.hpp:93-101 | the forward copy within one array leaves the bytes that were there before it began |
| `Buffers.Buffer.ReadFd` | include/io/Buffer.hpp:104-130 | an error changes nothing; bytes beyond the writable part go through `append` |
| `Buffers.Buffer.WriteFd` | include/io/Buffer.hpp:132-140 | an error changes nothing; otherwise what was written is taken |
| `Buffers.Buffer.Retrieve` | include/io/Buffer.hpp:58-68 | taking everything or more resets both indices |
| `Buffers.Buffer.RetrieveAsString` | include/io/Buffer.hpp:70-75 | the text returned and the content left are the content before, cut at the shorter length |
| `Schedulers.CounterMatchesQueue` | include/coro/Scheduler.hpp:85-97 | in every reachable state the queue is as long as the counter says, plus the adders between push and increment, less a worker between pop and decrement; the counter is never negative; coroutines leave in push order |
| `Schedulers.PopFindsCoroutine` | include/coro/Scheduler.hpp:139-161 | the assertion before the pop never fails, although the counter is raised outside the lock |
| `SchedulerStop.StopAssertionIff` | include/coro/Scheduler.hpp:171-184 | in any reachable state in which `stop` may be called, the assertion at its end holds however the run goes on if and only if no client is inside `add_coroutine` and there is a worker or nothing counted; coroutines that are adding on a worker do no harm |
| `Schedulers.CalmStopDrains` | include/coro/Scheduler.hpp:171-184 | if no client was inside `add_coroutine` at the flip, then once the workers are joined every coroutine ever added was taken, in push order, those added meanwhile by running coroutines too |
| `SchedulerCalls.CalmStopResumesAll` | include/coro/Scheduler.hpp:139-184 | and every one of them was resumed exactly as often as it was added |
| `SchedulerCalls.ResumedWasAdded` | include/coro/Scheduler.hpp:139-167 | at any time nothing is resumed that was not added, nor more often |
| `SchedulerCalls.AddedIsQueued` | include/coro/Scheduler.hpp:85-97 | the coroutine passed to `add_coroutine` is the one the next step of the thread queues |
| `SchedulerCalls.AdderNotifiesIff` | include/coro/Scheduler.hpp:85-97 | an adder notifies exactly if some worker has announced that it waits and not yet taken it back |
| `SchedulerStop.WorkersExit` | include/coro/Scheduler.hpp:139-167 | once the flag is clear, all workers can be brought to exit with the clients held where they are, from every state that keeps the invariant, so from every reachable one |
| `SchedulerStop.LateAddFailsStop` | include/coro/Scheduler.hpp:85-97 | from every state that keeps the invariant, so from every reachable one, with a client inside `add_coroutine`, `stop` can run so that its assertion fails |
| `Schedulers.InvStep` | include/coro/Scheduler.hpp:139-167 | each access to an atomic or to the queue, by any thread, keeps the counter protocol |
| `FormatTheorems.FormatIff` | include/log/format.hpp:209-296 | formatting succeeds with a text if and only if the format string reads as literals, doubled braces and fields, with exactly as many `{}` as arguments and every numbered field in range, that print that text |
| `FormatTheorems.FormatInterleaves` | include/log/format.hpp:209-296 | for any literals and arguments, the brace-doubled literals joined by `{}` give the literals with the arguments between them, in order |
| `FormatTheorems.NumberedOnlyFails` | include/log/format.hpp:290-293 | with arguments, every string without a reading that has a `{}` in it fails: numbered fields are not counted as uses |
| `FormatTheorems.NoBracePairFails` | include/log/format.hpp:290-293 | in particular every string in which `{}` does not occur |
| `FormatTheorems.FormatMeans` | include/log/format.hpp:209-296 | every format string has a reading as tokens, broken off at a lone brace or not, and the result, text or error, is what that reading means |
| `FormatTokens.ScanTokens` | include/log/format.hpp:215-288 | the scanner on the text of any token sequence, broken off or not, started with any number of arguments used up: the text, or the first error |
| `FormatTokens.FieldIs` | include/log/format.hpp:246-284 | a numbered field prints the argument its index text names with the text after the first colon as its specification, uses up no argument, and reports a bad index text or an index out of range |
| `Formats.Vformat` | include/log/format.hpp:209-296 | the loop, whose position strictly advances, returns what the recursive scanner returns, errors included |
| `Formats.ReadBrace` | include/log/format.hpp:228-284 | which of the escapes, errors and fields stands at a brace |

## Left out

- `include/net/IOContext.hpp`, `include/net/Socket.hpp`, `include/net/Epoll.hpp`: kernel calls and their wrappers.
- `Log.hpp`, `Generator.hpp`, `Task.hpp`, `Tool.hpp`, `container/`, `main.cpp`: output, thin wrappers and demonstrations that would only add easy members.
- Termination of `stop` in the pool and the scheduler: `running_` is cleared outside the mutex, so a worker can miss the notification. What is proved is what holds when `stop` has returned.
- Liveness of scheduler submissions: the notification precedes the increment.
- `stopHard`, restarting after `stop`, `stop` called from a worker, `run` concurrent with `stop`.
- Memory orders weaker than sequential consistency; the source uses the default order throughout.
- The futures that `addTask` returns, and exceptions thrown by tasks, which the worker catches.
- Exit of a thread whose cache still holds blocks, and failure of `operator new`. Of `GlobalPoolManager` only the set of pools is modelled, not the fallback to `malloc`; the wrappers in `alloc.hpp` are not part of this model.
- Printing and reading of floating-point numbers: the library's `operator<<` and `stod` are parameters, numbers are reals, and infinities, not-a-number and negative zero are not represented. `\u` escapes are not decoded by the source either.
- JSON assignment is modelled on values and paths: raw pointers into a vector that later grows, and updates through aliases, are not captured.
- In `Awaitable.hpp` the pool is a queue served by workers, values and exceptions are integers, the void specialisation is the case without a value, and bodies do nothing observable between awaits.
- Frame destruction is modelled only where the awaiting expression ends; frames of roots are never destroyed in the source and stay.
- `Scheduler.hpp` and `Awaitable.hpp` have no class with fields updated in place here: their methods are cut into steps at every access another thread can observe.
- The hash map of HTTP headers is a map together with an arbitrary order of its keys; `isspace` is that of the default locale. Bytes are characters.
- The `readv` and `write` calls are a count and the bytes delivered; appending a part of the buffer to itself is not modelled.
- Rendering of arguments in `format.hpp` with its sticky stream flags, and `std::stoul`, are parameters.
- Size arithmetic is unbounded except where the wrap-around matters (`include/protocol/Http.hpp:183`).
- MemoryPoolTheorems.MemoryBound: for one pool, because a shared cache lets a pool's blocks end in another pool's list.
- MemoryPoolTheorems.FlushBound: for one pool, for the same reason.
- MemoryPoolTheorems.BlocksArePartitioned: one pool; MemoryPoolSharing.BlocksArePartitionedAcrossPools is the form for any number.
- MemoryPoolTheorems.AllocateReturnsUnusedBlock: one pool; MemoryPoolSharing.SharedAllocateIsUnused is the form for any number.
- ThreadPools.ThreadPool.ExchangeRunning: does not model the creation and joining of threads, which the step system does.
