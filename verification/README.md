# Verification model of the Ephemeris serving core

Ephemeris serves a language model to many clients at once. Requests wait in a priority queue, join
and leave one running batch, share a paged store of per-token state, and stream text back while they
run. This project models that core in Dafny and proves that sharing is invisible: whatever else is
going on, each request gets the tokens and the text it would get alone, nothing leaks, and every request
is resolved.

The model keeps the program's own form. The block pool, the queue, the requests, the scheduler, the
limiter and its buckets are classes whose methods update their fields, proved against specification
functions over values; the arithmetic on rows, masks and texts is functions and lemmas; the
worker-to-worker protocol is a state machine over its atomic steps.

| file | models |
|---|---|
| `Heapq.dfy` | the binary heap that the free list and the queue share |
| `PagedKVCache.dfy` | `cache/paged_kv_cache.py`: the growing and shrinking block pool |
| `CausalModel.dfy` | the language model, as an unknown causal function, and full recomputation as the reference |
| `Batching.dfy` | one step's mixed prefill and decode batch, the forward pass, and slicing rows out again |
| `StopSequences.dfy` | `utils/stop_sequences.py`, and the scheduler's token window |
| `Requests.dfy`, `RequestQueue.dfy` | `scheduler/request.py`, `scheduler/request_queue.py` |
| `Scheduler.dfy`, `Admission.dfy`, `Server.dfy` | `scheduler/continuous_scheduler.py`: steps, admission, and whole runs |
| `Streaming.dfy` | `streaming/stream_manager.py` |
| `ModelSwap.dfy` | `scheduler/model_swap.py`, `scheduler/model_state.py`: swaps, the whole life of a worker, and the pool |
| `RateLimit.dfy` | `api/ratelimit.py` |
| `BatchGeneration.dfy` | `InferenceEngine.generate_batch` in `engine/generator.py` |

The model's forward pass, the sampler, the tokenizer and the clock are parameters. The forward pass is
any function in which a token's state depends on the unmasked columns before it, on the token and on
its position; it may fail at any time, and a pass that fails leaves its inputs as they were. Random
numbers are inputs, one per sampled token, so that "the same token" has a meaning. One cell stands for
the keys and values of one position over all layers and heads. Code between two real suspension points
is one atomic step.

## What the proofs found

Some statements in the source are not true of it as they stand. In each case the model keeps the code's
behaviour, a lemma shows it on a concrete input, and another says exactly when the promise holds.

- A prompt that tokenizes to nothing fails alone, but beside another row its gather index of -1 reads
  the logits of a padding column (`EmptyPromptReadsPadding`; batching is invisible to a row exactly when
  it brings at least one token).
- The stream never sends text that is still buffered when the end marker arrives (`DoneDropsTheTail`,
  `EverythingIsSent`, `WholeStreamIsSent`).
- The put-back of deferred requests can reorder the queue, although the comment beside it says that
  nothing is reordered: exactly when a deferred request ties with one that was never looked at
  (`EqualKeysReorder`, `PutBackKeepsOrder`).
- The directory can report convergence while a worker already serves something else, between its reload
  and its report (`WindowHidesASwap`, `ConvergedMeansServing`).
- The limiter's window bound, and that eviction of idle buckets is unobservable, hold for all runs
  exactly when the rate fills a bucket within the hour after which it is evicted (`WindowBoundIff`,
  `EvictionUnseenIff`).
- `int(x + 0.999)` is not rounding up, although the comment calls it that: a caller who waits exactly as
  long as Retry-After says can be turned away (`OneSecondIsTooShort`, `ExactRetryIsTooFastIff`).
- The scheduler's bounded token window misses a stop sequence whose start is pushed out of it by tokens
  that decode to nothing, although the comment beside it says that every token decodes to at least one
  character. With a one-character token one silent token more than the slack is enough
  (`SilentTokensHideAStop`); over all streams the window is right exactly when no token decodes to
  nothing (`WindowIsEnoughIff`).
- A failed swap is said to leave the worker as it was, but the rollback of the tokenizer is a load that
  can fail too: then the old model serves with the new tokenizer (`FailedRollbackSplits`,
  `PairedAfterIff`, `PairedThroughoutIff`).

## Model

| member | source | states |
|---|---|---|
| `Heapq.HeapPush` | cache/paged_kv_cache.py:79-80 | pushing keeps the heap order and adds exactly one element |
| `Heapq.HeapPop` | cache/paged_kv_cache.py:98-99 | popping returns a least element, keeps the heap order and loses nothing else |
| `Heapq.Heapify` | cache/paged_kv_cache.py:239-240 | any list becomes a heap of the same elements |
| `Heapq.RootIsLeast` | cache/paged_kv_cache.py:98-99 | the first element of a heap is no greater than any other |
| `PagedCache.CeilDiv` | cache/paged_kv_cache.py:94 | negating twice rounds up: the least number of blocks that holds so many tokens |
| `PagedCache.GatherWrite` | cache/paged_kv_cache.py:119-137 | writing a chunk at a position extends what the table reads back by exactly that chunk, whatever blocks it owns |
| `PagedCache.PagedKVCache.constructor` | cache/paged_kv_cache.py:27-59 | a new pool has its initial capacity, all of it free |
| `PagedCache.PagedKVCache.GrowPool` | cache/paged_kv_cache.py:61-81 | growth adds free blocks behind the old ones and changes no stored cell |
| `PagedCache.PagedKVCache.EnsureFree` | cache/paged_kv_cache.py:83-89 | doubling keeps capacity within twice the peak of live blocks |
| `PagedCache.PagedKVCache.TakeLowest` | cache/paged_kv_cache.py:97-99 | the block handed out is the lowest free one and leaves the free list |
| `PagedCache.PagedKVCache.Allocate` | cache/paged_kv_cache.py:91-99 | the table ends up with exactly the blocks its tokens need; the new ones are the lowest free, in order; the peak moves to the blocks now in use or not at all; every table still reads back the same |
| `PagedCache.PagedKVCache.WriteTokens` | cache/paged_kv_cache.py:119-137 | the chunked write loop appends the given cells, and touches no other table's block |
| `PagedCache.PagedKVCache.Append` | cache/paged_kv_cache.py:101-139 | the table stores its old cells and then the new ones; every other table stores what it stored |
| `PagedCache.PagedKVCache.GatherRow` | cache/paged_kv_cache.py:183-204 | walking whole blocks and a partial last one returns exactly what was appended since the last free |
| `PagedCache.PagedKVCache.GatherDense` | cache/paged_kv_cache.py:141-181 | each row is its table's cells, left-padded with zeros to the longest; lengths are the real ones |
| `PagedCache.PagedKVCache.Free` | cache/paged_kv_cache.py:206-211 | the table stores nothing any more, all its blocks are free, and no other table changes |
| `PagedCache.PagedKVCache.TrimTail` | cache/paged_kv_cache.py:213-243 | the cut is the lowest that keeps every live block and the floor; stored cells are unchanged; capacity is at most the floor or the peak |
| `PagedCache.PagedKVCache.IsValid` | cache/paged_kv_cache.py:245-259 | the structural self-check, in full |
| `PagedCache.PagedKVCache.ServedTablesAreWellFormed` | cache/paged_kv_cache.py:245-259 | the self-check holds of every table in every reachable state |
| `PagedCache.PagedKVCache.Partition` | cache/paged_kv_cache.py:61-139 | free ids and table ids partition the pool: no id twice, none shared, none lost |
| `PagedCache.PagedKVCache.StaysCompact` | cache/paged_kv_cache.py:52-99 | live ids stay below the peak, and capacity within twice the peak; the peak is the largest number of blocks in use so far |
| `PagedCache.PagedKVCache.BlocksInUse` | cache/paged_kv_cache.py:52-99 | the blocks not free are as many as the tables list, each of them once |
| `PagedCache.InUseIsLive` | cache/paged_kv_cache.py:52-99 | at any moment of a run the blocks in use are the sum, over the tables, of the blocks that their contents need |
| `PagedCache.Perform` | cache/paged_kv_cache.py:61-259 | from a new pool, under any interleaving of append, free, growth and trim over any tables, each table is its own append-only sequence; live ids stay below the greatest number of live blocks over all moments of the run, and capacity within the initial one or twice that number |
| `CausalModel.ExtendSplit` | scheduler/continuous_scheduler.py:343-366 | computing the cells of a history in two goes gives the cells of one |
| `CausalModel.IncrementalIsFull` | scheduler/continuous_scheduler.py:356-359 | with a prefix cached, running the rest gives the cells and the logits of running everything |
| `CausalModel.CellAt` | scheduler/continuous_scheduler.py:356-359 | each cell of a history is that of its own token and position, behind the cells before it |
| `CausalModel.NextIsSampled` | scheduler/continuous_scheduler.py:660-693 | the next token is sampled from the logits of the last token, behind the cells of all the others, against the whole history |
| `Batching.BatchIsWellShaped` | scheduler/continuous_scheduler.py:343-434 | the batch's tensors agree in shape for any mix of rows |
| `Batching.RealColumns` | scheduler/continuous_scheduler.py:371-396 | a row's unmasked columns are its stored past and then its new tokens, and new column j has position past+j |
| `Batching.RowGather` | scheduler/continuous_scheduler.py:398-407 | the gather index picks the row's last real token |
| `Batching.RowSlice` | scheduler/continuous_scheduler.py:528-561 | the slice taken out of the new past is the row's own new cells |
| `Batching.RowInBatch` | scheduler/continuous_scheduler.py:343-434 | in any batch, a row's logits and extracted cells are functions of its own past and tokens |
| `Batching.BatchingIsInvisible` | scheduler/continuous_scheduler.py:343-434 | a row gets the same logits and cells as in a batch of one, exactly when it brings a token |
| `Batching.EmptyPromptReadsPadding` | scheduler/continuous_scheduler.py:403-407 | an empty prompt beside another row is given the logits of the pad token |
| `StopSequences.FindStopIndex` | utils/stop_sequences.py:4-18 | the loop returns the least index at which any non-empty stop sequence begins, or none |
| `StopSequences.EarliestStopIs` | utils/stop_sequences.py:4-18 | what that index means: a match there, none before; none at all if there is no index |
| `StopSequences.EarliestOccurrence` | utils/stop_sequences.py:4-18 | at that index the text reads: so many characters, then one of the stop sequences; and it reads so at no earlier index, and nowhere if there is none |
| `StopSequences.CutIsClean` | utils/stop_sequences.py:5-9 | text cut at the earliest stop contains no stop sequence |
| `StopSequences.NarrowedSearch` | streaming/stream_manager.py:87-95 | searching a suffix that covers every place a new match can start finds what searching everything finds |
| `StopSequences.WindowIsEnough` | scheduler/continuous_scheduler.py:467-496 | with enough slack for silent tokens the two-stage check through the tail window decides what decoding everything decides |
| `StopSequences.WindowedStopIsFullStop` | scheduler/continuous_scheduler.py:467-496 | over a whole stream: the same token, the same trimmed text, and no stop sequence in it; `Server.EveryResultIsRight` carries it to every run |
| `StopSequences.WindowIsEnoughIff` | scheduler/continuous_scheduler.py:467-496 | for a tokenizer that concatenates, whatever the slack: over all streams and all stop sequences the window finds what decoding everything finds, exactly when no token decodes to nothing |
| `StopSequences.SilentTokensHideAStop` | scheduler/continuous_scheduler.py:485-490 | whatever the slack: silent tokens between the halves of a stop sequence hide it from the window exactly when they and the two halves are more tokens than it holds; with a one-character half, exactly when they are more than the slack |
| `Requests.InferenceRequest.constructor` | scheduler/request.py:15-68 | a new request's class, limits and empty state |
| `Requests.RecomputedAt` | scheduler/continuous_scheduler.py:660-693 | every generated token is the one a full-sequence forward pass would have sampled, spelled out down to cells, logits and history |
| `Requests.RecomputedIsUnique` | scheduler/continuous_scheduler.py:660-693 | a request's tokens are determined by its prompt, its parameters and its random numbers alone |
| `Requests.EndMarkerEnds` | scheduler/continuous_scheduler.py:516-523 | whoever goes on has no end marker among the tokens and is below the limit; the marker is at most the last token of whoever is closed, and whoever got to it, or to the limit, is done and has not failed |
| `Requests.ResultIsFullRun` | scheduler/continuous_scheduler.py:456-588 | a result has no stop sequence in it; it ends where decoding and searching everything after every token would have ended it, with that text, or else has all the text up to the end marker, the last token allowed or the last in time |
| `Requests.SameTokens` | scheduler/continuous_scheduler.py:456-658 | the same request on two servers, in whatever company, failing or not: with the same random numbers one has the tokens of the other, or the first of them |
| `Requests.OutcomeIsUnique` | scheduler/continuous_scheduler.py:456-588 | and if both are done, without deadlines, the tokens and the text are the same: what either would get alone |
| `RequestQueue.KeyIsShiftedPriority` | scheduler/request_queue.py:62-85 | at any instant the fixed key and the aged priority differ by the same amount for every request |
| `RequestQueue.PriorityRequestQueue.Put` | scheduler/request_queue.py:87-90 | the request waits with its fixed key and the next arrival number |
| `RequestQueue.PriorityRequestQueue.Get` | scheduler/request_queue.py:92-97 | the request returned is the one that re-scoring everyone would pick, at every clock |
| `RequestQueue.LeastKeyIsBest` | scheduler/request_queue.py:62-85 | the least (key, arrival) is the least (aged priority, arrival) |
| `RequestQueue.FirstIsServed` | scheduler/request_queue.py:62-85 | who is served next, in enqueue times and classes: class c counts as coming c aging times later, ties go to the earlier arrival, and without aging only the class counts |
| `RequestQueue.AgingPromotes` | scheduler/request_queue.py:79-81 | a general request is never passed over for a short one that came more than the aging time later |
| `RequestQueue.Run` | scheduler/request_queue.py:57-97 | for every interleaving of puts and gets the heap serves what the re-scored queue serves |
| `Scheduler.FinishCloses` | scheduler/continuous_scheduler.py:563-588 | a request that ends, or runs out of time with something to show, has its tokens, one end marker and the text its tokens say; a cancelled future stays cancelled |
| `Scheduler.FailureCloses` | scheduler/continuous_scheduler.py:590-615 | a request that fails has its tokens, none of which had ended it, one error marker and a resolved future |
| `Scheduler.Advance` | scheduler/continuous_scheduler.py:457-523 | one token: streamed, recorded, and the request finished exactly if it ends it; always at the end marker and at the limit |
| `Scheduler.StoreNewCells` | scheduler/continuous_scheduler.py:509-514 | the table is empty or holds the cells of all tokens but the last, also when the model returns no past |
| `Scheduler.DispatchTokens` | scheduler/continuous_scheduler.py:436-526 | each row moves exactly its own request, and the finished ones are returned in order |
| `Scheduler.RowIsFull` | scheduler/continuous_scheduler.py:356-434 | a prefill or decode row comes out of the batch with the cells and logits of a full recomputation |
| `Scheduler.ForwardAndSample` | scheduler/continuous_scheduler.py:660-693 | each token is sampled from its row's logits against the request's full history |
| `Scheduler.Compute` | scheduler/continuous_scheduler.py:660-693 | an attempt yields right results for every row, or nothing |
| `Scheduler.ContinuousScheduler.BuildBatch` | scheduler/continuous_scheduler.py:343-434 | the batch is the one for the requests' stored cells and remaining tokens |
| `Scheduler.ContinuousScheduler.NothingInvalid` | scheduler/continuous_scheduler.py:330-336 | the cache-validity sweep never finds an invalid table |
| `Scheduler.ContinuousScheduler.EvictCancelledRequests` | scheduler/continuous_scheduler.py:617-628 | cancelled requests leave with their blocks; nothing is sent and nobody else changes |
| `Scheduler.ContinuousScheduler.EvictExpiredRequests` | scheduler/continuous_scheduler.py:640-658 | exactly those whose deadline has come are closed, with partial output or an error; the others are untouched and keep their order |
| `Scheduler.ContinuousScheduler.Attempt` | scheduler/continuous_scheduler.py:761-785 | a step for a set of requests advances each by one token, or changes nothing |
| `Scheduler.ContinuousScheduler.RetryOne` | scheduler/continuous_scheduler.py:707-728 | a request whose own pass works is advanced, one whose own pass fails is failed, alone |
| `Scheduler.ContinuousScheduler.RetryRequestsIndividually` | scheduler/continuous_scheduler.py:695-728 | after two failed batches a failure stays the failing request's own |
| `Scheduler.ContinuousScheduler.Step` | scheduler/continuous_scheduler.py:730-814 | what one step does to every active request, for every behaviour of clock and model, in plain terms too; whoever leaves the batch holds no block; nobody in it has an end marker; idle time and remembered peak are brought up to date |
| `Scheduler.ContinuousScheduler.StepMakesProgress` | scheduler/continuous_scheduler.py:695-785 | each step takes at least one from the tokens left for every request in the batch |
| `Scheduler.ContinuousScheduler.Drain` | scheduler/continuous_scheduler.py:816-833 | without arrivals the batch empties and every request is resolved and holds no block, whatever fails |
| `Scheduler.StepsLife` | scheduler/continuous_scheduler.py:456-658 | a request gains exactly one token, and is closed exactly with the first that ends it, unless it fails, is late or is cancelled; streams only grow; a future is resolved at most once |
| `Scheduler.StepIsPlain` | scheduler/continuous_scheduler.py:456-785 | a step in plain terms: cancelled ones leave as they are; those whose deadline has come get what they have or the timeout error; the others get a token and go on unless it is the end marker, the last allowed or completes a stop sequence; whoever's own pass fails gets the error, and the client the generic message |
| `Scheduler.ExpiryCloses` | scheduler/continuous_scheduler.py:640-658 | a request evicted for its deadline ends with its tokens, one sentinel and a resolved future; none of the tokens had ended it |
| `Scheduler.LeftShrinks` | scheduler/continuous_scheduler.py:695-785 | if everyone kept has one token less to go, the sum drops by at least the size of the batch |
| `Scheduler.ContinuousScheduler.CacheIsIncremental` | scheduler/continuous_scheduler.py:356-359 | in every reachable state a table is empty or holds the cells of all the request's tokens but the last |
| `Scheduler.ContinuousScheduler.IncrementalEqualsRecompute` | scheduler/continuous_scheduler.py:500-514 | in every reachable state each generated token is what a full-sequence pass would have given |
| `Scheduler.ContinuousScheduler.NothingLeaks` | scheduler/continuous_scheduler.py:563-638 | blocks in use are exactly those of the active requests, each of one request |
| `Scheduler.ContinuousScheduler.IdleHoldsNothing` | scheduler/continuous_scheduler.py:630-638 | with no active request every block is free |
| `Scheduler.ContinuousScheduler.MaybeTrimKvPool` | scheduler/continuous_scheduler.py:112-171 | each idle trim leaves exactly half the capacity, never below the floor or the initial size; otherwise nothing changes |
| `Scheduler.FloorFollowsThePeak` | scheduler/continuous_scheduler.py:153-157 | the trim floor is the remembered peak with its slack, rounded down, or the initial capacity if that is more |
| `Scheduler.ContinuousScheduler.WindDown` | scheduler/continuous_scheduler.py:786-814 | the chores of a step: the idle pool is halved at most once per dwell period, the remembered peak fades then and is never below what is in use |
| `Scheduler.ContinuousScheduler.NotePeak` | scheduler/continuous_scheduler.py:808-814 | the remembered peak is the greater of itself and the blocks in use |
| `Admission.InOrderIsSorted` | scheduler/request_queue.py:92-97 | popping everything gives everything, in ascending key order |
| `Admission.AdmissionConserves` | scheduler/continuous_scheduler.py:253-317 | the queue splits exactly into taken, deferred and left |
| `Admission.AdmissionIsCappedAndGreedy` | scheduler/continuous_scheduler.py:216-271 | the batch and the general lane stay within their caps, and admission stops only at a full batch or when only capped general requests are left |
| `Admission.ClassesKeepTheirOrder` | scheduler/continuous_scheduler.py:258-271 | within each class whoever is taken comes before whoever is not, in key order |
| `Admission.Look` | scheduler/continuous_scheduler.py:289-307 | a request in time joins the batch with its prompt, a late one is failed and joins nothing |
| `Admission.AdmissionIsPlain` | scheduler/continuous_scheduler.py:289-307 | admission in plain terms: who is taken joins the batch with its prompt exactly if it has no deadline or one still to come, and is told of the timeout otherwise; nobody else joins or changes |
| `Admission.Walk` | scheduler/continuous_scheduler.py:257-314 | the pop loop takes and defers exactly whom the plan says |
| `Admission.PutBack` | scheduler/continuous_scheduler.py:316-317 | deferred requests wait again, behind fresh arrival numbers |
| `Admission.AddNewRequests` | scheduler/continuous_scheduler.py:253-317 | admission over the real queue and batch: conserving, capped, greedy, in plain terms as above, and order-preserving exactly without ties |
| `Admission.PutBackKeepsOrder` | scheduler/continuous_scheduler.py:264-270 | the put-back leaves the order of the queue unchanged exactly when no deferred request ties with one left |
| `Admission.EqualKeysReorder` | scheduler/continuous_scheduler.py:264-270 | a short request that arrives with a general one, one aging time behind another general one: their keys tie, and they come back in another order |
| `Server.OnAdmit` | scheduler/continuous_scheduler.py:253-317 | admission keeps every request accounted for and the caps |
| `Server.OnStep` | scheduler/continuous_scheduler.py:730-814 | a step moves the batch as the scheduler's step says, keeps every request accounted for, and touches nobody outside the batch |
| `Server.OnTick` | scheduler/continuous_scheduler.py:822-833 | one turn of the loop: the batch that the admission plan makes takes one step from the states it had, the newcomers with their prompts, if there is anybody in it; everyone stays accounted for; the queue shrinks or the tokens left do |
| `Server.OnActivity` | scheduler/continuous_scheduler.py:816-833 | an arrival joins the queue, a cancellation resolves a pending future, a tick takes its turn; each keeps the invariant, and never touches a request that is done with |
| `Server.Run` | scheduler/continuous_scheduler.py:816-833 | in every run each request is waiting untouched, generating correctly with no token yet that ends it, or closed for good with the text that its tokens say and holding no block; caps hold; nothing leaks |
| `Server.EveryResultIsRight` | scheduler/continuous_scheduler.py:456-588 | in every run, every result is the text at which decoding and searching everything would have stopped, if it would; and none has a stop sequence in it |
| `Server.EveryoneStops` | scheduler/continuous_scheduler.py:516-523 | in every run nobody generates anything behind the end marker or beyond the limit, and whoever gets there is done, not failed |
| `Server.ComeToRest` | scheduler/continuous_scheduler.py:816-833 | once nobody arrives, finitely many turns of the loop empty queue and batch and resolve everyone, whatever the clock and the model do |
| `Streaming.WindowDecodes` | streaming/stream_manager.py:66-81 | the overlapping decodes and the whole ones agree on whether there is new text and what it is |
| `Streaming.AcceptedIsWhole` | streaming/stream_manager.py:66-81 | text that grows and does not end in U+FFFD ends at a character boundary |
| `Streaming.NewText` | streaming/stream_manager.py:66-81 | the delta is what decoding everything adds, and the offsets fit again |
| `Streaming.NewStop` | streaming/stream_manager.py:87-95 | the narrowed search returns the earliest stop of the whole text |
| `Streaming.Emission` | streaming/stream_manager.py:83-122 | what is sent, held or cut, as the whole-text reference decides |
| `Streaming.StreamResponse` | streaming/stream_manager.py:35-122 | the stream sends exactly what the reference that decodes and searches the whole history sends; only the piece before a stop sequence may neither pause nor be long |
| `Streaming.ReferenceIsSound` | streaming/stream_manager.py:35-122 | decoded text is the decode of the tokens read; what is sent is a prefix of it without a complete stop sequence, at most 15 characters behind |
| `Streaming.ReferenceIsPrompt` | streaming/stream_manager.py:55-122 | while no stop is hit: all complete text is decoded; text that ends in a space or punctuation is all sent; and nothing is sent that does neither and has fewer than 16 characters; special tokens never count |
| `Streaming.PausingTextIsSent` | streaming/stream_manager.py:106-116 | a live stream whose text ends in a space or punctuation has sent all of it, and the end marker adds nothing |
| `Streaming.WhatEndsAStream` | streaming/stream_manager.py:47-53 | the end marker finishes a live stream and a failure breaks it with its message; neither sends text |
| `Streaming.SpecialTokensAreSkipped` | streaming/stream_manager.py:59-62 | a special token changes nothing, whenever it comes |
| `Streaming.EverythingIsSent` | streaming/stream_manager.py:103-122 | after a token the client has the whole decoded text exactly when the token added none and none was held, or added some that was complete and flushed |
| `Streaming.WholeStreamIsSent` | streaming/stream_manager.py:35-122 | over a whole queue that ends without a stop: the client has got the decode of all tokens exactly when the last token left nothing held back |
| `Streaming.DoneDropsTheTail` | streaming/stream_manager.py:47-49 | a one-token answer that is never sent |
| `Server.Drain` | scheduler/model_swap.py:43-50 | requests arrive, are cancelled and generate between the looks; draining ends at the first look that finds nobody, or at the first one at or after the deadline; if nothing happens meanwhile it succeeds exactly when an idle look comes in time |
| `ModelSwap.Process.SwapModel` | scheduler/model_swap.py:33-80 | asked for at any time: a swap drains, replaces model and tokenizer together and drops the cache, with every request closed under what served it and holding no block; or the model stays, and the tokenizer is what the loads that worked leave; and when it times out |
| `ModelSwap.PairedAfterIff` | scheduler/model_swap.py:54-67 | model and tokenizer belong together after loading exactly if both loads worked, or the rollback did, or no new tokenizer came and they did before (or it came under the same name) |
| `ModelSwap.FailedRollbackSplits` | scheduler/model_swap.py:58-67 | the new tokenizer loads, the new model does not, and neither does the old tokenizer again: the old model serves with the new tokenizer |
| `ModelSwap.PairedThroughoutIff` | scheduler/model_swap.py:33-80 | over a whole life they belong together at all times exactly if no swap in it fails that way |
| `ModelSwap.Process.Run` | scheduler/continuous_scheduler.py:816-833 | whole runs with any number of swaps in them: each request is waiting, generating or closed with the tokens of a full recomputation by what served when it came, up to the first that ends it; a swap loads exactly when it finds nobody in time; whoever is not in the batch holds no block |
| `ModelSwap.NextIsRight` | scheduler/model_swap.py:83-148 | every atomic step of any worker keeps the protocol invariant |
| `ModelSwap.RunIsRight` | scheduler/model_swap.py:83-148 | so does every run of any number of workers |
| `ModelSwap.OnlyWhatLoadsIsServed` | scheduler/model_swap.py:54-97 | in every run, every name published has loaded on a worker that was asked for it, and every worker serves its first name or one that it has itself loaded since |
| `ModelSwap.FailureChangesNothing` | scheduler/model_swap.py:57-67 | a swap that fails, asked for or in following, changes nothing that is served, reported or published |
| `ModelSwap.StepsAreOnesOwn` | scheduler/model_swap.py:101-148 | no step touches another worker or its report; a target no newer than one's own is not read; only the publication of a loaded model moves the target, by one |
| `ModelSwap.GenerationsRiseByOne` | scheduler/model_state.py:125-157 | each publication takes the next generation, and none is lost |
| `ModelSwap.ReportersServeWhatTheyReport` | scheduler/model_state.py:160-179 | a worker that has reported serves the name published at the generation it reports, exactly when it is not between loading another name and saying so |
| `ModelSwap.Convergence` | scheduler/model_state.py:182-210 | the loop counts the reports, and those at the target generation |
| `ModelSwap.ConvergedMeansServing` | scheduler/model_state.py:182-210 | all reports at the target means all reporters serve it, exactly when none is between loading something else and saying so |
| `ModelSwap.WindowHidesASwap` | scheduler/model_swap.py:93-97 | convergence is reported while the worker serves another model |
| `ModelSwap.EveryoneConverges` | scheduler/model_swap.py:101-148 | once publishing stops, in any interleaving, from any reachable state: a follow by each worker that is free when it reads the target, with the swap and the report that it still needs, ends in reported convergence and in everyone serving it |
| `ModelSwap.PublisherFollows` | scheduler/model_swap.py:120-125 | the worker that published follows by reading and reporting, without a swap |
| `ModelSwap.QuietRunSettles` | scheduler/model_swap.py:101-148 | while nobody publishes, the target and the protocol invariant stay, whatever was still under way |
| `RateLimit.AccruedRange` | api/ratelimit.py:58-62 | a refill never takes tokens away, adds exactly what has accrued, and never exceeds the capacity |
| `RateLimit.ChargeIsExact` | api/ratelimit.py:122-145 | admitted exactly when there is a free slot and tokens enough; then exactly the cost and one slot are taken, from that identity alone; nothing is taken otherwise |
| `RateLimit.RateLimiter.EvictIdle` | api/ratelimit.py:86-98 | exactly the stale buckets go, at most once per eviction period |
| `RateLimit.SweepIsHourly` | api/ratelimit.py:86-98 | a sweep comes at most once an hour, and drops exactly the buckets unused for more than an hour and without a slot in use |
| `RateLimit.RateLimiter.Acquire` | api/ratelimit.py:100-145 | the whole table and the decision after an acquire |
| `RateLimit.RateLimiter.Release` | api/ratelimit.py:147-154 | one slot comes back, never below zero |
| `RateLimit.Serve` | api/ratelimit.py:65-154 | the limiter object, driven through any run, makes the decisions of the specification |
| `RateLimit.InFlightIsExact` | api/ratelimit.py:125-154 | in-flight is admitted minus released, through evictions |
| `RateLimit.InFlightIsCapped` | api/ratelimit.py:125-131 | in-flight never exceeds the cap |
| `RateLimit.EvictionIsUnseen` | api/ratelimit.py:86-98 | no run can tell an evicting limiter from one that never evicts, if the rate fills a bucket within the eviction time |
| `RateLimit.EvictionUnseenIff` | api/ratelimit.py:86-98 | and only then |
| `RateLimit.SecondBurst` | api/ratelimit.py:86-121 | otherwise a second burst is admitted that should not be |
| `RateLimit.WindowBound` | api/ratelimit.py:49-62 | the cost admitted to an identity in any interval is at most burst + rate * length |
| `RateLimit.WindowBoundIff` | api/ratelimit.py:86-121 | for all runs exactly when the rate fills a bucket within the eviction time |
| `RateLimit.RetryIsNotTooFast` | api/ratelimit.py:133-142 | over whole runs: a caller turned away with a cost within the burst who comes back Retry-After and a millisecond later, with nothing charged to it in between, is not turned away for its rate again |
| `RateLimit.FitsInTheBurst` | api/ratelimit.py:122-142 | a cost above the burst is never admitted, whatever Retry-After says; one within it is, from a full bucket |
| `RateLimit.DisabledAdmitsEverybody` | api/ratelimit.py:106-107 | switched off, the limiter admits everybody in every run and keeps no account |
| `RateLimit.ExactRetryIsTooFastIff` | api/ratelimit.py:139-141 | coming back exactly after Retry-After is turned away exactly when the true wait is over a second and less than a millisecond past a whole one, and the bucket has not been evicted; the header is at most max(1, true wait + 0.999) |
| `RateLimit.OneSecondIsTooShort` | api/ratelimit.py:139-141 | a run of the limiter: told to wait 1 second, back after 1 second, turned away again |
| `BatchGeneration.Take` | engine/generator.py:351-378 | one token for one request: streamed, recorded, and finished exactly if it ends it |
| `BatchGeneration.UpdateRecords` | engine/generator.py:349-378 | every active request's record moves by its own token, and the rows to keep are exactly those that go on |
| `BatchGeneration.TokensAreRight` | engine/generator.py:300-388 | each row's token and new row are what the same padded row would give with no other row there |
| `BatchGeneration.CompactedInStep` | engine/generator.py:390-405 | compaction keeps ids, mask, past and last token of every surviving row together |
| `BatchGeneration.Iterate` | engine/generator.py:293-405 | one iteration keeps every row what it would be with no other row there |
| `BatchGeneration.RowsArePlain` | engine/generator.py:380-405 | while a row is in the batch its ids are its prompt and its tokens, and its mask is the one it came with and a one for every token |
| `BatchGeneration.LifeIsPlain` | engine/generator.py:293-378 | token k comes from the first pass over the padded prompt, or from the pass of token k-1 behind the past so far under the mask with k ones, sampled against the prompt and the tokens before; the last token is the first that is the end marker, the last allowed or completes a stop sequence; the output is trimmed there |
| `BatchGeneration.GenerateBatch` | engine/generator.py:271-416 | each output, at its original index, is what the same padded row would have given, had no other row been there, in plain terms too; and every stream is its tokens and then the end |

## Left out

- Tensor numerics, sampling probabilities, repetition penalties and device memory: the forward pass and the sampler are unknown functions.
- Several layers and heads: one cell stands for all of them; a step's past is usable for every row or for none, as the source checks layers and not rows.
- The exact sifting order of CPython's heap: the heap is the textbook one with the same contract, and keys are distinct wherever it is used.
- The static batch queue's own worker: a swap that drains sees only whether that queue is empty.
- HTTP routes, authentication, SSE transport, the command-line client, settings, metrics, logging and the idempotency store.
- Tokenizer exceptions, the chat template and the encoding of prompts inside admission: a request carries the token ids of its formatted prompt, whatever tokenizer is in memory then.
- Arrivals in the middle of one admission call, and the queue's waiting with a timeout: an empty queue ends the call.
- A limit of zero tokens: the request schema admits limits from 1 upwards (`schemas/schemas.py:6-11`), and admission is modelled for those.
- BatchGeneration.GenerateBatch: a row is compared with itself alone under the same padding and mask, not with a batch of one without padding, because this loop passes no positions and penalises repeats over the padded ids, so the padding may matter to the model and to the sampler.
- Cancellation in the middle of `generate_batch`; its requests' fields are sequences indexed by original position there, so aliasing between requests is not modelled in that file.
- Corrupt or unwritable state files, failed publications, and the reaping of worker files older than 300 seconds.
- That no partial piece of a stop sequence is sent: the buffer may send the first characters of one, and only complete ones are excluded.
- `identity_for` and the two wrappers that release a slot: thin layers around `acquire` and `release`.
