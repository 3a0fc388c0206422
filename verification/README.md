# Hotbatch, verified

This project models Hotbatch, a continuous-batching inference scheduler for GPT-2, and
proves what its users rely on: a request gets the tokens that a plain, uncached, unbatched
run of the model would give it, whatever else is being served, whoever disconnects, and
whenever a tensor kernel fails or the server shuts down.

## How it is laid out

| file | what it holds |
|---|---|
| `Transformer.dfy` | the GPT-2 forward pass over exact reals, full and cached, and their equality |
| `Textbook.dfy` | the forward pass as equations between coordinates, and the proof that the computation satisfies them |
| `KvCache.dfy` | the slab of key/value storage and its generation-stamped handles |
| `Gpt2Backend.dfy` | prefill and batched decode as they run, layer by layer, writing the slab |
| `Sampling.dfy` | top-k/top-p selection, the weighted draw, the xorshift generator |
| `Overlap.dfy`, `Sequence.dfy` | the sequence state machine and the token-level stop filter |
| `Reference.dfy` | what a request means: sample from full forward passes, cut at the first end |
| `Clients.dfy` | channels, disconnects, cancellation and shutdown as the environment |
| `RequestQueue.dfy` | the bounded priority queue |
| `Machine.dfy`, `Steps.dfy` | the system state as one value, its invariant, and every step on it |
| `Pacing.dfy` | order of service, the log of rounds, the bounded wait |
| `Chronicle.dfy` | the books of a run: why each request ended, checked against what happened, and the log, checked against the fate of each request |
| `Invariants.dfy`, `Soundness.dfy`, `Scheduler.dfy` | the scheduler loop, proved to keep the invariant and the books |
| `Deadlines.dfy` | by when an undisturbed request has its whole answer |
| `Consumption.dfy`, `Naive.dfy` | the solo engine, and continuous batching measured against it |
| `TextFilter.dfy`, `FallbackTokenizer.dfy`, `Responses.dfy` | the text-level stop filter, UTF-8 decoding, and the two HTTP response drivers |
| `Answers.dfy`, `EndToEnd.dfy` | what the response to a generation says, and from the request to the text its client reads |
| `SseFrames.dfy` | the benchmark client's chunk-fed frame splitter |
| `WakeUp.dfy` | the wait for a nonempty queue as an interleaving |

Code that updates things in place is modelled by classes and methods with loops
(`SlabKvCache`, `Sequence`, `Sampler`, `RequestQueue`, `Scheduler`, `TextOutputFilter`, the
model's forward loops, both response drivers, the frame reader). Each method is tied to a
function of the old state, and the theorems are lemmas about those functions.

## How the environment is modelled

* Receivers and cancellation tokens are monotone flags (`Clients.Flags`). They may change
  before every single read; channels may be drained then as well. Reservation in a channel
  is atomic, as it is in the channel library.
* Client submissions come from an arbitrary finite script. Any number of them may happen at
  the start of a round, before every pop and every check for a free place, after admission
  (whether or not every place is taken), before every row that is consumed, and on both
  sides of the closing of the queue. The steps in between neither read nor write the queue,
  so a submission during one of them is one just before or just after it. Accepted requests
  are numbered in order of acceptance; the number stands for the request's UUID, its channel
  and its cancellation token.
* Any tensor kernel may fail at any point (`Kernel`), with rows already half written. The
  ghost record `Device.faults` counts the failures and names the requests they hit.
* The scheduler's endless loop is cut after any number of rounds by a shutdown, so what
  holds on return and at every loop head holds for every finite run.
* The per-row kernels (embeddings, layer norms, projections, MLP, `exp`) are arbitrary
  functions of the row. This is the row-independence assumption on the model. The layer
  stack, the causal mask, per-head attention, positions and every cache access are concrete.
* Two ghost ledgers, `Metrics.accepted` and `Metrics.ended`, record what was accepted and
  why each request ended; `Chronicle.CauseFits` ties every recorded cause to what really
  happened: to the flags of the clients, to `Device.faults`, to the request failing
  validation, to a channel too small for a whole answer, or to a shutdown. Whoever ended with
  an error was sent exactly that error last, or had closed its receiver, or had a channel that
  may have had no place left for it (`Clients.Told`).
* Every round goes on a ghost log, whether it decodes or finds nothing to serve, with what
  was pending, running and ended then. A shutdown is recorded in the same way
  (`Scheduler.closings`). A request may be recorded as interrupted only if a shutdown found
  it pending, and then it was told nothing else, or running, and then its client was sent
  exactly what is safe to show of the tokens it had.

## Where the code and expectations differ

* With stops such as `abcd` and `bc` the streamed text depends on how the text arrives.
  `TextFilter.ChunkingIrrelevantIff` gives the exact condition: the cutting is irrelevant if
  and only if no stop lies strictly inside a leading stop, one that has no other stop as a
  proper prefix.
* `trim_end_matches` holds back every trailing U+FFFD of a decoding and `finish` lets it out
  without looking for stops. So a stop that ends with U+FFFD is missed even where the text
  contains it (`Answers.HeldStopIsLetOut`: stop U+FFFD, token 195).
  `Answers.AnswersAreOneShotIff` gives the exact condition over the byte-level tokenizer:
  every answer is the whole text cut at its earliest stop if and only if no stop lies
  strictly inside a leading stop and no leading stop ends with U+FFFD. An answer whose
  budget ends inside a character is no exception.
* The solo engine does not validate requests, so one that is left alone need not complete.
  `Naive.SoloOutcome` gives the exact condition, `Naive.FitsModel`: the prompt and the
  generation up to its first end need at most one position more than the model has, since
  the last token is never fed, and the cache must have room for a row. A prompt longer than
  the model is refused by prefill; any other request that does not fit runs out of positions
  while decoding. `Naive.RoomFor` is what a caller can check beforehand, enough always and
  exact for generations that use their whole budget (`Naive.RoomForFits`);
  `Naive.SmallestMisfit` is the smallest case. Only direct callers of `NaiveEngine::submit`
  can send such a request: the HTTP handlers bound prompt plus budget by a limit that is at
  most the model's (`crates/hotbatch-server/src/api.rs:520-531`,
  `crates/hotbatch-server/src/lib.rs:151-156`).
* `append_token` can turn a cancelled or failed sequence into a finished one
  (`Sequences.CancelledCanFinish`, and exactly when in `Sequences.TerminalStateIsKeptIff`).
  In the running system it never happens, because the scheduler never advances a sequence
  that is done.
* Generation stamps wrap at 2^64, so a stale handle may become current again after that many
  allocations of its slot (`KvCache.IssuedHandleIsCurrentIff`); `KvCache.FreedHandleComesBack`
  exhibits one.
* Two arms of the scheduler are dead code: "failed to admit request" and the removal of
  sequences past the model's capacity. The bodies of `Scheduler.Create` and
  `Scheduler.RemoveSequencesPastModelCapacity` prove it.

## Model

| member | source | states |
|---|---|---|
| Transformer.Causality | crates/hotbatch-core/src/model.rs:688-719 | in every layer, later tokens never change earlier hidden rows of the masked forward pass |
| Transformer.MaskedIsOpenOnPrefix | crates/hotbatch-core/src/model.rs:851-862 | masking the future is the same as attending, without a mask, to the keys up to the query |
| Transformer.CachedDecodeIsFullForward | crates/hotbatch-core/src/model.rs:721-768 | on a cache holding the rows of a full causal forward over some tokens, one decode step gives the last logits of a full forward over those tokens and the new one, and leaves its rows in every layer |
| Transformer.PrefillThenDecodeIsFull | crates/hotbatch-core/src/model.rs:509-585 | prefilling any prefix and decoding any suffix token by token leaves, in every layer, exactly the rows of one full causal forward |
| Textbook.OpenIsAttention | crates/hotbatch-core/src/model.rs:752-758 | the context row of a query is, head by head and coordinate by coordinate, the average of the values weighted by the exponentials of the scaled inner products |
| Textbook.BlockIsTextbook | crates/hotbatch-core/src/model.rs:612-630 | every row of a block is attention over the positions up to it, projected and added coordinate by coordinate to the block's input, plus the MLP of the normalised sum |
| Textbook.FullForwardIsTextbook | crates/hotbatch-core/src/model.rs:560-586 | token plus position embeddings, then every block on the rows of the one before, then the final norm and unembedding of the last row give the logits of a full forward |
| KvCache.AllocateKeepsOk | crates/hotbatch-core/src/kv_cache.rs:103-123 | allocation keeps the slab invariant, hands out a current handle with empty storage, and touches no other slot's rows |
| KvCache.FreeKeepsOk | crates/hotbatch-core/src/kv_cache.rs:125-131 | freeing keeps the slab invariant and the rows of every remaining slot |
| KvCache.WriteKeepsOk | crates/hotbatch-core/src/kv_cache.rs:133-184 | an accepted write replaces the rows of one layer of one slot and nothing else, within the handle's capacity |
| KvCache.WriteErrorMeaning | crates/hotbatch-core/src/kv_cache.rs:133-184 | accepted are exactly the writes under a current handle, into a layer that exists, of equal tensors of the cache's shape with at most as many tokens as the handle's capacity; every error names the first of these that is violated |
| KvCache.ReadsWhatWasWritten | crates/hotbatch-core/src/kv_cache.rs:182-208 | a write is read back as written, everything else reads as before, and a newly allocated slot reads as empty tensors |
| KvCache.FreedSlotComesLast | crates/hotbatch-core/src/kv_cache.rs:112-130 | a freed slot is handed out again only after all slots that were free before it, and these in the order in which they were freed |
| KvCache.FreeSlotIff | crates/hotbatch-core/src/kv_cache.rs:96-101 | free and allocated slots partition all slots, so a free one exists exactly while fewer than all are allocated |
| KvCache.IssuedHandleIsCurrentIff | crates/hotbatch-core/src/kv_cache.rs:90-92 | the c-th handle ever issued for a slot is current if and only if the slot is occupied and stamp and capacity recur, which takes a multiple of 2^64 allocations |
| KvCache.StaleHandleIsInert | crates/hotbatch-core/src/kv_cache.rs:125-145 | below 2^64 allocations of its slot, every superseded or freed handle is refused by writes and ignored by free |
| KvCache.FreedHandleComesBack | crates/hotbatch-core/src/kv_cache.rs:103-123 | a slot freed and allocated again 2^64 times makes its first handle current again, which it was not in between |
| KvCache.SlabKvCache.Allocate | crates/hotbatch-core/src/kv_cache.rs:103-123 | succeeds exactly when there is room; takes the slot free for longest under the next stamp |
| KvCache.SlabKvCache.Free | crates/hotbatch-core/src/kv_cache.rs:125-131 | gives the slot back if the handle is current, else changes nothing |
| KvCache.SlabKvCache.Write | crates/hotbatch-core/src/kv_cache.rs:133-184 | fails with the first violated check, in order, and then changes nothing |
| KvCache.SlabKvCache.Read | crates/hotbatch-core/src/kv_cache.rs:186-208 | succeeds exactly for a current handle and a valid layer; storage never written reads as empty tensors |
| Gpt2Backend.Prefill | crates/hotbatch-core/src/model.rs:271-288 | into fresh storage, caches in every layer the rows of a full forward over all prompt tokens but the last; with a fitting prompt only a kernel can fail, and every kernel failure is on record |
| Gpt2Backend.PrefillLayer | crates/hotbatch-core/src/model.rs:688-719 | one layer of prefill: hidden rows advance by one layer and exactly that layer's keys and values are stored |
| Gpt2Backend.Forward | crates/hotbatch-core/src/model.rs:290-312 | for any batch no other slot's rows change; if its rows have slots of their own, row i of the result is the cached decode of batch row i, whatever the other rows are, and with room to spare only a kernel can fail |
| Gpt2Backend.DecodeRow | crates/hotbatch-core/src/model.rs:721-768 | attention of one row in one layer: the past is read, one row appended and written back, and the hidden row becomes the next layer's |
| Sampling.KeptIsShortestNucleus | crates/hotbatch-core/src/sampler.rs:79-93 | for top-p below 0.999 the kept candidates are the shortest prefix of the ranked top-k survivors whose share reaches the clamped top-p |
| Sampling.PickInvertsRunningTotal | crates/hotbatch-core/src/sampler.rs:99-106 | the draw loop returns a candidate exactly when the drawn target lies in that candidate's stretch of the running total |
| Sampling.SampleIsKept | crates/hotbatch-core/src/sampler.rs:56-107 | at positive temperature a draw in [0,1) always lands on a kept candidate, so the final argmax fallback is unreachable |
| Sampling.GreedyIsArgmax | crates/hotbatch-core/src/sampler.rs:57-59 | at temperatures up to the floor the answer is the first index of a largest logit, and nothing is drawn |
| Sampling.EmptyRowIsTokenZero | crates/hotbatch-core/src/sampler.rs:56-107 | from an empty row token 0 is answered at every temperature, and nothing is drawn |
| Sampling.SurvivorsAreTopK | crates/hotbatch-core/src/sampler.rs:61-66 | top-k keeps exactly its k best logits, at least one and at most all, best first, of equal ones the smaller index first |
| Sampling.WeightsFollowTemperature | crates/hotbatch-core/src/sampler.rs:68-76 | weights stand in the ratio of the exponentials of the logit difference over the temperature, which is at least 0.001 |
| Sampling.KnownDraws | crates/hotbatch-core/src/sampler.rs:109-116 | known answers of the seeding, of one generator step and of the scaling to [0,1) |
| Sampling.NextStateIsNotZero | crates/hotbatch-core/src/sampler.rs:110-113 | a generator that is not in state 0 never gets there |
| Sampling.SecondSortIsIdle | crates/hotbatch-core/src/sampler.rs:78-78 | with a positive monotone exp the weights are already in descending order, so the second sort changes nothing |
| Sampling.SortIsStable | crates/hotbatch-core/src/sampler.rs:62-62 | candidates of equal value keep their order |
| Sampling.Sampler.Sample | crates/hotbatch-core/src/sampler.rs:56-107 | the loops compute the sampling function of the row and the generator state |
| Sampling.Argmax | crates/hotbatch-core/src/model.rs:102-112 | the first index of a largest logit, and 0 for an empty row |
| Overlap.HeldLenIsLongest | crates/hotbatch-core/src/sequence.rs:273-290 | the held length is the longest nonempty stop prefix that the list ends with |
| Overlap.SafeEndNeverRetracts | crates/hotbatch-core/src/sequence.rs:220-235 | what may be shown never shrinks when a list grows |
| Sequences.MatchedStopIsLongest | crates/hotbatch-core/src/sequence.rs:260-271 | the matched length is that of the longest nonempty stop the list ends with, and absent if there is none |
| Sequences.TerminalStateIsKeptIff | crates/hotbatch-core/src/sequence.rs:155-168 | appending to a done sequence keeps its state if and only if it is finished, has a finish reason, or the token ends nothing |
| Sequences.CancelledCanFinish | crates/hotbatch-core/src/sequence.rs:155-168 | a running sequence, cancelled and given an EOS token, becomes finished |
| Sequences.TrimmedTokensWereHeld | crates/hotbatch-core/src/sequence.rs:155-168 | the tokens dropped at a stop or EOS had all been held back one token earlier |
| Sequences.EmissionsAreOneShot | crates/hotbatch-core/src/sequence.rs:141-175 | shown token by token, a finished generation shows exactly its one-shot truncation at the first end |
| Sequences.OutputIsClean | crates/hotbatch-core/src/sequence.rs:220-235 | the output contains neither the EOS token nor any whole stop sequence |
| Sequences.EndingMeaning | crates/hotbatch-core/src/sequence.rs:155-168 | a generation ends with a token if and only if that is EOS, completes a stop or uses up the budget; cut off is the longest stop it ends with, or else the one EOS token, or nothing |
| Sequences.OneShotMeaning | crates/hotbatch-core/src/sequence.rs:155-168 | a generation that no EOS token and no stop ends has exactly its budget of tokens, at least one; any other is cut at the first of these, with exactly the longest stop or else the one EOS token dropped |
| Sequences.AllSafeIsShown | crates/hotbatch-core/src/sequence.rs:220-258 | an unfinished sequence may show all but the longest ending that begins a stop |
| Sequences.Sequence.AppendToken | crates/hotbatch-core/src/sequence.rs:141-175 | the new sequence state, with finish reason and trim decided by the longest matched stop, else EOS, else the budget |
| Sequences.Sequence.TakeEmittableTokens | crates/hotbatch-core/src/sequence.rs:220-235 | hands out exactly the tokens between the shown and the safe end |
| Sequences.Sequence.New | crates/hotbatch-core/src/sequence.rs:114-133 | admits exactly when the cache has room, in a slot sized for prompt and budget |
| Reference.FinishedHoldsAnswer | crates/hotbatch-core/src/sequence.rs:155-168 | a sequence in step with the reference that finishes holds the reference answer up to its safe end, for the same reason |
| Reference.ShownBeginsAnswer | crates/hotbatch-core/src/sequence.rs:220-235 | what an unfinished sequence in step with the reference has shown begins its answer |
| Reference.LengthIsAhead | crates/hotbatch-core/src/sequence.rs:141-175 | a sequence in step with the reference is shorter than its generation up to the first end, and the token that finishes it reaches that length |
| Reference.AnswerMeaning | crates/hotbatch-core/src/sequence.rs:141-175 | the answer is the whole reference generation of the budget if and only if no EOS token and no stop comes up in it, and otherwise its beginning up to the first of these |
| Clients.Clients.TrySendTokens | crates/hotbatch-core/src/sequence.rs:34-61 | delivers all tokens and the terminal event or nothing; it delivers exactly if the channel is open and what was sent and not yet taken out leaves room for all of them |
| Clients.Clients.TrySendError | crates/hotbatch-core/src/scheduler.rs:473-475 | delivers the error exactly if the channel is open and has a place left |
| RequestQueues.RequestQueue.Retain | crates/hotbatch-core/src/scheduler.rs:85-92 | drops in order exactly the requests seen closed, all closed before the call among them, and counts each once |
| RequestQueues.RequestQueue.Submit | crates/hotbatch-core/src/scheduler.rs:67-83 | accepts at the back exactly when open and below the depth limit after pruning; the limit is never exceeded |
| RequestQueues.RequestQueue.TryPop | crates/hotbatch-core/src/scheduler.rs:85-108 | removes the first live request of highest priority |
| RequestQueues.RequestQueue.CloseAndDrain | crates/hotbatch-core/src/scheduler.rs:133-142 | closes the queue for good and hands out what was pending |
| RequestQueues.BestIndexIsBest | crates/hotbatch-core/src/scheduler.rs:97-104 | the selected request has the highest priority and none of that priority before it |
| RequestQueues.PopAllIsStableSort | crates/hotbatch-core/src/scheduler.rs:85-108 | repeated pops yield the stable sort of the pending requests by descending priority |
| Machine.BrokenHistory | crates/hotbatch-core/src/sequence.rs:34-61 | a sequence broken off between any two tokens leaves a gap-free beginning of its answer and at most one error |
| Steps.PruneKeepsGood | crates/hotbatch-core/src/scheduler.rs:67-75 | pruning keeps the whole invariant: each dropped request ends once and is counted once |
| Steps.AdmissibleIff | crates/hotbatch-core/src/scheduler.rs:374-403 | valid are exactly the requests with a nonempty prompt and a budget in 1..limit for which an empty cache of the smallest of the three sequence lengths has room |
| Steps.AdmissionKeepsGood | crates/hotbatch-core/src/scheduler.rs:228-239 | admission keeps the whole invariant: the request moves into a slot of its own with nothing cached |
| Steps.PrefillKeepsGood | crates/hotbatch-core/src/scheduler.rs:449-454 | a prefilled sequence is running with its prompt cached up to the last token, and no other sequence's rows changed |
| Steps.BatchIsServable | crates/hotbatch-core/src/scheduler.rs:456-471 | the decode batch has distinct slots, current handles, positions below the model's and room for one more row each |
| Steps.CapacityCloses | crates/hotbatch-core/src/scheduler.rs:417-434 | before each decode the cached length is the decode position, below the model's positions and, one step later still, below the slot's capacity |
| Steps.DecodeKeepsGood | crates/hotbatch-core/src/scheduler.rs:288-310 | after a batch, row i of the logits is that of a full forward over the context of running sequence i, and its cache is that of the whole context |
| Steps.EmissionNeverRetracts | crates/hotbatch-core/src/sequence.rs:232-233 | in the running system the slice of emittable tokens never fails |
| Steps.SpeakingKeepsGood | crates/hotbatch-core/src/scheduler.rs:334-345 | a delivered update that does not finish the sequence keeps the whole invariant |
| Steps.CompletionKeepsGood | crates/hotbatch-core/src/scheduler.rs:334-345 | with its terminal event a request's history is its whole answer, and it has ended |
| Steps.CutKeepsGood | crates/hotbatch-core/src/scheduler.rs:312-345 | a sequence may be cancelled or failed at any point with the invariant kept |
| Steps.ReapKeepsGood | crates/hotbatch-core/src/scheduler.rs:436-447 | reaping a done sequence frees its slot and keeps the invariant for the others |
| Steps.SpoiledRowsKeepGood | crates/hotbatch-core/src/scheduler.rs:292-309 | rows half written by a failed batch concern done sequences only |
| Steps.UpdateFits | crates/hotbatch-core/src/sequence.rs:34-61 | everything ever sent to a request fits into one channel slot per token of its budget and one more |
| Steps.ChannelCapacityMeaning | crates/hotbatch-server/src/api.rs:542-546 | the channel made for a request has one place per token and one more, at least 2 and at most 32 |
| Steps.SmallRequestsAlwaysFit | crates/hotbatch-server/src/api.rs:542-546 | the channel made for a request holds its whole output exactly when the budget is below 32 tokens; then no update lacks room |
| Pacing.BoundedWait | crates/hotbatch-core/src/scheduler.rs:207-276 | a request with k requests ahead of it, and none of higher priority coming later, is not pending any more from (k / places + 1) * limit further rounds on, also when it was submitted while every place was taken |
| Pacing.OneWindow | crates/hotbatch-core/src/scheduler.rs:312-347 | over as many rounds as the token limit, a whole batch of requests ahead of a pending one is popped |
| Pacing.PopKeepsPace | crates/hotbatch-core/src/scheduler.rs:85-108 | requests of equal priority leave in order of submission, also with submissions, prunes and pops interleaved |
| Pacing.PoppedBeatsPending | crates/hotbatch-core/src/scheduler.rs:85-108 | whoever is popped while a request stays pending has higher priority, or equal priority and came earlier |
| Pacing.PoppedWasPending | crates/hotbatch-core/src/scheduler.rs:85-108 | whoever is popped between two rounds was pending at the first, unless it came later |
| Deadlines.Deadline | crates/hotbatch-core/src/scheduler.rs:199-372 | a valid request with k requests ahead of it and none of higher priority coming later, whose client stays, whose channel holds the whole answer and which no kernel failure hits, has completed by (k / places + 2) * limit rounds after one in which it was pending, with its whole answer sent, unless the scheduler was shut down before |
| Invariants.AllocatedCount | crates/hotbatch-core/src/scheduler.rs:207-210 | as many slots are allocated as there are sequences, and a free one remains while there are fewer than all |
| Soundness.EmptyIsSettled | crates/hotbatch-core/src/scheduler.rs:362-371 | with nothing pending or running, nothing is allocated, every accepted request has ended once for a cause that is the real one, every channel history is legal, whoever ended with an error was told that error or could not be, the log agrees with every request's fate, and the cancelled counter is the number of requests ended by a gone consumer or by a full channel too small for a whole answer |
| Chronicle.PruneIsTruthful | crates/hotbatch-core/src/scheduler.rs:67-73 | pruning ends pending requests only, as disconnected, each with a closed receiver, and changes no other recorded cause |
| Chronicle.NewRecordDocuments | crates/hotbatch-core/src/scheduler.rs:199-372 | between two steps every request accepted so far has ended, is pending or is running |
| Chronicle.CauseStays | crates/hotbatch-core/src/scheduler.rs:199-372 | a recorded cause that was true stays true, whatever clients, kernels and other requests do |
| Chronicle.ErrorInforms | crates/hotbatch-core/src/scheduler.rs:473-475 | a request may end without its error item only if its receiver is closed or its channel may be full |
| Soundness.InterruptionFits | crates/hotbatch-core/src/scheduler.rs:366-369 | a sequence cut off by a shutdown has sent exactly what is safe to show of the tokens it had, and at most the shutdown error after it |
| Soundness.RefusalFits | crates/hotbatch-core/src/scheduler.rs:339-344 | an update is refused only by a closed channel or by one too small for the whole answer and its terminal event |
| Soundness.AmpleChannelsOnlyClose | crates/hotbatch-server/src/api.rs:542-546 | over whole runs: a request of fewer than 32 tokens with the channel made for it ends undelivered only if its client closed the channel |
| Soundness.AmpleChannelsAreTold | crates/hotbatch-server/src/api.rs:542-546 | over whole runs: a request of fewer than 32 tokens with the channel made for it that ends with an error is told exactly that error, last, unless its client closed the channel |
| Schedulers.Scheduler.constructor | crates/hotbatch-core/src/scheduler.rs:174-189 | a scheduler over an empty queue and a cache of the model's shape satisfies the invariant |
| Schedulers.Scheduler.ValidateRequest | crates/hotbatch-core/src/scheduler.rs:374-403 | accepts exactly the valid requests, which `Steps.AdmissibleIff` ties to the room in a cache |
| Schedulers.Scheduler.RemoveClosedSequences | crates/hotbatch-core/src/scheduler.rs:405-415 | whoever was abandoned before the call is gone after it, and only abandoned sequences go |
| Schedulers.Scheduler.ReapDoneSequences | crates/hotbatch-core/src/scheduler.rs:436-447 | exactly the sequences that are not done remain, in order, and the others' slots are free |
| Schedulers.Scheduler.NextRequest | crates/hotbatch-core/src/scheduler.rs:211-213 | the popped request is in the scheduler's hand; nothing popped means nothing pending |
| Schedulers.Scheduler.Screen | crates/hotbatch-core/src/scheduler.rs:215-226 | a request goes on only if it is valid and was not abandoned before, and nothing is sent to one that was; otherwise it ends for the recorded, true cause, and is told if it is invalid |
| Schedulers.Scheduler.Create | crates/hotbatch-core/src/scheduler.rs:228-239 | below the places, admission of a valid request cannot fail |
| Schedulers.Scheduler.Prefill | crates/hotbatch-core/src/scheduler.rs:253-261 | a prefilled sequence is running; if it fails, a kernel failed, and the sequence is failed and told, with the invariant kept |
| Schedulers.Scheduler.Prepare | crates/hotbatch-core/src/scheduler.rs:241-261 | a sequence abandoned before the call is not prefilled: no cached row, no kernel and no channel is touched |
| Schedulers.Scheduler.Join | crates/hotbatch-core/src/scheduler.rs:263-275 | a prefilled sequence joins the batch last, unless it was abandoned; one abandoned before the call never does |
| Schedulers.Scheduler.AdmitOne | crates/hotbatch-core/src/scheduler.rs:215-275 | through every early exit the invariant holds, at most one new running sequence appears, and none for a request abandoned before |
| Schedulers.Scheduler.Admit | crates/hotbatch-core/src/scheduler.rs:207-276 | with submissions before every pop, admission ends with every place taken or a pop that found nothing |
| Schedulers.Scheduler.Refill | crates/hotbatch-core/src/scheduler.rs:205-279 | after the admission part of a round every place is taken, or whatever is pending came during this round; nobody abandoned before it is in the batch |
| Schedulers.Scheduler.RemoveSequencesPastModelCapacity | crates/hotbatch-core/src/scheduler.rs:417-434 | never removes anything |
| Schedulers.Scheduler.BuildDecodeBatch | crates/hotbatch-core/src/scheduler.rs:456-471 | row i of the batch belongs to running sequence i, with its handle, last token and position |
| Schedulers.Scheduler.Feed | crates/hotbatch-core/src/scheduler.rs:288-310 | one forward pass gives every running sequence the logits of a full forward over its own context, or a kernel failed for all of them; nothing older than the last logged step is pending while a place is free |
| Schedulers.Scheduler.Deliver | crates/hotbatch-core/src/scheduler.rs:339-344 | an update is delivered whole or the request ends; it ends undelivered only if the channel is closed or lacks room |
| Schedulers.Scheduler.ConsumeRows | crates/hotbatch-core/src/scheduler.rs:312-345 | every sequence grows by exactly one token, unless its client has gone or needs no more, and then it is done and unchanged |
| Schedulers.Scheduler.FailAll | crates/hotbatch-core/src/scheduler.rs:294-300 | when a batch fails, every sequence in it is failed and told, and the half-written rows harm nobody |
| Schedulers.Scheduler.DecodeStep | crates/hotbatch-core/src/scheduler.rs:288-347 | one recorded decode step, after which exactly running sequences remain, each one token longer |
| Schedulers.Scheduler.CloseQueue | crates/hotbatch-core/src/scheduler.rs:362-365 | what is pending and running goes on the record, and every pending request ends with the shutdown error alone, or with nothing if its receiver is closed or its channel may be full |
| Schedulers.Scheduler.Shutdown | crates/hotbatch-core/src/scheduler.rs:362-371 | submissions racing with the closing are refused or drained, and every running sequence ends with its slot freed, as the one record of the shutdown says, and is told so unless it is out of reach |
| Schedulers.Scheduler.Round | crates/hotbatch-core/src/scheduler.rs:200-360 | a round stops only on a shutdown, and at once on one that came before it; otherwise it goes on the record, and nobody abandoned before it is in the batch after it; it is idle only if nothing runs and, unless there are no places at all, whatever is pending came during this very round |
| Schedulers.Scheduler.Run | crates/hotbatch-core/src/scheduler.rs:199-372 | for every run, with submissions at any moment: nothing stays allocated or pending; every accepted request ended with one cause, the real one, and a legal history against the reference answer, and was told of the error that ended it unless it was out of reach; every round is on a log that satisfies the pacing relation behind the bounded wait and agrees with every request's fate; the shutdown continues that log, and what it interrupted is on its record; the run is short only if shutdown was requested |
| Consumption.NextTokens | crates/hotbatch-core/src/scheduler.rs:334-340 | sampling, appending and taking tokens computes the next reference state and exactly the newly safe items |
| Naive.Checkpoint | crates/hotbatch-server/src/naive.rs:167-176 | stops for the first reason that really holds; going on means none held before |
| Naive.Turn | crates/hotbatch-server/src/naive.rs:199-247 | one turn of the solo loop adds one reference token, or ends the request legally for a true cause; it goes on only if nothing had stopped it before; without a kernel failure decoding fails only for a request that does not fit the model, and one that completes fits |
| Naive.SoloHasHeadroom | crates/hotbatch-server/src/naive.rs:211-222 | a solo decode step can be stopped by nothing but a kernel exactly when its position is below the model's and the cache has room for a row |
| Naive.StepsOfFitting | crates/hotbatch-core/src/model.rs:290-312 | every decode step of a request that fits the model has a position, and a generation whose last step has one fits |
| Naive.RoomForFits | crates/hotbatch-core/src/model.rs:271-304 | the bound a caller can check is enough, and exact for generations that use their whole budget |
| Naive.SoloOutcome | crates/hotbatch-server/src/naive.rs:134-256 | left alone, a solo run completes if and only if the request fits the model; a prompt longer than the model always fails in prefill, and any other misfit in decoding |
| Naive.SmallestMisfit | crates/hotbatch-core/src/model.rs:290-304 | one prompt token and a budget of two fit a model exactly if it has two positions |
| Naive.RunNaiveRequest | crates/hotbatch-server/src/naive.rs:134-256 | on a cache of its own, without validation, a request ends with its whole reference answer or a gap-free beginning of it, and for a true cause; one that a shutdown, its response or its client had stopped before is sent nothing |
| Naive.Serve | crates/hotbatch-server/src/naive.rs:119-129 | together with its error report the solo history is legal, and whoever ended with an error was told which, unless its receiver was closed or its channel may have been full |
| Naive.BatchedRefinesSolo | crates/hotbatch-core/src/scheduler.rs:312-345 | a request's tokens under continuous batching begin the tokens of a completed solo run, and equal histories result when both complete |
| TextFilter.TextOutputFilter.Push | crates/hotbatch-server/src/sse.rs:38-78 | the earliest stop cuts the text, otherwise all but the longest possible stop prefix is let out, with each error exactly where the code has it |
| TextFilter.TextOutputFilter.Finish | crates/hotbatch-server/src/sse.rs:80-87 | lets out all held text, or fails if emitted text changed |
| TextFilter.PushMeaning | crates/hotbatch-server/src/sse.rs:38-78 | a push lets out everything before the first stop, or everything but the longest ending that may still become a stop; it fails exactly where that would take back or change emitted text |
| TextFilter.ResponseIsExact | crates/hotbatch-server/src/sse.rs:38-87 | on growing texts no error arm is reachable, and the shown text is the first pushed text with a stop, cut there, else everything |
| TextFilter.StoppedTextHasNoStop | crates/hotbatch-server/src/sse.rs:43-55 | text cut at a stop contains no stop at all |
| TextFilter.ChunkingIrrelevantIff | crates/hotbatch-server/src/sse.rs:38-87 | every cutting of every text shows the one-shot cut if and only if no stop lies strictly inside a leading stop |
| TextFilter.InnerStopBreaksChunking | crates/hotbatch-server/src/sse.rs:38-87 | for every stop strictly inside a leading one, a text and a cutting of it that shows something else |
| FallbackTokenizer.StableGrows | crates/hotbatch-core/src/model.rs:876-886 | the decoding of a token prefix, trailing U+FFFD trimmed, begins every later trimmed decoding and the later untrimmed one |
| FallbackTokenizer.AcceptedBytesAreTheEncoding | crates/hotbatch-core/src/model.rs:876-886 | a character is accepted only in its one UTF-8 encoding (section 4 of RFC 3629): no overlong form, no surrogate |
| FallbackTokenizer.DecodeInvertsEncode | crates/hotbatch-core/src/model.rs:872-886 | decoding the encoding of any text gives the text back |
| FallbackTokenizer.ReplacedPartIsMaximal | crates/hotbatch-core/src/model.rs:876-886 | bytes replaced by one U+FFFD are a single byte or the beginning of some character's encoding, and with one byte more they begin none |
| FallbackTokenizer.OtherTokensAreSkipped | crates/hotbatch-core/src/model.rs:876-884 | a token outside 1..256 changes no decoding, wherever it stands |
| Responses.OpenAiStream | crates/hotbatch-server/src/sse.rs:99-253 | a client that joins the contents up to the one finishing frame and the end marker reads exactly the specified text and reason, or its text up to the same failure; one open frame per pushed token, with its content; only the last frame of a chat may lack content, and then nothing was left to say |
| Responses.RespondMeaning | crates/hotbatch-server/src/sse.rs:99-253 | the outcome of every channel and decoder: stopped at the first text with a stop, cut there; finished with the whole decoded text; or broken by the first thing wrong in the channel, with all but a possible beginning of a stop shown; tokens are counted up to there |
| Responses.CollectGeneration | crates/hotbatch-server/src/api.rs:630-683 | returns the text, token count and reason of the same specification, or its failure, and stops generation in the same case |
| Responses.BothDrivers | crates/hotbatch-server/src/api.rs:630-683 | run on one channel, both drivers end with the same text, reason and token count, or with the same failure, and cancel generation in the same cases |
| Responses.StopIsFinal | crates/hotbatch-server/src/sse.rs:125-176 | once a response stopped at a text stop, whatever follows in the channel does not change it |
| Answers.CompletedResponse | crates/hotbatch-server/src/sse.rs:117-129 | for any decoder whose settled text grows, a completed generation gives a complete response, cut where a pushed text first contains a stop |
| Answers.FallbackGrows | crates/hotbatch-core/src/model.rs:876-886 | the byte-level tokenizer is such a decoder, on every token list |
| Answers.CompletedResponseIsOneShot | crates/hotbatch-server/src/sse.rs:99-253 | for any such decoder, without inner stops and leading stops that end with U+FFFD, the answer is the whole decoded text cut at the earliest stop, also where it ends inside a character |
| Answers.AnswersAreOneShotIff | crates/hotbatch-server/src/sse.rs:99-253 | over the byte-level tokenizer this condition on the stops is exact |
| Answers.HeldStopIsLetOut | crates/hotbatch-server/src/sse.rs:117-121 | with the stop U+FFFD and an incomplete character the response shows U+FFFD and does not stop |
| EndToEnd.CompleteMeansWhole | crates/hotbatch-server/src/sse.rs:99-253 | whatever happened to a request, a response that looks complete equals the response of its completed solo run |
| EndToEnd.CompletedIsAnswered | crates/hotbatch-server/src/api.rs:630-683 | where the settled text of the answer grows, the response to a completed request is the text of its reference answer, cut at its stops |
| EndToEnd.EveryResponseIsSound | crates/hotbatch-core/src/scheduler.rs:199-372 | after every run, each accepted request's response equals that of its completed solo run or says that it is broken, and where the settled text of the answer grows it does complete if the request did |
| SseFrames.FrameBoundary | crates/hotbatch-bench/src/lib.rs:273-283 | finds the first blank line and its width, and none only if there is none |
| SseFrames.BoundaryIsStable | crates/hotbatch-bench/src/lib.rs:273-283 | a boundary found in a buffer is that of every extension, also across a split CRLFCRLF |
| SseFrames.SplitInTwo | crates/hotbatch-bench/src/lib.rs:220-225 | splitting a stream is splitting a front part and going on with what it left over |
| SseFrames.SplitInvertsWritten | crates/hotbatch-bench/src/lib.rs:223-225 | frames written with a blank line after each, by LF or CRLF, are read back frame by frame |
| SseFrames.ReadStream | crates/hotbatch-bench/src/lib.rs:220-271 | whatever the cutting into chunks, the client's result is that of the frames of the whole stream |
| SseFrames.FirstVerdictDecides | crates/hotbatch-bench/src/lib.rs:226-270 | the first frame with a verdict decides the result, with the tokens of all frames up to it; without one the end marker is missing |
| WakeUp.NoLostWakeUp | crates/hotbatch-core/src/scheduler.rs:110-117 | whenever the scheduler is parked over a nonempty queue, a submitter is between its push and its notification, and the next notification wakes the scheduler |
| WakeUp.ParkedGetsThrough | crates/hotbatch-core/src/scheduler.rs:110-117 | a scheduler parked over a nonempty queue is back to work after one of the notifications that are on their way and one look at the queue |
| WakeUp.PushIsAlwaysPossible | crates/hotbatch-core/src/scheduler.rs:67-83 | whatever the scheduler does, a submitter may push a request that is not pending |

## Left out

- Tensor kernels, floating-point rounding, softmax and layer-norm internals, and model loading: row functions and exact reals stand for them. A softmax whose weights sum to zero, which cannot happen over reals with a positive `exp`, yields zeros.
- The scripted backend: it only serves tests and demonstrations, and its timing is sleeps.
- The BPE tokenizer: an arbitrary decoder in the response drivers. Where growth of the decoded text matters it is a premise (`Answers.GrowsOn`), proved for the byte-level tokenizer only.
- Byte offsets in the text filter: texts are sequences of characters, so the check for a character boundary cannot fail.
- Frame contents in the benchmark client: an arbitrary function says what a frame counts and whether it ends the request; errors of the connection itself are not modelled.
- HTTP handlers, JSON schemas, option ranges, command line, gauges, histograms and latencies, except the cancelled counter.
- Poisoned mutexes, fairness of `yield_now`, and the sleeping of an idle scheduler; the wait for a nonempty queue is one round of the loop in `Schedulers.Scheduler.Run` and an interleaving of its own in `WakeUp`.
- `AdmissionControl` of the solo engine: its counting bounds how many requests wait for the model and does not influence what a request is answered.
- `created_at` and `prompt_hash`: they feed latencies and the scripted backend only.
- Naive.RunNaiveRequest: does not state that cancellation while waiting for the model is noticed at once; the wait is one more round of the same checks.
- Pacing.BoundedWait: counts rounds, not time; a run in which the model never returns is not covered. The same holds of `Deadlines.Deadline`.
