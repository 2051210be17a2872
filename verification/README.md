# Model of an inference server's token paths

The project models, in Dafny, the parts of a language-model server in which a small slip would change what
a client receives, and proves that it does not.

- **Scheduling.** `PagedDecoder` is the paged key/value pool with shared prefix blocks, `Batcher` the
  continuous-batching scheduler over it (admission, chunked prefill, batched decode, drafts, preemption by
  recompute or swap, resumption), `BatchServer` the serving loop and its channels. `Schedule`, `DecodeRows`,
  `DecodeStep`, `DraftStep`, `PoolRoom` and `Progress` hold the invariant and its steps as facts about values;
  `Generation` says what one request must produce, `Sampling` how a token is drawn from
  the top candidates. The main result is `StreamsExact`: every exact request
  receives its solo generation, whatever else is in the batch. `SchedulerLimits` gives inputs on which the
  scheduler fails or a stream changes.
- **Speculative decoding and the CPU backend.** `PromptLookup` and `DraftTree` draft tokens; `Transformer` and
  `CandleBackend` are the layered model with its caches; `SpecDecode` proves that two-model speculative
  decoding returns the main model's greedy stream.
- **Structured output.** `LogitFsm` is the token mask over an automaton, `Regex` the pattern syntax and its
  meaning, `JsonTokens`, `JsonTokenTexts` and `JsonLists` the pieces of JSON, `JsonSchema` the schema compiler and
  `JsonSchemaSound` the theorem that a compiled pattern matches exactly the schema's strict documents;
  `JsonDocuments` says that those are JSON, `JsonReading` reads serialised values back. `Utf8`, `Completion` and `RichPatterns` say which characters a
  pattern can do with; `StructuredOutput` joins compiler, byte table and mask.
- **Quantised kernels.** `Q4kLayout` and `Q4kRepack` are the 4-bit block layouts, `Q4kScales` and `Q4kMath` the
  scale decoders and the integer arithmetic, `Q4kKernel` the scalar kernels, `Q4kAvx2` the 256-bit kernel,
  `Q4kAvx512` the 512-bit kernel and the matrix product.
- **Memory and goals.** `MemoryStore` is the budgeted, indexed store, `GoalManager` the goals kept in it,
  `GoalSurvival` what re-encoding them leaves; `GoalLimits` gives inputs on which something is lost.
- **Calendar.** `CivilDate` converts day numbers to dates.

Classes and loops stand where the program updates state in place; each method is proved against a value-level
specification. The neural network is an arbitrary function of the tokens up to a position (`KvModel`) or an
arbitrary stack of layers (`Transformer`), samplers are arbitrary functions of logits, parameters and seed, and
real arithmetic is exact. Clocks, fresh ids, encoder answers and the closing of a client's channel are
parameters. `dafny verify dfyconfig.toml` checks the whole project.

## Findings

Where the code does not do what its comments or tests say, the model keeps the code and states exactly when
they agree.

- The speculative step is documented as equal to the plain step (src/backend/gpu/batch.rs:213-220). The drafts
  may make the batch larger than the decoder's row limit, which an assertion forbids
  (src/backend/gpu/mod.rs:2196), and they may reach past the context window (src/backend/gpu/mod.rs:2454).
  `StepPld` states both exactly; `PldRowOverflow` is an input.
- Admission checks the prompt against the context window, not prompt and budget together
  (src/backend/gpu/batch.rs:163-165). A request that outgrows the window fails the step, or stalls behind a pool
  that can never hold it. `Drain` states exactly when a run succeeds; `WindowOverflow` is an input.
- "A single sequence always fits" (src/backend/gpu/batch.rs:300-302) does not hold while other sequences are
  mid-prefill, since those are not evicted to make room; an assertion of the decoder then fails
  (src/backend/gpu/mod.rs:2508). `OneFitsIff` is the condition, `LoneMayNotFit` a state.
- Both resumes of a preempted sequence are documented as equal to never preempting
  (src/backend/gpu/batch.rs:24-31). A history prefilled again draws its next token without top-k or top-p
  (`PreemptionInvisibleIff` is the condition); one restored from the host draws by its own parameters, while in
  the batch it would have drawn by top-k if anyone needed it (`SwapInvisibleIff`). `RecomputeDiverges` is a run.
- `truncate_to` beyond the cache's length leaves a position past the cache (src/backend/candle/backend.rs:106-114).
  `TruncateTo` is the condition, `TruncateBeyond` an input.
- Property keys are escaped for the pattern, not for JSON (src/engine/json_schema.rs:261-264). `KeyIsJsonIff` is the
  condition, `QuotedKeyFails` an input. With keys that can stand between quotes every document is JSON
  (`DocumentIsJson`), but for the next point.
- The string token admits control characters unescaped, which section 7 of RFC 8259 does not
  (src/engine/json_schema.rs:44). `RawControlIff` is the condition, `RawLineBreak` an input.
- Where an array, or an object without declared properties, may be empty, its empty form admits two spaces, one for
  each bracket (src/engine/json_schema.rs:181-275); other structural points admit one. `SpacedArrayIff` and
  `SpacedObjectIff` say when.
- The stop token is forced when no table entry leads on (src/engine/logit_fsm.rs:254-266), and the byte table leaves
  out every token that is no text by itself (src/backend/candle/tokenizer.rs:108-116), so a run that needs a
  character without a token stops short of a match. `StopsRightIff` is the condition for any table, `StopsShort` an
  input. Schema patterns never need such a character if keys and literals have none: `StopsOnDocuments`.
- If the stop token's own table entry is the only one that leads on, every token is masked, the stop token included
  (`AllMaskedIff`).
- A restored snapshot may lose finished tasks although every store call succeeded, because they are not pinned
  (src/control_plane/goal_manager.rs:281-288). `RestoreExactIff` is the condition, `RestoreMayDrop` an input.
- Re-encoding after a model swap is documented to preserve text, tags and pinning
  (src/control_plane/goal_manager.rs:140-145). A goal whose new entry finds no room is lost.
  `ReencodeKeepsGoalsIff` is the condition, `SwapLosesGoal` an input.
- A goal that finds no room leaves no goal current, and its id is returned all the same
  (src/control_plane/goal_manager.rs:320-353). `SetGoal` is the condition, `SetGoalRefused` an input.
- A store call refused for lack of room has already dropped everything droppable, the old entry under its own key
  included (src/engine/memory_store.rs:221-249). `RefusedIff` is the condition, `RefusedStoreDrops` an input.
- Relevance starts at its cap and is only ever raised, so eviction by lowest relevance picks any unpinned entry
  (src/engine/memory_store.rs:282-292, `WellFormed`).

## Model

| member | source | states |
|---|---|---|
| Batcher.ContinuousBatcher.StreamsExact | src/backend/gpu/batch.rs:24-31 | After any sequence of calls, the tokens emitted for an exact request are a prefix of the request's generation alone, all of it exactly when it is marked done, and nothing follows the done mark: co-batched requests, chunking, preemption, recompute, swap and drafts do not show. Exact are greedy requests, all requests if nobody in the run needs top-k, and top-k requests if eviction keeps key/value rows on the host |
| Batcher.ContinuousBatcher.Step | src/backend/gpu/batch.rs:176-211 | Decode, one prefill chunk, resume: every stream advances by its own next tokens; the step fails exactly when a sequence it decodes or is about to resume has outgrown the context window, or when the one decoding sequence left cannot get its block, which never happens in a roomy pool; otherwise a busy scheduler emits a token or shortens a prefill, unless all that is left has outgrown the window |
| Batcher.ContinuousBatcher.StepPld | src/backend/gpu/batch.rs:213-260 | The same with drafts in the decode: each decoding sequence receives between one token and its draft's length plus one, all of them its own greedy tokens; it fails exactly when the rows exceed the decoder's limit, a draft reaches past the window, or the next sequence to resume has outgrown it; never when `|active| * (draft_k + 1) <= m_max` and every request leaves one position spare |
| Batcher.ContinuousBatcher.Drain | src/backend/gpu/batch.rs:176-211 | Stepping until idle terminates; when it succeeds every live request is done; when all live requests are exact it succeeds only if each one's own generation fits the context window, and in a roomy pool if and only if |
| Batcher.ContinuousBatcher.Cancel | src/backend/gpu/batch.rs:83-105 | True exactly when the id was decoding, prefilling or preempted; afterwards it is in none of them, and nobody else moved |
| Batcher.ContinuousBatcher.EnqueueParams | src/backend/gpu/batch.rs:157-171 | Accepted exactly when the prompt is non-empty and fits the window, a slot is free and the pool fits the prompt; the request is queued last and nothing is emitted |
| Batcher.ContinuousBatcher.AdmitParams | src/backend/gpu/batch.rs:133-155 | Some exactly when the pool fits the prompt, a slot is free and the prefill's assertion on the prompt's length holds; then the request's first token, drawn by temperature, is emitted and it decodes on unless that token ends it |
| Batcher.ContinuousBatcher.WithPool | src/backend/gpu/batch.rs:69-76 | A new scheduler: every slot free, nothing queued, the invariant holds |
| Batcher.ContinuousBatcher.PreemptLastActive | src/backend/gpu/batch.rs:262-282 | Takes the last decoding sequence off its slot, keeping its history and, in swap mode, exactly its key/value rows; false only when nothing decodes |
| Batcher.ContinuousBatcher.EvictKv | src/backend/gpu/batch.rs:267-275 | Frees the slot; in swap mode the host copy holds the first n positions' rows |
| Batcher.ContinuousBatcher.PreemptLastPrefill | src/backend/gpu/batch.rs:284-298 | Takes the last mid-prefill sequence off its slot, never the front one |
| Batcher.ContinuousBatcher.MakeRoom | src/backend/gpu/batch.rs:300-310 | Evicts decoding sequences from the back only; if more than one is left they can all grow, and so can a lone one inside the window where the pool has room for it; nothing moves when there was room already |
| Batcher.ContinuousBatcher.DecodeActive | src/backend/gpu/batch.rs:176-208 | Decodes the sequences that kept their slots; fails exactly when one of them would write past the window or the only one left cannot get its block, with nothing emitted |
| Batcher.ContinuousBatcher.DecodeNext | src/backend/gpu/batch.rs:184-197 | Every row's next token is drawn by the path the whole batch calls for: top-k, temperature or argmax |
| Batcher.ContinuousBatcher.CommitOne | src/backend/gpu/batch.rs:198-203 | Appends one token, emits it, and marks it done exactly when it ends the request |
| Batcher.ContinuousBatcher.RetainRunning | src/backend/gpu/batch.rs:204-207 | Frees the slots of finished sequences and drops exactly those |
| Batcher.ContinuousBatcher.AdvancePrefill | src/backend/gpu/batch.rs:312-343 | The front prompt always gets on: it completes with its first token or has fewer positions left |
| Batcher.ContinuousBatcher.ClearChunk | src/backend/gpu/batch.rs:324-327 | Evicts decoding, then mid-prefill sequences until the front chunk fits; fails only with nothing left to evict |
| Batcher.ContinuousBatcher.FinishPrefill | src/backend/gpu/batch.rs:331-342 | Registers the prompt's blocks and emits the request's own first token |
| Batcher.ContinuousBatcher.DecodeOne | src/backend/gpu/batch.rs:345-356 | One row through the sampler path of the sequence's own parameters |
| Batcher.ContinuousBatcher.Recall | src/backend/gpu/batch.rs:370-378 | Brings a preempted history back into a slot; the next token is drawn by the sequence's own parameters from a host copy and by temperature after prefilling again, which for an exact request is its own next token |
| Batcher.ContinuousBatcher.RestoreAndDecode | src/backend/gpu/batch.rs:371-374 | Host rows written back, then one decode: the slot holds the whole history |
| Batcher.ContinuousBatcher.Recompute | src/backend/gpu/batch.rs:375-378 | Prefilling the history draws by temperature alone |
| Batcher.ContinuousBatcher.Reschedule | src/backend/gpu/batch.rs:358-390 | Resumes preempted sequences first come first served while they fit; fails exactly when the next one has outgrown the window; with everything else idle it gets on unless that is so |
| Batcher.ContinuousBatcher.CommitSegment | src/backend/gpu/batch.rs:242-252 | Of one sequence's verified tokens, the agreed draft and one more are committed, stopping early only at the end of the request |
| Batcher.ContinuousBatcher.VerifyDrafts | src/backend/gpu/batch.rs:222-259 | Lays out all drafts, runs one forward, commits what agrees; None exactly when the batch overflows |
| Batcher.ContinuousBatcher.NobodyOutgrows | src/backend/gpu/batch.rs:163-165 | If every request's prompt and budget fit the window, no sequence ever outgrows it: the condition admission does not check |
| Batcher.DrainEnds | src/backend/gpu/batch.rs:176-211 | Where a run ends, every exact request's prompt and generation fitted the window |
| Batcher.DrainFails | src/backend/gpu/batch.rs:176-211 | Where a run stops short, some live request cannot finish inside the window |
| BatchServer.GpuBatchServer.ClientSees | src/backend/gpu/batch.rs:460-525 | A client's channel carries the request's own generation so far while open; when it is done, exactly that generation and one end mark, last |
| BatchServer.GpuBatchServer.Turn | src/backend/gpu/batch.rs:487-499 | One turn of the serving loop delivers every token and end mark and drops only closed or finished channels; with requests that fit the window it ends the serving thread exactly when drafting is on, all are greedy and the drafts overflow |
| BatchServer.GpuBatchServer.RunStep | src/backend/gpu/batch.rs:489-492 | Speculative step when enabled and all greedy, plain step otherwise; None exactly when an assertion of the decoder fails |
| BatchServer.GpuBatchServer.Deliver | src/backend/gpu/batch.rs:493-496 | Every produced token reaches its open channel, and the end mark after the last one |
| BatchServer.GpuBatchServer.Reclaim | src/backend/gpu/batch.rs:497-499 | Requests of closed channels are cancelled and no others |
| BatchServer.GpuBatchServer.AdmitReq | src/backend/gpu/batch.rs:512-525 | A fresh id; an accepted request gets an open channel, a refused one an immediate end mark |
| BatchServer.GpuBatchServer.Swap | src/backend/gpu/batch.rs:501-508 | Every open channel is ended; a fresh scheduler takes over exactly when the load succeeds |
| BatchServer.GpuBatchServer.AbortAll | src/backend/gpu/batch.rs:501-502 | Every open channel is sent exactly one end mark |
| BatchServer.GpuBatchServer.Spawn | src/backend/gpu/batch.rs:426-437 | A new server with no channels |
| SchedulerLimits.PldRowOverflow | src/backend/gpu/mod.rs:2193-2196 | Witness: one slot, one greedy request that repeats a token; `step_pld(3, 7)` breaks the row assertion, so it does not always equal `step` |
| SchedulerLimits.WindowOverflow | src/backend/gpu/mod.rs:2442-2454 | Witness: a request that admission accepts, prompt as long as the window and a budget of two; the run fails at the position assertion |
| SchedulerLimits.LoneMayNotFit | src/backend/gpu/batch.rs:300-310 | Witness: a state meeting the invariant in which the last decoding sequence cannot grow although all others have been evicted |
| SchedulerLimits.RecomputeDiverges | src/backend/gpu/batch.rs:24-31 | Witness: a top-k request admitted, evicted and resumed by recompute emits tokens that are no prefix of its own generation |
| Schedule.EmitSane | src/backend/gpu/batch.rs:198-203 | Emitting a request's own next token keeps the scheduler invariant |
| Schedule.CommitSane | src/backend/gpu/batch.rs:198-203 | Committing a resident sequence's own next token keeps the invariant |
| Schedule.FedSane | src/backend/gpu/batch.rs:185-197 | After a forward every decoding history is resident and the invariant holds |
| Schedule.DropActiveSane | src/backend/gpu/batch.rs:87-93 | A decoding sequence leaving keeps slots, ids and caches apart |
| Schedule.PushActiveSane | src/backend/gpu/batch.rs:151 | A sequence joining the batch keeps them apart |
| Schedule.NewRequestSane | src/backend/gpu/batch.rs:163-171 | A fresh request changes nothing for the others |
| PoolRoom.SlotsPartition | src/backend/gpu/batch.rs:64-76 | Free, decoding and prefilling slots are all the slots, each exactly once |
| PoolRoom.HeldByOwners | src/backend/gpu/batch.rs:300-310 | All held blocks are held by decoding or prefilling sequences |
| PoolRoom.OneFits | src/backend/gpu/batch.rs:300-310 | With room for the prompts mid-prefill and one full sequence, a lone decoding sequence can grow, shared blocks or not |
| PoolRoom.OneFitsIff | src/backend/gpu/batch.rs:300-310 | Without shared blocks, exactly when its own blocks and those of the mid-prefill sequences fit the pool |
| Progress.WithinBudget | src/backend/gpu/batch.rs:202 | No run emits more than the admitted requests' budgets together |
| Progress.RoomyRoom | src/backend/gpu/batch.rs:69-73 | A pool fitting the prompts and one full sequence, or one full sequence per slot, always leaves a decoding sequence room |
| Progress.AdvanceNoMore | src/backend/gpu/batch.rs:329-330 | A chunk strictly shortens what is left to prefill |
| Generation.StreamMeaning | src/backend/gpu/batch.rs:174-175 | What the emission log says about one request: prefix of its solo generation, complete exactly when done, nothing after |
| Generation.SoloStops | src/backend/gpu/batch.rs:202 | A generation ends exactly at the stop token or the budget |
| Generation.SoloTokens | src/backend/gpu/batch.rs:198-203 | Each of its tokens is drawn after the ones before it |
| Generation.SoloDraws | src/backend/gpu/sampling.rs:7-21 | Every token of a generation, written out: at temperature zero the first of the greatest logits; otherwise drawn with the seed `base + n * 0x9E3779B1` in 32 bits, the first and those of a request without top-k and top-p from the whole distribution, any other from the top candidates |
| Generation.EmitOk | src/backend/gpu/batch.rs:198-203 | Emitting the next token keeps every stream on track |
| KvModel.KvPrefix | src/backend/gpu/mod.rs:2259-2263 | A position's key/value rows depend only on the tokens up to it |
| KvModel.ArgMax | src/engine/spec_decode.rs:269-279 | The index of the first maximum |
| KvModel.SeedSteps | src/backend/gpu/sampling.rs:7-9 | The first seed is the request's own 32-bit seed, each later one the one before it plus a fixed step, in 32 bits |
| KvModel.SeedsApart | src/backend/gpu/sampling.rs:7-9 | Two tokens of a request share a seed exactly when their positions differ by a multiple of 2^32 |
| Sampling.NeedsTopKIff | src/backend/gpu/sampling.rs:19-20 | The candidate path is asked for exactly when some pool loses a candidate to top-k or top-p |
| Sampling.SampleTopK | src/backend/gpu/sampling.rs:31-56 | Without a real candidate or at temperature zero the first; otherwise the candidate on which the uniform number falls among those kept: the first top-k, cut to the fewest that reach top-p |
| Sampling.Cut | src/backend/gpu/sampling.rs:45-50 | The nucleus is the smallest prefix whose mass reaches top-p, everything if top-p is no proper fraction |
| Sampling.DrawFrom | src/backend/gpu/sampling.rs:39-56 | Normalising does not show: the draw is the inverse cumulative sum over the unnormalised weights of the kept candidates |
| DecodeStep.StepDraws | src/backend/gpu/batch.rs:177-197 | Every token a decode step draws may be committed to its sequence |
| DecodeStep.PathExact | src/backend/gpu/batch.rs:186-197 | Whatever path the batch takes, an exact request's token is its own next token |
| DecodeStep.PreemptionInvisibleIff | src/backend/gpu/batch.rs:24-31 | Recomputing and decoding on in the batch draw the same token, for every model, cache and seed, exactly when the sequence is greedy or nobody in its batch needs top-k |
| DecodeStep.SwapInvisibleIff | src/backend/gpu/batch.rs:24-31 | Resuming from the host copy and decoding on in the batch draw the same token, for every model, cache and seed, exactly when the sequence is greedy, needs top-k itself, or nobody in its batch does |
| DecodeRows.BatchAttended | src/backend/gpu/batch.rs:230-239 | Row j of a sequence attends exactly its history and the first j tokens of its draft |
| DecodeRows.BatchFeedable | src/backend/gpu/batch.rs:230-239 | The batch's rows land in resident context, inside the window |
| DecodeRows.AllFeed | src/backend/gpu/batch.rs:230-239 | After the batch every slot holds its history and draft, other slots are untouched |
| DraftStep.DraftMayCommit | src/backend/gpu/batch.rs:240-252 | While the draft agrees, the verified token is the sequence's own next token: rejected drafts leave no trace |
| DraftStep.PldFed | src/backend/gpu/batch.rs:240 | After one forward every sequence's rows carry its greedy choices after history and draft |
| DraftStep.ChooseDraft | src/backend/gpu/batch.rs:226-231 | The continuation after the latest occurrence of the longest n-gram that has one, at most draft_k tokens and no more than the request may still produce |
| DraftStep.LayOut | src/backend/gpu/batch.rs:225-239 | Rows of all sequences with their drafts, and where each starts |
| DraftStep.RowsInWindow | src/backend/gpu/mod.rs:2453-2454 | Some row breaks the position assertion exactly when some draft reaches past the window |
| DraftStep.DraftsFit | src/backend/gpu/batch.rs:226 | Drafts stay inside the window when prompt and budget leave one position spare |
| PagedDecoder.BatchedDecoder.Forward | src/backend/gpu/mod.rs:2180-2191 | The rows' keys and values are written through the block tables and each row attends its slot's context up to its position |
| PagedDecoder.BatchedDecoder.StepSlotted | src/backend/gpu/mod.rs:2165-2208 | One greedy choice per row, after what the row attends |
| PagedDecoder.BatchedDecoder.StepSlottedSample | src/backend/gpu/mod.rs:2172-2175 | One temperature draw per row |
| PagedDecoder.BatchedDecoder.StepSlottedTopK | src/backend/gpu/mod.rs:2213-2228 | One top-k draw per row |
| PagedDecoder.BatchedDecoder.EnsureBlocks | src/backend/gpu/mod.rs:2013-2024 | The slot ends with enough blocks exactly when the pool can supply them |
| PagedDecoder.BatchedDecoder.Alloc | src/backend/gpu/mod.rs:1912-1930 | A free block, else the least recently used unreferenced cached one; None only when every block is referenced |
| PagedDecoder.BatchedDecoder.FreeSlot | src/backend/gpu/mod.rs:2030-2040 | The slot gives up its references; unregistered blocks become free, registered ones stay reusable |
| PagedDecoder.BatchedDecoder.PrefillPrefixReuse | src/backend/gpu/mod.rs:2276-2298 | Reused blocks hold exactly the prompt's prefix; the last position's block is never reused |
| PagedDecoder.BatchedDecoder.PrefillRegister | src/backend/gpu/mod.rs:2303-2317 | Registered blocks hold the prefixes they are registered under |
| PagedDecoder.BatchedDecoder.PrefillChunk | src/backend/gpu/mod.rs:2383-2421 | One chunk makes its positions resident; the last one draws the first token after the whole prompt |
| PagedDecoder.BatchedDecoder.PrefillSlotCached | src/backend/gpu/mod.rs:2264-2270 | The slot holds the whole prompt and the token is the one drawn after it, whatever was reused |
| PagedDecoder.BatchedDecoder.SwapOut | src/backend/gpu/mod.rs:2081-2112 | The host copy holds the first n positions' rows and the slot is freed |
| PagedDecoder.BatchedDecoder.SwapIn | src/backend/gpu/mod.rs:2118-2152 | Succeeds exactly when the pool can supply the blocks; the slot then holds what the copy held |
| PagedDecoder.BatchedDecoder.Supply | src/backend/gpu/mod.rs:2043-2055 | Free and held blocks together are never fewer than the pool |
| PagedDecoder.WriteOk | src/backend/gpu/mod.rs:2505-2515 | Writing one position through a block table changes no other slot's context and no registered prefix |
| PagedDecoder.ReuseOk | src/backend/gpu/mod.rs:2284-2292 | Sharing a cached block keeps the pool consistent |
| PagedDecoder.RegisterOk | src/backend/gpu/mod.rs:2310-2316 | So does registering one |
| PagedDecoder.ReleaseOk | src/backend/gpu/mod.rs:2030-2040 | And releasing a slot |
| PromptLookup.LookupDraft | src/engine/spec_decode.rs:30-55 | A draft holds the tokens that followed the most recent earlier occurrence of the last n-gram, k of them or as many as there are |
| PromptLookup.LookupDraftBest | src/engine/spec_decode.rs:69-82 | A draft continues the longest n-gram, from the given length down to two, that occurs earlier; None exactly when none does or nothing is asked for |
| PromptLookup.DraftFound | src/engine/spec_decode.rs:29-53 | A draft is proposed exactly when the n-gram occurs earlier with something after it |
| PromptLookup.LastMatchIsLast | src/engine/spec_decode.rs:38-50 | The match found is the most recent one |
| PromptLookup.BestIsLongest | src/engine/spec_decode.rs:56-80 | The draft chosen is that of the longest matching n-gram |
| DraftTree.NgramContinuations | src/engine/spec_decode.rs:132-151 | Tokens that followed the key with how often, more frequent first, then more recent; one is left out only for `branch` better ones |
| DraftTree.BeforeTotal | src/engine/spec_decode.rs:144 | Frequency, then recency, is a strict total order on the continuations |
| DraftTree.RankingUnique | src/engine/spec_decode.rs:143-145 | So the ranking does not depend on the map's enumeration order |
| DraftTree.BestContinuations | src/engine/spec_decode.rs:149-165 | The ranked continuations of the longest n-gram that has any |
| DraftTree.BestUnique | src/engine/spec_decode.rs:149-165 | There is only one such list |
| DraftTree.BestIndex | src/engine/spec_decode.rs:182-184 | The open node of highest score, the last among equals |
| DraftTree.LookupTree | src/engine/spec_decode.rs:167-200 | A well-formed tree within the budget whose edges are n-gram continuations and whose siblings differ, grown best first: every expansion takes the open node of highest path score and adds its continuations in rank order until budget or open nodes run out |
| DraftTree.SharesAddUp | src/engine/spec_decode.rs:191-199 | The path scores of a node's continuations add up to its own and stand in proportion to their counts |
| DraftTree.TreeUnique | src/engine/spec_decode.rs:167-200 | The tree is determined by the inputs |
| DraftTree.PathAfterRoot | src/engine/spec_decode.rs:115-124 | The tokens from below the root to a node |
| DraftTree.PathUnique | src/engine/spec_decode.rs:173-200 | A path leads to one node only |
| DraftTree.TreeAccept | src/engine/spec_decode.rs:202-224 | The length of the longest target prefix that labels a path from the root |
| SpecDecode.VerifyDrafts | src/engine/spec_decode.rs:241-267 | How many drafts the main model's rows confirm, and the token after them |
| SpecDecode.VerifiedIsGreedy | src/engine/spec_decode.rs:226-267 | Accepted drafts and the extra token are the main model's next greedy tokens |
| SpecDecode.Propose | src/engine/spec_decode.rs:318-324 | From fresh draft logits, the draft model's own k greedy tokens, its cache k longer |
| SpecDecode.Agreed | src/engine/spec_decode.rs:332-353 | The number of leading drafts the main model agrees with, and the corrected token |
| SpecDecode.AgreedIsGreedy | src/engine/spec_decode.rs:332-353 | They are the main model's own next tokens |
| SpecDecode.RollBack | src/engine/spec_decode.rs:358-362 | Both caches cut to the committed history and extended by the corrected token, with fresh logits |
| SpecDecode.SpecIter | src/engine/spec_decode.rs:305-375 | Commits accepted + 1 greedy tokens of the main model, for any draft model; both caches equal the committed history |
| SpecDecode.BackendSlot.GenerateSpecDecode | src/server/rest.rs:2182-2262 | Returns a prefix of the main model's greedy stream cut at the first stop token or the budget, all of it if windows are wide enough and no stop string ends it, and leaves both prompt caches prefixes of their caches; stop strings are looked for after rounds of at most six tokens and end it at the first round whose text holds one |
| SpecDecode.ReferenceIsGreedy | src/server/rest.rs:2218-2251 | The reference stream is the greedy run, cut |
| SpecDecode.BackendSlot.PrefillBoth | src/server/rest.rs:2198-2215 | Both models hold the prompt and fresh logits after it |
| Transformer.HiddenPrefix | src/backend/candle/quantized_llama_fork.rs:920-990 | A layer's row at a position depends only on the tokens up to it |
| Transformer.AttendsCausal | src/backend/candle/quantized_llama_fork.rs:833-863 | Attending through the mask with cached rows is attending the whole context causally |
| Transformer.ModelWeights.MaskFor | src/backend/candle/quantized_llama_fork.rs:854-863 | The cached mask is the one just built: the key determines it |
| Transformer.ModelWeights.ClearKvCache | src/backend/candle/quantized_llama_fork.rs:887-891 | Every layer's cache is empty |
| Transformer.ModelWeights.TruncateKvCache | src/backend/candle/quantized_llama_fork.rs:893-918 | Every layer keeps exactly the first n positions, all of them if n is larger |
| Transformer.ModelWeights.ForwardWithCallback | src/backend/candle/quantized_llama_fork.rs:920-990 | Logits after the whole context; the caches grow by exactly the new positions |
| Transformer.ModelWeights.ForwardAllPositions | src/backend/candle/quantized_llama_fork.rs:1238-1271 | Logits after every prefix of the input |
| CandleBackend.CandleCpuBackend.ResetPosition | src/backend/candle/backend.rs:92-100 | Empty cache, position zero |
| CandleBackend.CandleCpuBackend.TruncateTo | src/backend/candle/backend.rs:102-114 | The first n positions remain; position and cache agree afterwards exactly when n was not beyond the cache |
| CandleBackend.TruncateBeyond | src/backend/candle/backend.rs:106-114 | Witness: truncating an empty cache to five leaves the position at five |
| CandleBackend.CandleCpuBackend.ForwardLogits | src/backend/candle/backend.rs:185-236 | Chunked forward equals one forward: context extended by the tokens, logits after all of them, for every chunk size |
| CandleBackend.CandleCpuBackend.ForwardAllLogits | src/backend/candle/backend.rs:299-321 | One logit row per input token |
| CandleBackend.LcpLen | src/server/rest.rs:1924-1927 | The length of the longest common prefix |
| CandleBackend.PreparePromptCache | src/server/rest.rs:1929-1954 | The cache keeps exactly the reused prefix of the prompt, always short of its last token |
| CandleBackend.CachedPrefill | src/server/rest.rs:2197-2206 | Prefix reuse refines cold prefill: the cache is the prompt and the logits are those after it |
| LogitFsm.RegexEngine.Walk | src/engine/logit_fsm.rs:97-106 | The state after the bytes, None when a dead or quit state is entered |
| LogitFsm.RegexEngine.IsLive | src/engine/logit_fsm.rs:112-161 | True exactly when some continuation reaches a match; every memoised value is equally exact |
| LogitFsm.FixpointExact | src/engine/logit_fsm.rs:138-155 | The reverse fixpoint marks exactly the states that reach a match |
| LogitFsm.Explore | src/engine/logit_fsm.rs:124-137 | The worklist discovers exactly the states that bytes lead to, with exactly their steps, on any finite automaton |
| LogitFsm.RegexEngine.AllowedMask | src/engine/logit_fsm.rs:163-182 | A token is allowed exactly when its bytes lead to a live state; a cached mask equals recomputation |
| LogitFsm.LogitFSM.ApplyMask | src/engine/logit_fsm.rs:247-272 | Exactly the tokens not permitted are masked; the stop token is permitted at a match |
| LogitFsm.LogitFSM.Advance | src/engine/logit_fsm.rs:274-290 | The state follows the sampled token's bytes |
| LogitFsm.ConstrainedRun | src/engine/logit_fsm.rs:247-290 | Sampling permitted tokens from a live start stays live and equals the automaton's run over the emitted bytes |
| LogitFsm.StopsRightIff | src/engine/logit_fsm.rs:254-272 | For any table and live start: permitted runs may stop exactly on matches if and only if every unfinished state such a run reaches has a viable table entry |
| LogitFsm.FinishedMatches | src/engine/logit_fsm.rs:254-272 | Where no such state is a dead end, a run may stop exactly when its whole text matches |
| LogitFsm.StopsShort | src/engine/logit_fsm.rs:254-266 | Witness: an accented letter and a table of the ASCII characters; generation may stop at once with nothing matched |
| LogitFsm.PieceViable | src/engine/logit_fsm.rs:166-182 | A table entry that begins a reachable match is viable |
| LogitFsm.SpellingPermitted | src/engine/logit_fsm.rs:166-182 | Every text of the language can be spelled by permitted tokens |
| LogitFsm.AllMaskedIff | src/engine/logit_fsm.rs:254-272 | With any table, exactly when every token is masked |
| Regex.FragText | src/engine/json_schema.rs:53-66 | An escaped text parses to exactly its characters |
| Regex.FragParses | src/engine/json_schema.rs:56-72 | A fragment parses, alone, to its concatenation tree |
| Regex.FragCat | src/engine/json_schema.rs:144-179 | Fragments without a top-level bar splice: their concatenation parses to the concatenated trees |
| Regex.FragGroup | src/engine/json_schema.rs:114-126 | Alternatives in parentheses form one fragment |
| JsonTokens.StringFrag | src/engine/json_schema.rs:44 | The string token's pattern is balanced and parses to its tree |
| JsonTokens.NumberFrag | src/engine/json_schema.rs:45 | So is the number's |
| JsonTokenTexts.StringLang | src/engine/json_schema.rs:44 | It matches exactly quoted runs of plain characters, short escapes and four-digit escapes |
| JsonTokenTexts.NumberLang | src/engine/json_schema.rs:45 | Exactly the numbers of section 6 of RFC 8259 |
| JsonTokenTexts.IntegerLang | src/engine/json_schema.rs:171 | Exactly the integers among them |
| JsonLists.JoinLang | src/engine/json_schema.rs:51 | Joined patterns match the elements in order, with a comma and at most one space on each side between them |
| JsonLists.ListLang | src/engine/json_schema.rs:114-126 | The optional list matches any number of elements |
| JsonLists.BracketLang | src/engine/json_schema.rs:181-230 | Brackets with at most one space inside each |
| JsonLists.MemberLang | src/engine/json_schema.rs:234-266 | A key, a colon with at most one space on each side, a value |
| JsonSchema.Esc | src/engine/json_schema.rs:53-66 | Every meta-character is escaped, others are kept |
| JsonSchema.Compile | src/engine/json_schema.rs:128-179 | The pattern, or the first error met; a pattern exactly when the schema is supported, read off its fields: an object within depth 32, none of seven keywords, a constant, a non-empty enumeration or one of seven types, arrays with supported items and ordered bounds, objects with supported properties |
| JsonSchema.CompilesIff | src/engine/json_schema.rs:128-275 | A schema compiles if and only if it is supported |
| JsonSchema.RefusedIff | src/engine/json_schema.rs:128-275 | It is refused for a reason if and only if that is the first thing wrong, in the order in which the compiler looks |
| JsonSchema.PatternQuoted | src/engine/json_schema.rs:160-169 | Where nothing is fixed by a constant or an enumeration, a string schema's own pattern stands between quotation marks as written |
| JsonSchema.ToolsCompileIff | src/engine/json_schema.rs:91-112 | Tool calls compile exactly when there is a tool and every tool's parameters are supported |
| JsonReading.JsonRoundTrip | src/engine/json_schema.rs:69-72 | What is serialised for a value reads back as that value with nothing left over |
| JsonReading.StringReads | src/engine/json_schema.rs:69-72 | A serialised string reads back, whatever follows it |
| JsonSchema.CompileArray | src/engine/json_schema.rs:181-230 | All four cases of the two bounds |
| JsonSchema.CompileObject | src/engine/json_schema.rs:232-267 | Declared properties in order, or any object |
| JsonSchema.ToolCallEnvelopeRegex | src/engine/json_schema.rs:91-112 | One alternative per tool, or the first error |
| JsonSchemaSound.SchemaSound | src/engine/json_schema.rs:74-81 | For every schema that compiles, without a pattern keyword, the pattern parses and matches exactly the schema's strict documents |
| JsonSchemaSound.SchemaSplices | src/engine/json_schema.rs:128-179 | Every compiled pattern is a fragment without a top-level bar, however deep the schema |
| JsonSchemaSound.SchemaMatches | src/engine/json_schema.rs:128-179 | Its pieces match exactly the strict documents |
| JsonSchemaSound.BodyMatches | src/engine/json_schema.rs:194-228 | The array body matches between minItems and maxItems elements, in all four cases |
| JsonSchemaSound.AnyJsonSound | src/engine/json_schema.rs:83-91 | The generic pattern of depth d matches exactly the JSON values nesting at most d deep |
| JsonSchemaSound.AnyDocDeeper | src/engine/json_schema.rs:83-91 | A larger depth admits more |
| JsonSchemaSound.ToolCallsSound | src/engine/json_schema.rs:91-112 | The tool-call pattern parses and matches exactly the calls of one of the tools with strict arguments |
| JsonSchemaSound.KeyIsJsonIff | src/engine/json_schema.rs:261-264 | The key a pattern demands is the key's JSON text exactly when no character of it needs escaping in JSON |
| JsonSchemaSound.QuotedKeyFails | src/engine/json_schema.rs:261-264 | Witness: with a quotation mark in a key the pattern admits no JSON for it |
| JsonDocuments.DocumentIsJson | src/engine/json_schema.rs:74-81 | Every strict document is JSON, at some nesting, when the schema's keys can stand between quotes and its literal numbers are JSON numbers |
| JsonDocuments.ValueJson | src/engine/json_schema.rs:69-72 | The serialised text of a value is JSON |
| JsonDocuments.RawControlIff | src/engine/json_schema.rs:44 | A string the token admits is a string of section 7 of RFC 8259 exactly when no control character stands in it unescaped |
| JsonDocuments.RawLineBreak | src/engine/json_schema.rs:44 | Witness: the plain string schema admits a line break inside the quotes |
| JsonDocuments.SpacedArrayIff | src/engine/json_schema.rs:181-230 | For every array schema that may be empty, brackets around two spaces are a document exactly when it is not bounded to no items at all |
| JsonDocuments.SpacedObjectIff | src/engine/json_schema.rs:232-275 | Braces around two spaces are a document of an object schema exactly when no properties are declared |
| RichPatterns.SchemaRich | src/engine/json_schema.rs:128-179 | A compiled pattern needs no characters but ASCII and those of the schema's own keys and literals |
| Completion.Completed | src/engine/logit_fsm.rs:112-161 | Any prefix of a match can be completed, from there on, with characters of a set that every class of the pattern meets |
| Utf8.CharBytes | src/engine/logit_fsm.rs:166-182 | A character's bytes are those of the table in section 3 of RFC 3629: shortest form, leading byte by length, six bits in each byte after it |
| Utf8.TextPrefix | src/engine/logit_fsm.rs:166-182 | Cutting a text's UTF-8 bytes after the bytes of another text cuts the text at a character |
| StructuredOutput.SomeDocument | src/engine/json_schema.rs:128-179 | Every strict schema has a document |
| StructuredOutput.StopsOnDocuments | src/backend/candle/tokenizer.rs:101-116 | Compiler, byte table and mask together, for a table of decoded texts that spells every ASCII character and the schema's own literals: no dead end is ever reached, generation can start, and it may stop exactly when its bytes are a strict document of the schema |
| StructuredOutput.RichNoDeadEnd | src/backend/candle/tokenizer.rs:101-116 | From an unfinished text some single-character token always leads on |
| Q4kRepack.RepackQ4kToQ4kx8 | src/backend/candle/q4k_repack.rs:79-154 | Writes the interleaved form of eight blocks |
| Q4kRepack.RepackQs | src/backend/candle/q4k_repack.rs:86-99 | Quant bytes of the eight blocks, eight bytes of each in turn |
| Q4kRepack.RepackScales | src/backend/candle/q4k_repack.rs:101-150 | Every sub-block's eight scales and minimums packed in twelve bytes |
| Q4kRepack.ReverseRepackQ4kx8 | src/backend/candle/q4k_repack.rs:742-824 | Writes back the eight blocks |
| Q4kLayout.ReverseOfRepack | src/backend/candle/q4k_repack.rs:79-154 | Reversing a repacked group gives the eight blocks back |
| Q4kLayout.RepackOfReverse | src/backend/candle/q4k_repack.rs:742-824 | Repacking a reversed group gives the interleaved block back: repacking is a bijection |
| Q4kLayout.StdDecodes | src/backend/candle/q4k_repack.rs:252-259 | Six-bit packing decodes to what was encoded |
| Q4kLayout.StdEncodes | src/backend/candle/q4k_repack.rs:252-259 | And encodes to what was decoded, for all scale bytes |
| Q4kScales.UnpackScales | src/backend/candle/q4k_avx512.rs:31-42 | The word-at-a-time unpacking, in place |
| Q4kScales.UnpackedScale | src/backend/candle/q4k_avx512.rs:31-42 | It agrees with decoding the sub-scales one by one, on all eight and all bytes |
| Q4kScales.UnpackedMin | src/backend/candle/q4k_avx512.rs:31-42 | And the sub-minimums |
| Q4kMath.GroupSums | src/backend/candle/q4k_repack.rs:381-387 | The group sums are the sums of sixteen quants and fit 16 bits |
| Q4kMath.FactoredIsDot | src/backend/candle/q4k_avx512.rs:152-222 | The factored integer form equals dequantise-then-dot in exact arithmetic |
| Q4kMath.ScaledToBound | src/backend/candle/q4k_avx512.rs:185-205 | The scaled sum stays in 32 bits |
| Q4kMath.MinsToBound | src/backend/candle/q4k_avx512.rs:175-183 | So does the minimum correction |
| Q4kMath.LaneExact | src/backend/candle/q4k_repack.rs:657-694 | Eight saturating multiply-adds into a wrapping 16-bit lane are exact, at most 30720 in size |
| Q4kAvx512.VecDotAvx512 | src/backend/candle/q4k_avx512.rs:228-347 | The 512-bit kernel, from the packed bytes on, computes the dot product of two rows for any number of blocks |
| Q4kAvx512.BlockLanes512 | src/backend/candle/q4k_avx512.rs:262-341 | Its sixteen 32-bit lanes neither saturate nor wrap and add up to the block's scaled integer dot |
| Q4kAvx512.HalfPass | src/backend/candle/q4k_avx512.rs:270-340 | 32 packed bytes, masked and shifted into nibbles, against the activations of two sub-blocks: eight lanes of one half after one more pass |
| Q4kAvx512.NibblesAreQuants | src/backend/candle/q4k_avx512.rs:285-291 | Low and high nibbles of the bytes loaded are the quants of two neighbouring sub-blocks |
| Q4kAvx512.VecDot | src/backend/candle/q4k_avx512.rs:134-147 | Both kernels the dispatcher may choose give the rows' dot product |
| Q4kKernel.DequantizeBlock | src/backend/candle/q4k_repack.rs:267-294 | All 256 weights of a block |
| Q4kKernel.QuantsRecompose | src/backend/candle/q4k_repack.rs:267-294 | Quants i and i + 32 of each group of 64 are the low and the high nibble of one byte: together they give it back |
| Q4kKernel.ScalesRecover | src/backend/candle/q4k_repack.rs:267-294 | A block packed from six-bit scales and minimums decodes to them |
| Q4kKernel.VecDotScalar | src/backend/candle/q4k_avx512.rs:152-222 | The dot product of two rows, for any number of blocks, with every intermediate in 32 bits |
| Q4kKernel.GemvScalar | src/backend/candle/q4k_repack.rs:308-333 | Eight rows at once from the interleaved form: each is the row's own dot product |
| Q4kKernel.GemvIsVecDot | src/backend/candle/q4k_repack.rs:308-333 | On repacked rows the interleaved and the row-by-row kernel agree |
| Q4kAvx512.Matmul | src/backend/candle/q4k_avx512.rs:68-95 | Every output cell is the dot of its activation row and its weight row, whichever kernel runs |
| Q4kAvx2.GemvAvx2 | src/backend/candle/q4k_repack.rs:531-735 | The 256-bit kernel computes what the scalar kernel computes |
| Q4kAvx2.BlockLanes | src/backend/candle/q4k_repack.rs:578-727 | Its integer lanes neither saturate nor wrap and hold every row's scaled dot and minimum correction |
| Q4kAvx2.SubBlock | src/backend/candle/q4k_repack.rs:657-714 | Shuffles, blends and eight multiply-adds give eight rows' scaled dots of one sub-block |
| Q4kAvx2.ChunkIsRow | src/backend/candle/q4k_repack.rs:580-612 | The bytes a chunk's vectors hold are the rows' quants |
| Q4kAvx2.MinLane | src/backend/candle/q4k_repack.rs:716-722 | Shuffled sums and interleaved minimums give each row's correction |
| MemoryStore.Store.WithBudget | src/engine/memory_store.rs:153-172 | An empty store, consistent and within its budgets |
| MemoryStore.Store.StoreWithOptions | src/engine/memory_store.rs:202-280 | Refused as oversize exactly when larger than the store's budget or its category's own; refused as full, or stored after dropping only what had to go in the stated order; counters, indexes and all three budgets stay right |
| MemoryStore.BudgetsHeld | src/engine/memory_store.rs:208-236 | A consistent store holds no more entries and bytes than its budgets, and no more of a category than its own budget if it has one |
| MemoryStore.FitsIff | src/engine/memory_store.rs:208-236 | The test for room, on the budgets as given |
| MemoryStore.LivesFor | src/engine/memory_store.rs:186-188 | An entry expires exactly its time to live after it was stored, never without one |
| MemoryStore.RefusedIff | src/engine/memory_store.rs:221-249 | Stored exactly when the entry is not oversize and fits beside the other pinned, unexpired entries |
| MemoryStore.OthersKept | src/engine/memory_store.rs:455-474 | An unexpired pinned entry leaves only by removal or by replacement of its own key |
| MemoryStore.NothingEvicted | src/engine/memory_store.rs:227-236 | Where the entry fits beside the others, nothing else changes |
| MemoryStore.ReplaceNeverEvicts | src/engine/memory_store.rs:221-249 | Replacing an entry within its category by one no larger never evicts and never fails |
| MemoryStore.Store.RemoveInternal | src/engine/memory_store.rs:302-320 | Entry, bytes and index keys go together |
| MemoryStore.RemovedConsistent | src/engine/memory_store.rs:302-320 | Removal keeps counters and indexes right, and the saturating subtractions never saturate |
| MemoryStore.InsertedConsistent | src/engine/memory_store.rs:252-276 | So does insertion |
| MemoryStore.Store.Remove | src/engine/memory_store.rs:294-300 | True exactly when the key was there; afterwards it is not |
| MemoryStore.Store.Get | src/engine/memory_store.rs:282-292 | A live entry, with its access counted; the score is already at its cap and stays there |
| MemoryStore.Store.QueryByCategory | src/engine/memory_store.rs:324-333 | Exactly the live entries of the category, each once |
| MemoryStore.Store.QueryByTag | src/engine/memory_store.rs:335-344 | Exactly the live entries with the tag, each once |
| MemoryStore.Store.DropOneExpired | src/engine/memory_store.rs:434-451 | Drops one expired entry if there is any |
| MemoryStore.Store.LowestScoreKey | src/engine/memory_store.rs:477-491 | An unpinned entry of lowest relevance, None exactly when there is none |
| MemoryStore.Store.EvictOne | src/engine/memory_store.rs:453-475 | Evicts an unpinned entry, of the preferred category while that has one; false exactly when all are pinned |
| MemoryStore.Store.MakeRoom | src/engine/memory_store.rs:227-249 | Ends with room, or with nothing but pinned unexpired entries left |
| GoalManager.Manager.SetGoal | src/control_plane/goal_manager.rs:316-354 | The new goal is the current one if it found room; every other goal stays, none of them current; unfinished tasks stay |
| GoalManager.Manager.SetCurrent | src/control_plane/goal_manager.rs:369-410 | True exactly when the goal exists; then exactly it is current and nothing else changes; otherwise nothing changes |
| GoalManager.MarkedAlone | src/control_plane/goal_manager.rs:369-410 | Exactly one goal is current afterwards |
| GoalManager.Manager.ClearCurrent | src/control_plane/goal_manager.rs:320-338 | Every current mark is taken off, nothing else changes |
| GoalManager.Manager.ListGoals | src/control_plane/goal_manager.rs:356-367 | Every goal, once |
| GoalManager.Manager.CurrentGoal | src/control_plane/goal_manager.rs:412-423 | The current goal, None exactly when no goal is current |
| GoalManager.Manager.AddTask | src/control_plane/goal_manager.rs:427-451 | A new task is there exactly when it found room; goals and unfinished tasks stay |
| GoalManager.Manager.UpdateTask | src/control_plane/goal_manager.rs:453-477 | True exactly when a task has that id; its status changes in place, finishing it takes its pin away, nothing else changes |
| GoalManager.Manager.ListTasks | src/control_plane/goal_manager.rs:479-498 | Exactly the tasks of the goal, each once |
| GoalManager.Manager.SetStatus | src/control_plane/goal_manager.rs:502-533 | Names the current goal or none; goals and unfinished tasks stay |
| GoalManager.Manager.LatestStatus | src/control_plane/goal_manager.rs:535-545 | The status, unless expired |
| GoalManager.Manager.SnapshotForSave | src/control_plane/goal_manager.rs:209-244 | Every goal and task once, and the live status |
| GoalManager.Manager.RestoreGoal | src/control_plane/goal_manager.rs:246-263 | Stores the goal's own entry, pinned, without expiry |
| GoalManager.Manager.RestoreTask | src/control_plane/goal_manager.rs:265-289 | Stores a task's own entry, pinned unless done |
| GoalManager.Manager.RestoreStatus | src/control_plane/goal_manager.rs:291-307 | Stores the status with its hour to live |
| GoalManager.Manager.Restore | src/control_plane/goal_manager.rs:170-185 | Goals, then tasks, then the status, each by one store call |
| GoalManager.RestoreExactIff | src/control_plane/goal_manager.rs:209-307 | Restoring a snapshot into an empty store reproduces goals, tasks and status exactly when all its entries together meet the budgets |
| GoalLimits.RestoreMayDrop | src/control_plane/goal_manager.rs:281-288 | Witness: a saved state of two tasks; restored into a store of one entry, every store call succeeds and the finished task is lost |
| GoalManager.RestoreKeepsBoard | src/control_plane/goal_manager.rs:170-185 | A restored snapshot never has two current goals |
| GoalManager.Manager.ReencodeAll | src/control_plane/goal_manager.rs:140-163 | Snapshot and restore over the same store |
| GoalSurvival.ReencodeSurvivors | src/control_plane/goal_manager.rs:140-163 | With any new vectors, a goal or unfinished task is still there exactly when its new entry is oversize or finds room beside the other pinned entries as re-encoded so far; what is there reads as before and is pinned |
| GoalSurvival.ReencodeKeepsGoalsIff | src/control_plane/goal_manager.rs:140-163 | Re-encoding leaves the same goals and unfinished tasks exactly when that holds for each of them |
| GoalSurvival.ReencodeOneCurrent | src/control_plane/goal_manager.rs:140-163 | It never makes two goals current |
| GoalSurvival.HardOutcome | src/engine/memory_store.rs:221-249 | What a store call does to the pinned entries depends on them and the new entry alone |
| GoalLimits.SwapLosesGoal | src/control_plane/goal_manager.rs:140-163 | Witness: two goals of twelve floats in a store of a hundred bytes; re-encoded at sixteen, the first is refused and gone |
| GoalLimits.SetGoalRefused | src/control_plane/goal_manager.rs:320-353 | Witness: in a store of one entry the second goal is refused, its id returned, and no goal is current |
| GoalLimits.RefusedStoreDrops | src/engine/memory_store.rs:221-249 | Witness: a call refused beside a pinned entry has dropped an unpinned entry and its own old one |
| GoalManager.PressureKeepsGoals | src/control_plane/goal_manager.rs:16-20 | Other writers cost no goal and no unfinished task |
| GoalManager.StoreKeepsBoard | src/control_plane/goal_manager.rs:209-477 | Any store call in the manager's form keeps at most one goal current |
| GoalManager.GoalRoundTrip | src/control_plane/goal_manager.rs:209-263 | A goal's entry reads back as the goal |
| GoalManager.TaskRoundTrip | src/control_plane/goal_manager.rs:265-289 | A task's entry reads back as that task |
| GoalManager.EncodeIs | src/control_plane/goal_manager.rs:130-138 | The encoder's answer where it is not empty, and zeros of the model's width otherwise |
| CivilDate.CivilIsDate | src/server/chat_template.rs:112-125 | Every day number gives a valid Gregorian date, that many days from 1 January 1970 |
| CivilDate.CivilInverts | src/server/chat_template.rs:112-125 | Converting the day number of a date gives the date back |
| CivilDate.CivilIncreases | src/server/chat_template.rs:112-125 | Later days are later dates |
| CivilDate.CivilSteps | src/server/chat_template.rs:112-125 | The next day is the calendar's next date, by the leap-year rule of RFC 3339, Appendix C |
| CivilDate.DayNumberCounts | src/server/chat_template.rs:112-113 | The day number counts calendar days from the epoch |

## Left out

- Batcher.ContinuousBatcher.StreamsExact: says nothing about sampled requests with top-k or top-p in a run that preempts by recompute, nor about sampled ones without in a run where others need top-k; `PreemptionInvisibleIff`, `SwapInvisibleIff` and `RecomputeDiverges` say why.
- Batcher.ContinuousBatcher.StepPld: assumes the full pool its comment assumes.
- PagedDecoder.BatchedDecoder.PrefillPrefixReuse: looks a prefix up by its tokens, not by a 64-bit hash, so hash collisions are not modelled.
- PagedDecoder.BatchedDecoder.Forward: runs the rows one after the other; by causality that equals running them in parallel.
- PagedDecoder.BatchedDecoder.StepSlottedTopK: takes the draw among the candidates as any function of logits, parameters and seed; `Sampling.SampleTopK` is that draw, and the kernel that finds the candidates, whose first is meant to be the argmax, is left out.
- Q4kAvx2.GemvAvx2: real arithmetic is exact, so the order of float additions and half-precision conversion do not show.
- Q4kAvx512.VecDotAvx512: real arithmetic is exact here too.
- JsonDocuments.DocumentIsJson: one way only; a key such as `a":1,"b` breaks the condition and still spells JSON, with another member in it.
- SpecDecode.BackendSlot.GenerateSpecDecode: a stop string is any predicate on the tokens so far; decoding them to text and cutting the text is left out.
- GoalManager.Manager.SetGoal: an operation reads the clock once.
- GPU kernels, transformer mathematics, rotary embeddings, floating-point rounding, the temperature sampler and the hash that turns a seed into a uniform number.
- Half-precision conversion and the quantisation of activations: rounding.
- The block table's copy on the device, cache statistics, metrics, gauges, inspection traces and the injection vector.
- The scalar matrix kernel over interleaved blocks and the parallel variants: one call of a modelled kernel per row.
- Single-sequence prompt-lookup generation in src/backend/gpu/mod.rs: a special case of the batched step.
- The prompt-lookup blocks of the chat handlers, their stop strings, early exit, hooks and their write-back.
- The cache bookkeeping at the end of a blocking generation that stops on length or on a stop string.
- Tensor and I/O errors other than an empty input and a full context.
- The order of a schema's properties is the order the parsed object lists them in, declared or sorted.
- What a user-supplied `pattern` expression matches (`PatternQuoted` says where it stands), the compilation of patterns to automata (any finite automaton is assumed), byte decoding (a parameter), ban lists and grammar mode names.
- Persistence files, text encoders, unique-id generation, locks, counters' wrap-around, HTTP, authentication, configuration, model loading and tokenisation.
- Default budgets of the memory store; any budgets are allowed.
