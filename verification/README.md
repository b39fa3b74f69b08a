# Verified model of the OneOps protocols

Dafny 4.11 models of the parts of OneOps in which an algorithm or a protocol carries the
correctness of the service, with proofs about all inputs, all interleavings and all runs.
`dafny verify dfyconfig.toml` checks the project.

| module | component |
|---|---|
| KbIndexSync, AgentIndexSync, VectorIndex, AgentIndex | the embedding workers: an at-least-once queue, hash-guarded upserts one statement at a time, pruning by index |
| SingleFlight | the stampede-protected cache: any number of clients over a value slot and an expiring lock slot |
| Resilience, Retry, OwnBreaker | the circuit breaker over a rolling window, the bounded retry, and the retry driven through its own breaker |
| KbChunker | the overlapping text chunker |
| EventStream | the NDJSON stream: a consumer generator racing a producer task |
| Authz, Sorting | authorization behind a decision cache with canonicalised keys |
| ItsmGenerator | the data generator that keeps foreign keys |
| SemanticCache | the embedding-similarity cache, over the reals |
| SessionStore | the server-side scripts of the session store |
| RestoreSql | the SQL literal printer, read back by the lexical rules of ISO/IEC 9075-2 section 5.3 |
| InterruptMarker | the marker that resumes a paused turn on its checkpoint thread |
| Text, Decimal, Wrappers | Python string and number primitives, and the optional value |

Each module has the same shape. The code that changes things step by step is a method or a class
whose postconditions equate the new state with a specification function; the properties are lemmas
about that function, or about runs of a step relation in which the steps of different clients
interleave freely. Random choices are nondeterministic, clocks and answers of the outside are
parameters.

Where the code and its own comments disagree, the model follows the code:

- `get_or_single_flight` says it never raises; an exception of `compute` propagates (after the lock is released).
- `before_call` says that it lets one probe through; every caller is admitted in HALF_OPEN (`Resilience.FirstOutcomeDecides`).
- The chunker speaks of overlapping chunks; neighbouring slices can leave a gap (`KbChunker.FullCoverageIff`, `KbChunker.CoverageCanFail`), and a slice with little text in it is dropped whether or not another chunk has that text (`KbChunker.NothingLostIff`, `KbChunker.DustIsLost`).
- The comment on `content_hash_kb` says that any change of the semantic surface regenerates all chunks; tags, which the anchor text shows, are not under the digest, and the labelled fields are joined without escaping (`KbIndexSync.TagsEditIsNotIndexed`, `KbIndexSync.SilentEdit`).
- `event_stream` is documented to yield a final line; a cancelled producer ends it without one, because its CancelledError is not an Exception (`EventStream.CancelledHasNoFinal`). A tool call that outlives the run can lose its `tool_done` (`EventStream.StragglerLosesDone`).
- The semantic cache is documented per tenant and role; the two are joined by a colon, so tenants with a colon in their names can share a bucket (`SemanticCache.KeysCollide`, `SemanticCache.AnswersStayInTenant`).
- `publish_tool` reports a cancelled call as a success: only `Exception` sets the failed status.
- The worker of the agent index writes the domain and reads the highest active version, while the trigger rings on the skills alone (`AgentIndexSync.SilentChange`, `AgentIndexSync.ActivatedDraftIsNotIndexed`).
- The SQL generator prints NaN and infinities as bare words (`RestoreSql.NoNumeralIsLost`), integers beyond 64 bits into BIGINT columns (`RestoreSql.WideIntegerIsRefused`), any text of a column with a timestamp in it as a timestamp (`RestoreSql.TextBesideTimestamp`), and other values that do not fit their column's type as something else (`RestoreSql.LiteralReadsBackIff`).
- `_chat` says that the pending interrupt is cleared on resume; it is overwritten by an empty record that a second answer takes for a pause (`InterruptMarker.SentinelResumesSessionThread`).

## Model

| member | source | states |
|---|---|---|
| KbIndexSync.IndexConverges | database/_lib/_worker_base.py:216-244 | In every run of row changes, reads, single statements, failures, acknowledgements and crashes, with one worker and provided that every edit which changes the body chunks changes the digest, an article that exists and has no queued message has kb_body rows exactly equal to its current body chunks at indices 0..N-1 |
| KbIndexSync.AnchorConverges | database/kb/worker.py:57-63 | The same for the anchor row, provided that every edit which changes the anchor text changes the digest: if the anchor text is not blank, the row is there with that text |
| KbIndexSync.EditIsQueued | database/kb/02_embeddings.sql:56-69 | After any run, the insertion of an article, and every edit that changes exactly one of title, summary, category and content, queues a message about it that was not there before |
| KbIndexSync.PlainEditsConverge | database/kb/01_schema.sql:34-47 | Convergence of body rows and anchor row without an assumption on the digest, for runs whose edits change one field at a time and leave the tags alone |
| KbIndexSync.OneFieldIsDigested | database/kb/01_schema.sql:37-47 | Rows that differ in exactly one of the four fields have different digest texts |
| KbIndexSync.RemovalCleans | database/kb/02_embeddings.sql:77-90 | A deletion takes the article's rows along, and no others |
| KbIndexSync.AnchorShowsFields | src/oneops/embeddings/kb_chunker.py:104-123 | The anchor text has a labelled line for each non-empty one of title, summary, category and tags, and does not depend on the content |
| KbIndexSync.AnchorOfFullRow | src/oneops/embeddings/kb_chunker.py:104-123 | The whole anchor text of an article with every field: order, labels, separators, empty tags skipped |
| KbIndexSync.StepKeepsInv | database/kb/worker.py:41-81 | Every single step whose edits ring keeps, for the body rows and for the anchor row: that part matches, or another message is queued, or the snapshot in flight is still current and its first statements have landed |
| KbIndexSync.RunKeepsInv | database/_lib/_worker_base.py:207-244 | The invariant holds after every run whose edits ring |
| KbIndexSync.KbPlanFits | database/kb/worker.py:57-81 | No statement of one pass undoes an earlier one, and all of them stay on their entity |
| KbIndexSync.LandedMatches | database/kb/worker.py:65-81 | Once every statement of a pass shows in the table, body rows and anchor are exactly those of the row |
| KbIndexSync.Process | database/kb/worker.py:55-81 | The loop executes a prefix of the plan, cut off where a statement raises, and succeeds iff none does |
| KbIndexSync.WriteBody | database/kb/worker.py:65-81 | Upserting the chunks one by one and then pruning above the last index is the tail of the plan |
| KbIndexSync.KbWorker.DrainOnce | database/_lib/_worker_base.py:216-244 | One drain is a run of the step protocol without row changes; exactly the acknowledged messages leave the queue |
| KbIndexSync.KbWorker.DrainMessage | database/_lib/_worker_base.py:227-242 | A message is deleted exactly when process returned; a failed one stays queued |
| KbIndexSync.ContentEditRings | database/kb/01_schema.sql:37-47 | An edit of the content alone always changes the digest, so it always enqueues |
| KbIndexSync.SilentEdit | database/kb/02_embeddings.sql:56-69 | An edit that leaves the digest unchanged enqueues nothing, and the index stays exact iff the body chunks are unchanged |
| KbIndexSync.SilentEditExists | database/kb/01_schema.sql:37-47 | Such edits exist: the digest runs over unescaped labelled lines |
| KbIndexSync.TagsEditIsNotIndexed | database/kb/01_schema.sql:34-47 | After a tags-only edit of an article whose anchor row is up to date nothing is queued, and the row is right iff the edit did not change the anchor text or made it blank |
| KbIndexSync.TwoWorkersCanDiverge | database/_lib/_worker_base.py:216-244 | Convergence needs one worker: for every edit that rings and changes the body chunks there is a run of two workers that ends with both idle, both messages acknowledged and the queue empty, while the index holds the older chunks |
| AgentIndexSync.AgentIndexConverges | database/_lib/_worker_base.py:216-244 | In every run of version changes, deletions, reads, single statements, failures, acknowledgements and crashes, with one worker and provided that every change after which the index should show something else rings, an agent without a queued message whose highest active version has chunks has exactly that version's phrases and domain in the index |
| AgentIndexSync.StepKeepsInv | database/agent/worker.py:64-100 | Every step keeps: an agent whose card has chunks has a message queued, or is being indexed from a card that shows the same, or its rows are exactly the card's |
| AgentIndexSync.SkillEditIsQueued | database/agent/02_embeddings.sql:46-60 | After any run, the insertion of a version in whatever status, and every change of anything in a version's skills, queues a message about the agent that was not there before |
| AgentIndexSync.PlainChangesConverge | database/agent/01_schema.sql:7-23 | Convergence without an assumption on the trigger, for runs that change versions only by inserting them, editing their skills and deleting inactive ones |
| AgentIndexSync.LastRemovalCleans | database/agent/02_embeddings.sql:68-82 | A deletion takes the agent's rows along exactly when it removes its last version; other agents lose nothing |
| AgentIndexSync.HighestIsFetched | database/agent/worker.py:70-75 | The row fetched is the highest active version |
| AgentIndexSync.SilentChange | database/agent/02_embeddings.sql:46-60 | The ringing condition is exact for an agent that is in step and has chunks to show before and after: a change that does not ring queues nothing, and the index is exact afterwards iff the newly wanted card shows the same phrases and domain |
| AgentIndexSync.NeverWantedHasNoRows | database/agent/worker.py:69-83 | In every run, an agent that never had an active version with chunks has no rows in the index |
| AgentIndexSync.FirstCardIsSilent | database/agent/02_embeddings.sql:46-60 | The condition is exact for such an agent too: a change that does not ring and gives it its first card to show queues nothing and leaves the index wrong |
| AgentIndexSync.ActivatedDraftIsNotIndexed | database/agent/02_embeddings.sql:46-60 | Such a run, for every card with chunks: a draft is inserted, its message acknowledged, the draft activated, and the agent stays out of the index with an empty queue |
| AgentIndexSync.OnlySkillsRing | database/agent/01_schema.sql:7-23 | Edits of the domain, status flips and deletions of a version never ring |
| AgentIndexSync.DomainEditIsNotIndexed | database/agent/01_schema.sql:7-23 | After an edit of the domain of the version shown, in any state in step, no message is queued and the index, right before, is wrong |
| VectorIndex.GuardSkipsOnlyIdentical | database/_lib/_worker_base.py:94-110 | The hash guard skips an upsert only when the stored row already is the row to be written |
| VectorIndex.RedeliveryLands | database/_lib/_worker_base.py:230-242 | Any earlier plan cut off after an arbitrary statement, followed by a complete plan, leaves the complete plan in effect |
| VectorIndex.LandOne | database/_lib/_worker_base.py:94-110 | Each further statement of a compatible plan takes effect and undoes none before it |
| VectorIndex.OthersUntouched | database/kb/worker.py:76-81 | A plan leaves the rows of every other entity alone |
| VectorIndex.VectorTable.UpsertRow | database/agent/worker.py:35-57 | The in-place upsert with the conflict guard on hash or domain |
| VectorIndex.VectorTable.DeleteAbove | database/agent/worker.py:96-100 | The in-place prune above an index |
| AgentIndex.AgentReindex | database/agent/worker.py:80-100 | From any table the workers can leave, and after an earlier pass cut off at any statement, a finished pass for a card with chunks leaves exactly the card's (type, index, text) rows and touches no other entity |
| AgentIndex.EmptyCardKeepsRows | database/agent/worker.py:80-83 | A card without chunks changes nothing, so the rows are right iff there were none |
| AgentIndex.ChunksArePhrases | src/oneops/embeddings/agent_input.py:27-57 | A chunk is emitted iff it is the phrase its index points at among all phrases of its type, so indices are gap-free across skills |
| AgentIndex.FieldsAreIndexed | src/oneops/embeddings/agent_input.py:32-57 | A text has a description, use_when or example chunk iff it is not blank and is what stripping leaves of some skill's description, of one of its use_when phrases, of one of its examples |
| AgentIndex.CleanInOrder | src/oneops/embeddings/agent_input.py:50-57 | Phrases keep their order |
| AgentIndex.DomainOrDefault | database/agent/worker.py:85 | The stripped domain of the card, "itsm" when it is missing or blank |
| AgentIndex.ChunkKeysDistinct | src/oneops/embeddings/agent_input.py:27-57 | No two chunks of a card share a (type, index) key |
| AgentIndex.MaxIndexIsLast | database/agent/worker.py:87-93 | The tracked maximum is the number of phrases of the type less one, -1 when there are none |
| AgentIndex.AgentPlanFits | database/agent/worker.py:88-100 | No statement of one pass undoes an earlier one |
| AgentIndex.PhraseChunks | src/oneops/embeddings/agent_input.py:44-57 | Blank phrases are skipped without using up an index |
| AgentIndex.BuildSkill | src/oneops/embeddings/agent_input.py:32-40 | The three counters continue where the earlier skills left off |
| AgentIndex.BuildAgentChunks | src/oneops/embeddings/agent_input.py:27-41 | The loop with its counters yields the chunks specified skill by skill |
| AgentIndex.WriteChunks | database/agent/worker.py:87-93 | The upsert loop is a prefix of the plan, and its dictionary holds the maximum index of each type |
| AgentIndex.PruneKinds | database/agent/worker.py:96-100 | The prune loop is the rest of the plan |
| AgentIndex.Process | database/agent/worker.py:80-100 | One pass executes a prefix of the plan, the whole plan unless a statement raises |
| SingleFlight.SingleFlightSafety | src/oneops/adapters/dragonfly_ops.py:178-206 | In every interleaving without store errors in which live holders release before their lock expires, crashed holders included, at most one live client is between acquire and release, and stored bytes always serialize some non-None compute result |
| SingleFlight.OnlyTheHolderWrites | src/oneops/adapters/dragonfly_ops.py:191-206 | Whatever step changes the value key, it is a step of the one live holder |
| SingleFlight.CallBounds | src/oneops/adapters/dragonfly_ops.py:178-221 | compute runs at most once, exactly once iff the call does not return a cached value; at most ceil(wait_max / poll) polls; a caller that did not acquire, whether it polled or not, neither stores nor releases; one that did never polls, releases exactly once and stores iff it computed a value |
| SingleFlight.FastPathReturns | src/oneops/adapters/dragonfly_ops.py:178-184 | In every interleaving a call whose first GET finds a value it can read returns that value and does nothing else: no lock, poll, compute, store or release |
| SingleFlight.FirstPollEnds | src/oneops/adapters/dragonfly_ops.py:208-221 | The first poll that finds a value ends the wait, with that value if it can be read and with the call's own compute if not |
| SingleFlight.ReturnsOwnCompute | src/oneops/adapters/dragonfly_ops.py:191-221 | A call that computes returns exactly what its own compute did, as holder and as timed-out waiter; a call that returns a cached value never computed |
| SingleFlight.HolderStores | src/oneops/adapters/dragonfly_ops.py:74-98 | The holder's store puts serialized bytes of at most 256 KiB into the slot for the TTL; anything else leaves the slot as it was |
| SingleFlight.StoredIsServed | src/oneops/adapters/dragonfly_ops.py:178-204 | Within the TTL of a store the next caller gets the stored value from the cache without computing |
| SingleFlight.DoneStays | src/oneops/adapters/dragonfly_ops.py:178-221 | A call that has returned does nothing more |
| SingleFlight.ReturnsAgree | src/oneops/adapters/dragonfly_ops.py:178-221 | With a deterministic compute and a codec that round-trips, all non-None returns are equal |
| SingleFlight.OverrunBreaksExclusion | src/oneops/adapters/dragonfly_ops.py:120-146 | Without the timing assumption, from any run in which a live client holds, at whatever point between acquire and release, a run goes on in which a newcomer holds too, and one in which the first one's release has deleted the newcomer's lock |
| SingleFlight.FirstCallerHolds | src/oneops/adapters/dragonfly_ops.py:186-193 | Such runs start from the empty store: the first caller comes to hold |
| SingleFlight.StepKeepsLockInv | src/oneops/adapters/dragonfly_ops.py:128-146 | Every step keeps: a live holder's own unexpired entry is in the lock slot, so there is only one |
| SingleFlight.StepKeepsValueInv | src/oneops/adapters/dragonfly_ops.py:193-204 | Every step keeps: the stored bytes serialize a computed result |
| SingleFlight.PollsFit | src/oneops/adapters/dragonfly_ops.py:209-212 | The loop test waited < wait_max allows exactly ceil(wait_max / poll) polls |
| SingleFlight.GetOrSingleFlight | src/oneops/adapters/dragonfly_ops.py:178-221 | The statements of the call are a run of the client automaton of the interleavings; a readable first GET is returned with no poll, compute, store or release; the holder returns what compute did, after one release; a waiter returns the first value a poll finds if it can be read, and otherwise what its own compute did |
| SingleFlight.Poll | src/oneops/adapters/dragonfly_ops.py:208-221 | The waiting loop ends with the first poll that finds anything, or when the budget of polls is used up |
| SingleFlight.Dragonfly.AcquireLock | src/oneops/adapters/dragonfly_ops.py:120-140 | Acquires iff no unexpired entry is in the slot |
| SingleFlight.Dragonfly.ReleaseLock | src/oneops/adapters/dragonfly_ops.py:143-146 | Empties the slot whoever holds it |
| SingleFlight.Dragonfly.CacheGet | src/oneops/adapters/dragonfly_ops.py:49-71 | Returns the bytes of an unexpired entry only |
| SingleFlight.Dragonfly.CacheSet | src/oneops/adapters/dragonfly_ops.py:74-98 | Refuses an oversized value and leaves the slot as it was |
| Resilience.OpensIff | src/oneops/adapters/nats_resilience.py:195-202 | An outcome recorded on a closed breaker opens it iff, among the outcomes of the key's full history of the last window_seconds, there are at least min_requests and the failed ones are at least failure_ratio times all of them |
| Resilience.BelowRatioStaysClosed | src/oneops/adapters/nats_resilience.py:195-202 | A closed breaker whose failures stay below the ratio never opens, however many outcomes there are |
| Resilience.FailuresIs | src/oneops/adapters/nats_resilience.py:108-116 | The failure count is the number of failed outcomes in the window |
| Resilience.WithinIs | src/oneops/adapters/nats_resilience.py:98-106 | The window holds each outcome at or after the cutoff as often as the history does, and no other |
| Resilience.WindowIsSuffix | src/oneops/adapters/nats_resilience.py:98-106 | In an ascending history the window is what follows the outcomes that are too old |
| Resilience.WindowTracksHistory | src/oneops/adapters/nats_resilience.py:95-116 | In every run, for every key in any mode and every later clock reading, trimming the deque leaves exactly the full record history of the last window_seconds, so (total, failures) are its counts |
| Resilience.OpenRejects | src/oneops/adapters/nats_resilience.py:154-171 | A key that is open admits no call before its cooldown has passed, whatever late outcomes are recorded, and admits the next one |
| Resilience.FirstOutcomeDecides | src/oneops/adapters/nats_resilience.py:181-193 | From HALF_OPEN the first outcome decides CLOSED or OPEN, and every caller until then is admitted |
| Resilience.KeysAreIndependent | src/oneops/adapters/nats_resilience.py:149-152 | The state of a key depends on the events of that key alone |
| Resilience.BreakerKeyInjective | src/oneops/adapters/nats_resilience.py:256-258 | Subjects without '&#124;' never share a breaker with another subject or tenant |
| Resilience.BreakerKeyCollides | src/oneops/adapters/nats_resilience.py:258 | With '&#124;' in a subject they can |
| Resilience.ClosedMayReopenOnSuccess | src/oneops/adapters/nats_resilience.py:181-202 | A breaker closed by a good probe can reopen on the next success |
| Resilience.TrimLeft | src/oneops/adapters/nats_resilience.py:104-106 | On an ascending deque the popleft loop keeps exactly the entries that are not too old |
| Resilience.Stats | src/oneops/adapters/nats_resilience.py:108-116 | Trims the deque to the cutoff and counts totals and failures of what is left |
| Resilience.CircuitBreaker.BeforeCall | src/oneops/adapters/nats_resilience.py:154-171 | Admission and the transition to HALF_OPEN, in place |
| Resilience.CircuitBreaker.Record | src/oneops/adapters/nats_resilience.py:173-212 | The outcome enters the key's window and may change its mode; other keys stay as they are |
| Retry.RetryAccounting | src/oneops/adapters/nats_resilience.py:269-278 | Attempts 0 to n are made: all before the last met a lost connection or NATSUnavailableError, the last one did not unless no more were allowed, and another exception is met by the last one only; every admitted attempt records exactly one outcome, failures followed by a success iff the call returns; the result is the last attempt's reply, the other exception iff it met one, NATSUnavailableError iff NATS was lost, the breaker's refusal iff it was not admitted |
| Retry.CallInOrder | src/oneops/adapters/nats_resilience.py:269-366 | All a call does, in order: each lost attempt is admitted, called if connected, recorded as a failure, and followed by a sleep of its jitter times min(initial * 2^i, max_delay); the last one is followed by no sleep |
| Retry.NoAttempts | src/oneops/adapters/nats_resilience.py:269-288 | With no attempt allowed nothing is done and the call raises NATSUnavailableError |
| Retry.BackoffIsBounded | src/oneops/adapters/nats_resilience.py:76-82 | The total backoff is at most the sum of min(initial * 2^i, max_delay) over i < max_attempts - 1 |
| Retry.ResilientCall | src/oneops/adapters/nats_resilience.py:269-278 | The retry loop produces exactly the specified effects and result |
| Retry.RunOneAttempt | src/oneops/adapters/nats_resilience.py:333-366 | An attempt asks for another one iff it failed retryably and attempts are left |
| Retry.RetryOrExhaust | src/oneops/adapters/nats_resilience.py:308-330 | Records the failure first, then sleeps or, on the last attempt, re-raises |
| OwnBreaker.CutOffByOwnBreaker | src/oneops/adapters/nats_resilience.py:269-278 | A lone call on a fresh key while NATS is down, of attempts that fit into the window and the cooldown, is cut off by its own breaker iff min_requests < max_attempts, after exactly min_requests recorded failures; otherwise it exhausts its attempts |
| OwnBreaker.OpensAtThreshold | src/oneops/adapters/nats_resilience.py:195-202 | Within the window and the cooldown, the breaker of such a call stays closed below min_requests failures and opens with the one that reaches it |
| KbChunker.ChunkerBounds | src/oneops/embeddings/kb_chunker.py:69-101 | For n > 2000 characters: at most 1 + (n-201)/1800 passes, the last slice ends at n, every slice has more than 200 and at most 6000 characters, slices overlap by exactly 200 when the split is at least 2000 past the cursor, and a gap, of at most 199 characters, occurs iff the split fell less than 1800 past it |
| KbChunker.FullCoverageIff | src/oneops/embeddings/kb_chunker.py:93-99 | The raw slices cover every character iff every split but the last falls at least 1800 past its cursor; what gets into chunks is NothingLostIff |
| KbChunker.NothingLostIff | src/oneops/embeddings/kb_chunker.py:84-99 | The chunks of a long content hold every character that is no white space iff the gaps between slices are blank and every slice dropped for its length shares its text with a kept neighbour |
| KbChunker.InChunkIff | src/oneops/embeddings/kb_chunker.py:74-88 | A character that is no white space stands in a chunk iff the content is a single chunk or the character lies in a slice whose stripped text has at least 100 characters |
| KbChunker.ChunksStandAt | src/oneops/embeddings/kb_chunker.py:86-88 | Each chunk is the content at its span, one span a chunk, in order |
| KbChunker.DustIsLost | src/oneops/embeddings/kb_chunker.py:86-88 | A concrete text whose slices cover it and whose last character is in no chunk |
| KbChunker.ShortSplitIff | src/oneops/embeddings/kb_chunker.py:35-66 | A split falls less than 1800 past its start iff the best-ranked delimiter of the window ends before window offset 200 |
| KbChunker.CoverageCanFail | src/oneops/embeddings/kb_chunker.py:25-66 | Coverage by the slices fails on a concrete text |
| KbChunker.SplitPointIsBestBoundary | src/oneops/embeddings/kb_chunker.py:40-66 | The split lies just after the last occurrence of the highest-ranked delimiter of the window, and at start + target exactly when the window has neither newline nor space |
| KbChunker.BoundaryOrder | src/oneops/embeddings/kb_chunker.py:35-66 | The split follows the last paragraph break (three newlines before two) between 1600 and 6000 characters past the start; without one the last of a kind of sentence end, else the last newline, else the last space, else it falls at 2000 |
| KbChunker.SplitPointRange | src/oneops/embeddings/kb_chunker.py:25-66 | Every split is past its start, within the text and within start + hard_max |
| KbChunker.BodyChunksAreGood | src/oneops/embeddings/kb_chunker.py:69-101 | Every chunk is a contiguous part of the content without outer white space, at most 6000 and, for long content, at least 100 characters; short content gives no chunk iff it is blank |
| KbChunker.FindSplitPoint | src/oneops/embeddings/kb_chunker.py:25-66 | The staged search computes the ranked split point |
| KbChunker.SearchWindow | src/oneops/embeddings/kb_chunker.py:42-63 | The four groups searched in turn are one search through the ranked delimiters |
| KbChunker.SplitLoop | src/oneops/embeddings/kb_chunker.py:77-101 | The loop with its break and progress guard collects what the recursive definition collects |
| KbChunker.SplitBody | src/oneops/embeddings/kb_chunker.py:69-101 | The method returns the chunks of the slices, in order |
| KbChunker.CollectedEmits | src/oneops/embeddings/kb_chunker.py:84-101 | What the loop collects is the kept text of each slice, in order |
| Text.StripTrims | src/oneops/embeddings/kb_chunker.py:86 | strip() removes exactly the outer white space |
| Text.StripIs | src/oneops/embeddings/kb_chunker.py:86 | A text between white space, without white space at its own ends, is what strip() leaves |
| EventStream.StreamOrder | src/oneops/api/streaming.py:39-70 | Every stream that has come to its end is turn_start, then every event published before the generator's last look at the queue, hence every one published before the run ended, once each in publish order; then, as the only final line, what the run returned, or the text "stream failed (request_id=...)" if it raised, and no final line iff it was cancelled |
| EventStream.CancelledHasNoFinal | src/oneops/api/streaming.py:55-65 | A run in which the producer is cancelled: the generator ends with its CancelledError and no final line |
| EventStream.StreamIsExact | src/oneops/api/streaming.py:49-65 | When nothing is published after the run ended, the stream carries exactly what was published, and the final line unless the producer was cancelled |
| EventStream.StepKeepsInv | src/oneops/api/streaming.py:45-66 | Every step keeps: output, the getter's event and the queue together are the published events in order |
| EventStream.StepKeepsCalls | src/oneops/observability/event_sink.py:35-48 | Every step keeps: what the sink accepted up to now, up to the end of the run and up to the last look are the events of the tool calls as far as they were, none for an empty request id |
| EventStream.ToolEventsPair | src/oneops/api/streaming.py:73-92 | In every interleaving of tool calls, producer and consumer, and unless the request id is empty, the stream shows a call's tool_start followed by its one tool_done, with status "failed" iff its run raised an Exception, iff the call ended before the generator's last look at the queue, the start alone iff it was still running then; a call that ended before the run did is always shown in full; for an empty request id nothing is shown |
| EventStream.AllPairedIff | src/oneops/api/streaming.py:73-92 | Every tool_start in the output has its tool_done iff no call was running at that last look, or the request id is empty |
| EventStream.StragglerLosesDone | src/oneops/api/streaming.py:49-65 | A call that outlives the run can lose its tool_done |
| EventStream.Stream.PublishTool | src/oneops/api/streaming.py:73-92 | Whatever other coroutines, the producer, the generator and its client do meanwhile and however the wrapped run ends, the call takes exactly its two steps of the protocol, the second one last |
| EventStream.Stream.Advance | src/oneops/api/streaming.py:44-70 | The statements of the generator from any of its suspension points to the next are one step of the protocol |
| EventStream.Stream.Produce | src/oneops/api/streaming.py:39-70 | The generator's loop is a run of the protocol and comes to its end, normally iff the producer was not cancelled, with the last line of its result, of its failure, or none |
| EventStream.Stream.Conclude | src/oneops/api/streaming.py:55-70 | The final line and the closing of the sink; a cancelled producer's exception goes past the handler |
| EventStream.Stream.LastLook | src/oneops/api/streaming.py:55-65 | With the queue empty, the final line with the result, or with the failure text and request id; for a cancelled producer none, and the sink is closed |
| EventStream.Stream.Drain | src/oneops/api/streaming.py:53-54 | The flush empties the queue before the final line |
| Authz.CacheIsTransparent | src/oneops/authz/service.py:50-85 | After every run of checks, puts, expiries and invalidations over one role map, a check that returns gives the fresh evaluation, effect and full reason list, up to the from_cache flag |
| Authz.CheckIsCached | src/oneops/authz/service.py:50-85 | After an evaluated check, a check with the same key is answered from the cache iff it comes before the TTL has passed since the write |
| Authz.EqualKeysEqualDecisions | src/oneops/authz/decision_cache.py:27-43 | Equal keys force equal evaluations: permuted audiences and scopes do not matter |
| Authz.PermutedSameKey | src/oneops/authz/decision_cache.py:27-43 | Permuting audience, scopes or attributes does not change the key |
| Authz.RunKeepsFresh | src/oneops/authz/decision_cache.py:65-93 | Whatever is stored under a key is the fresh decision of every request with that key |
| Authz.AllowedIff | src/oneops/authz/abac.py:34-83 | The conditions under which access is granted, in full |
| Authz.WriteClassIs | src/oneops/authz/abac.py:24-31 | A permission is write-class iff it is admin or starts with write:, approve: or create: |
| Authz.ReadersCannotAct | src/oneops/authz/abac.py:66-72 | A role that holds only read: permissions is denied every ACTION resource |
| Authz.TierReasonIff | src/oneops/authz/abac.py:66-72 | In its own tenant an ACTION resource reports the missing write class exactly for roles without admin and without any write:, approve: or create: permission |
| Authz.MissingScopesListed | src/oneops/authz/abac.py:60-64 | The reason for missing scopes lists, in order, exactly the required scopes that are not granted, each as often as required, and never for admin |
| Authz.AudienceAndClassReasons | src/oneops/authz/abac.py:53-82 | The audience is reported, sorted, exactly to roles outside it; the data class exactly when it is confidential or PII and the role has neither clearance |
| Authz.CrossTenantDenied | src/oneops/authz/abac.py:43-51 | A tenant mismatch is denied for that reason alone |
| Authz.UnknownRoleDenied | src/oneops/authz/rbac.py:64-67 | A role outside the role map is denied everything that needs a permission |
| Authz.Evaluate | src/oneops/authz/abac.py:34-83 | The reasons collected by append and early return |
| Authz.MissingIffFails | src/oneops/authz/abac.py:61-64 | A scope is reported missing iff some required scope is not granted |
| Authz.InMemoryDecisionCache.Get | src/oneops/authz/decision_cache.py:73-83 | A hit only before expiry; an expired entry is deleted |
| Authz.InMemoryDecisionCache.Put | src/oneops/authz/decision_cache.py:85-89 | A TTL that is not positive is refused and changes nothing |
| Authz.InMemoryDecisionCache.Invalidate | src/oneops/authz/decision_cache.py:91-93 | Removes the key alone |
| Authz.AuthzService.Check | src/oneops/authz/service.py:50-85 | A hit is returned as stored; a miss is evaluated and stored; an invalid TTL raises after a miss |
| Sorting.SortIsCanonical | src/oneops/authz/decision_cache.py:34-40 | Two lists sort alike iff one is a permutation of the other |
| Sorting.StrLeIs | src/oneops/authz/decision_cache.py:34-40 | The string order is lexicographic: a prefix, or smaller at the first difference |
| Sorting.SortFilterCommute | src/oneops/authz/abac.py:62-64 | Sorting commutes with filtering the missing scopes |
| ItsmGenerator.Dataset.Build | database/_utils/generate_itsm_data.py:566-583 | Validation passes iff every checked reference resolves after all generators and backfill; for loaded references that resolve and globally unique problem ids it passes for every sequence of random choices; no loaded row is lost, problems and articles keep their keys and places, and articles with links are not changed |
| ItsmGenerator.Dataset.Generate | database/_utils/generate_itsm_data.py:570-580 | All generators only add rows, exactly up to the targets, and keep every reference resolved and problem ids unique |
| ItsmGenerator.Dataset.Backfill | database/_utils/generate_itsm_data.py:473-487 | Links of problems are rewritten from the incidents and changes that name them and resolve in the problem's tenant; article links that exist are kept, others are drawn so that they resolve |
| ItsmGenerator.LinkedResolves | database/_utils/generate_itsm_data.py:474-479 | The tenant-blind joins over incidents and changes stay in the tenant because problem ids are globally unique |
| ItsmGenerator.LinkedIsComplete | database/_utils/generate_itsm_data.py:473-479 | A problem is linked to exactly the first six ids, in order, of the incidents that name it, and to the first four of the changes: distinct, none left out before one taken, all of them when there are no more |
| ItsmGenerator.SharedProblemIdFails | database/_utils/generate_itsm_data.py:474-479 | From tables at their targets in which an incident's problem id also belongs to a problem of a tenant that lacks the incident, the whole run always ends with errors |
| ItsmGenerator.SharedProblemIdExists | database/_utils/generate_itsm_data.py:566-583 | Such tables exist with all loaded references resolved: a problem id shared by two tenants |
| ItsmGenerator.Validate | database/_utils/generate_itsm_data.py:548-563 | No error is reported iff every checked reference resolves in its own tenant |
| ItsmGenerator.EveryReferenceChecked | database/_utils/generate_itsm_data.py:503-563 | What an error-free validation means, field by field: each of the eleven kinds of reference is absent or names a row of the tenant it stands in |
| ItsmGenerator.ValidateIncidents | database/_utils/generate_itsm_data.py:509-523 | Adds an error iff some incident reference dangles |
| ItsmGenerator.ValidateChanges | database/_utils/generate_itsm_data.py:526-533 | Adds an error iff some change reference dangles |
| ItsmGenerator.ValidateRequests | database/_utils/generate_itsm_data.py:553-555 | Adds an error iff some catalog reference dangles |
| ItsmGenerator.ValidateLinks | database/_utils/generate_itsm_data.py:536-545 | Adds an error iff some incident link of a problem or article dangles |
| ItsmGenerator.CheckRef | database/_utils/generate_itsm_data.py:490-494 | An absent reference is never an error; a set one is iff it is unknown in the tenant |
| ItsmGenerator.NextNumeric | database/_utils/generate_itsm_data.py:176-184 | The start number is above the number of every id in use and ends in 0001 |
| ItsmGenerator.GenProblems | database/_utils/generate_itsm_data.py:266-287 | New problems never reuse a problem id of any tenant |
| ItsmGenerator.GenChanges | database/_utils/generate_itsm_data.py:290-320 | Loaded changes stay, and references of every new one resolve in its tenant |
| ItsmGenerator.GenIncidents | database/_utils/generate_itsm_data.py:344-385 | Loaded incidents stay, and references of every new one resolve in its tenant |
| ItsmGenerator.GenRequests | database/_utils/generate_itsm_data.py:388-419 | Loaded requests stay, and references of every new one resolve in its tenant |
| ItsmGenerator.GenArticles | database/_utils/generate_itsm_data.py:422-444 | Loaded articles stay, and references of every new one resolve in its tenant |
| ItsmGenerator.SampleOrEmpty | database/_utils/generate_itsm_data.py:336-341 | A sample without repetition from the pool, within its size bounds |
| Decimal.FormatIdRoundTrip | database/_utils/generate_itsm_data.py:176-184 | The number read from the digits of a formatted id is the number it was formatted from |
| SemanticCache.SelfHit | src/oneops/api/semantic_turn_cache.py:96-138 | From any state: after a put of a query with a non-zero embedding, and any later puts of any tenants, roles and queries, fewer than bucket_max of them into the same bucket and each of those in time, a get of the same query hits for any threshold up to 1 iff it comes before the expiry the last of them set, and answers with the most recent of the bucket's puts that scores 1 |
| SemanticCache.OnePut | src/oneops/api/semantic_turn_cache.py:126-138 | A put to another bucket, or with an empty embedding, changes nothing in a bucket; any other one in time pushes in front and renews the expiry |
| SemanticCache.AnswersStayInTenant | src/oneops/api/semantic_turn_cache.py:89-138 | After any puts into an empty cache, an answer is the response of a put whose embedding reaches the threshold against the query; with no colon in tenant names, of a put of the same tenant and role |
| SemanticCache.KeysSeparate | src/oneops/api/semantic_turn_cache.py:89-91 | Tenants without a colon share a bucket iff tenant and role agree, an empty role reading as "-" |
| SemanticCache.KeysCollide | src/oneops/api/semantic_turn_cache.py:91 | With a colon in a tenant two tenants can share a bucket |
| SemanticCache.BucketAfterPuts | src/oneops/api/semantic_turn_cache.py:126-138 | While its own puts come in time, a bucket holds all of them up to its bound, whatever other puts come between, and expires after the last |
| SemanticCache.LookupIsBest | src/oneops/api/semantic_turn_cache.py:105-120 | A lookup answers with the newest among the entries of the highest score, iff that score is positive and reaches the threshold |
| SemanticCache.ScoreTimesNorms | src/oneops/api/semantic_turn_cache.py:63-69 | The score times the two norms is the dot product; vectors of different lengths or without a norm score 0 |
| SemanticCache.OrthogonalScoresZero | src/oneops/api/semantic_turn_cache.py:63-69 | Orthogonal vectors score 0 |
| SemanticCache.AnswerIsSimilar | src/oneops/api/semantic_turn_cache.py:105-120 | With a positive threshold the dot product of the query and the entry answered with is at least that share of the product of their non-zero norms |
| SemanticCache.DotSnoc | src/oneops/api/semantic_turn_cache.py:66 | The dot product is the sum of the products of the coordinates |
| SemanticCache.CauchySchwarz | src/oneops/api/semantic_turn_cache.py:63-69 | dot(a,b)^2 <= &#124;a&#124;^2 &#124;b&#124;^2 for all vectors of equal length |
| SemanticCache.CosineAtMostOne | src/oneops/api/semantic_turn_cache.py:63-69 | No score exceeds 1, whatever the lengths |
| SemanticCache.CosineOfSelf | src/oneops/api/semantic_turn_cache.py:63-69 | A non-zero vector scores exactly 1 against itself |
| SemanticCache.EntrySurvives | src/oneops/api/semantic_turn_cache.py:133-138 | An entry is still in the bucket after fewer than bucket_max later pushes |
| SemanticCache.SemanticTurnCache.Get | src/oneops/api/semantic_turn_cache.py:96-124 | The loop over the bucket's live entries computes that lookup |
| SemanticCache.SemanticTurnCache.Store | src/oneops/api/semantic_turn_cache.py:126-141 | Pushes in front, trims to bucket_max and renews the expiry; an empty embedding stores nothing |
| SessionStore.HistoryIsTail | src/oneops/adapters/session_store.py:70-93 | In every interleaving the history is the last max_history of the session's appended items, in order; no trim when max_history is not positive |
| SessionStore.FocusHoldsLastWrite | src/oneops/adapters/session_store.py:47-67 | A focus field holds a value iff the last step that decided the field wrote it, so no update is lost |
| SessionStore.CanonicalHoldsLastWrite | src/oneops/adapters/session_store.py:240-254 | A canonical field other than the counter holds a value iff the last update of it since the last purge wrote that value |
| SessionStore.PurgeForgets | src/oneops/adapters/session_store.py:279-286 | A purged session has no history, focus, canonical state or turn count |
| SessionStore.IncrementsAreOneToN | src/oneops/adapters/session_store.py:263-276 | n increments from whatever clients are answered 1, 2, ..., n while nothing else writes turn_index |
| SessionStore.TurnCounts | src/oneops/adapters/session_store.py:263-276 | Over any stretch that does not reset the counter it grows by exactly the increments made |
| SessionStore.TextCounterCounts | src/oneops/adapters/session_store.py:263-273 | A counter stored as decimal text counts on from its number |
| SessionStore.StaleMergeRepeatsTurn | src/oneops/adapters/session_store.py:240-276 | A merge of a stale turn_index makes an index repeat |
| SessionStore.OtherSessions | src/oneops/adapters/session_store.py:108-119 | No step changes another session |
| SessionStore.SessionStore.Append | src/oneops/adapters/session_store.py:70-93 | The script appends, removes from the head what exceeds the limit, and returns the new length |
| SessionStore.MergeScript | src/oneops/adapters/session_store.py:59-61 | Setting the keys one by one in any order is the override of maps |
| SessionStore.SessionStore.MergeFocus | src/oneops/adapters/session_store.py:174-194 | Empty updates are not sent; others override the stored fields |
| SessionStore.SessionStore.ClearPendingClarification | src/oneops/adapters/session_store.py:208-213 | Writes null to the one field and keeps the others |
| SessionStore.SessionStore.MergeCanonical | src/oneops/adapters/session_store.py:240-254 | Overrides fields of the canonical state only |
| SessionStore.SessionStore.Increment | src/oneops/adapters/session_store.py:256-276 | Stores and returns one more than the stored number, counting a missing or non-numeric one as 0 |
| SessionStore.SessionStore.PurgeSession | src/oneops/adapters/session_store.py:279-286 | Deletes all three keys of the session |
| RestoreSql.TableRoundTrip | database/_utils/gen_restore_sql.py:134-137 | If each column's non-null values share one type and each value fits the type it is taken for (no NaN or infinity, no integer beyond 64 bits, no text that only begins like a timestamp), every generated VALUES list lexes into exactly one token group per column and each group decodes to the cell's value |
| RestoreSql.StorableFits | database/_utils/gen_restore_sql.py:56-63 | A value fits the type it is taken for iff it is no integer beyond 64 bits, no NaN or infinity, no document with one, and no text that begins like a timestamp without being one |
| RestoreSql.FiniteFloatsAreNumerals | database/_utils/gen_restore_sql.py:87-90 | The texts Python prints for finite floats are numerals |
| RestoreSql.RowReadsBackIff | database/_utils/gen_restore_sql.py:134-137 | The exact condition for any columns: a row's VALUES list reads back iff every cell fits its column |
| RestoreSql.InferenceFindsSharedType | database/_utils/gen_restore_sql.py:66-73 | A column's shared type is found whatever nulls come first; without a value it is TEXT |
| RestoreSql.QuoteRoundTrip | database/_utils/gen_restore_sql.py:83-96 | A literal with doubled quotes reads back as its content for any quotes, commas and parentheses in it |
| RestoreSql.LiteralReadsBackIff | database/_utils/gen_restore_sql.py:83-96 | A value's literal in a column reads back iff it is null; or the column is JSONB and it has a JSON text; or it has the column's type and is within it: an integer of 64 bits, a finite float, a full ISO 8601 timestamp, a boolean, any string |
| RestoreSql.LiteralRoundTrip | database/_utils/gen_restore_sql.py:83-96 | Each fitting value's literal is one token group that decodes to it |
| RestoreSql.WideIntegerIsRefused | database/_utils/gen_restore_sql.py:89-90 | The literal of an integer beyond 64 bits stands for no value of the BIGINT column it goes to |
| RestoreSql.NoTimestampIsRefused | database/_utils/gen_restore_sql.py:93-94 | The literal of a text that is no full timestamp stands for no value of a TIMESTAMPTZ column |
| RestoreSql.TextBesideTimestamp | database/_utils/gen_restore_sql.py:66-73 | Any text next to one that begins like a timestamp makes for a TIMESTAMPTZ column |
| RestoreSql.PrefixIsNotEnough | database/_utils/gen_restore_sql.py:53-62 | A text inferred to be TIMESTAMPTZ need not be a timestamp |
| RestoreSql.NoNumeralIsLost | database/_utils/gen_restore_sql.py:87-88 | A float printed as a word that is no numeral never reads back from a double column |
| RestoreSql.NotANumber | database/_utils/gen_restore_sql.py:87-88 | NaN and the infinities are printed as such words |
| RestoreSql.ValuesRoundTrip | database/_utils/gen_restore_sql.py:134-137 | A joined list of fitting values splits back into them |
| RestoreSql.MixedColumnLosesValue | database/_utils/gen_restore_sql.py:83-88 | In a column of booleans and integers 5 becomes TRUE |
| RestoreSql.BooleanColumnPrints | database/_utils/gen_restore_sql.py:87-88 | A BOOLEAN column prints FALSE of zero and of what is empty, TRUE of everything else |
| RestoreSql.InferCols | database/_utils/gen_restore_sql.py:66-73 | The nested loops compute the inferred types; each column appears once, in order of first sight |
| RestoreSql.SeenGrows | database/_utils/gen_restore_sql.py:66-73 | Columns stay in order of first sight as rows are added |
| RestoreSql.JoinValues | database/_utils/gen_restore_sql.py:136 | The joined VALUES text of one row |
| RestoreSql.InsertValues | database/_utils/gen_restore_sql.py:134-137 | One VALUES text per row, over the inferred columns |
| InterruptMarker.ResumeRunsOnStandingPause | src/oneops/api/app.py:1797-1847 | In every interleaved run at both doors an answer that reads the marker runs on a paused thread iff that pause is the most recently recorded of its tenant and session, not cleared or expired since; with none standing the chat door falls back to the session id iff the last event of its key is a clearing, and otherwise both doors go on with the request id; the chat door clears the marker first iff it resumes |
| InterruptMarker.OrdinaryTurnIsItsOwn | src/oneops/api/app.py:2463-2478 | A turn without an answer runs on its own thread at both doors, whatever the marker says |
| InterruptMarker.FlowStaysOnItsThread | src/oneops/api/app.py:2463-2490 | While no other turn of the session pauses, every later pause is recorded on, and every answer that finds one runs on, the flow's thread |
| InterruptMarker.FlowStartsOnItsRequest | src/oneops/api/app.py:2603-2613 | The first pause of a flow is recorded on the first turn's request id |
| InterruptMarker.ThreadsStayHome | src/oneops/api/app.py:2460-2478 | Whatever a turn resumes was started in its own tenant and session |
| InterruptMarker.StepKeepsAgrees | src/oneops/api/app.py:1811-1842 | Every step keeps the marker in agreement with the history of pauses, clearings and expiries |
| InterruptMarker.SentinelResumesSessionThread | src/oneops/api/app.py:1814-1821 | The empty sentinel left by a resume sends a second answer to the thread named by the session id |
| InterruptMarker.Doors.RunTurn | src/oneops/api/app.py:2463-2490 | Served alone, a turn of the streaming door takes the marker's thread, or its request id, and records its own pause there |
| InterruptMarker.Doors.ChatTurn | src/oneops/api/app.py:1797-1874 | Served alone, an answer at the chat door overwrites the marker before it resumes and re-arms it on the same thread; without a marker it is an ordinary turn |

## Left out

- LLM calls, embedders, telemetry, metrics and logging; `embed`, `compute`, `fn` and the wrapped runs are arbitrary functions or nondeterministic steps.
- SHA-256 and canonical JSON are taken to be collision-free, and JSON encoding to be the identity on values.
- Floats: delays, clocks, ratios and cosines are reals; the square root is any function with the defining property of one.
- Connection failures of Dragonfly, so the acquire that fails open is not modelled; exclusion would not survive it.
- Cancellation of a client between acquire and release of the single-flight lock, other than as a crash.
- `Dragonfly`, `VectorTable` and `SessionStore` stand for the servers: one command, statement or script is one atomic step, and SQL isolation below a statement is not modelled.
- `Resilience.CircuitBreaker`: the per-key state object is a value in the map, so aliasing of the state object is not captured; each method is one step under the lock.
- `Retry.ResilientCall`: cancellation while an attempt is running is not modelled.
- KbIndexSync.AnchorConverges: says nothing about the anchor row of an article whose anchor text became blank, which the code leaves in place.
- AgentIndexSync.AgentIndexConverges: says nothing about agents without an active version or without chunks, whose rows the code leaves in place; the batch size of a read is not bounded.
- `EventStream`: `json.dumps` of a line and the timing fields of the events.
- Exceptions that stop the event loop, such as KeyboardInterrupt; a producer that ends with anything but an Exception counts as cancelled.
- `DragonflyDecisionCache`, JWT tokens, the constructor checks of `Principal` and `ResourceDescriptor`, and the role registry file.
- `ItsmGenerator.Dataset.Generate`: fields that `validate` does not look at and the table of assets, to which nothing validated refers.
- Non-ASCII digits in ids and timestamps: `isdigit` and `\d` are limited to 0-9.
- `is_standalone` of the semantic cache, and stored entries that are not valid JSON; the push, trim and expire of one put are one step.
- `SessionStore.SessionStore.Increment`: a text counter is read as a number only when it is plain decimal digits; other numerals Lua accepts count as 0.
- Expiry of session keys: runs are on unexpired keys.
- The CREATE TABLE text and primary keys of the restore script, Python's printed text of lists and dicts in a column that is not JSONB, the conversion PostgreSQL applies to the text of a timestamp, and NUL characters and lone surrogates.
- RestoreSql.LiteralReadsBackIff: of the spellings of a timestamp PostgreSQL takes only the ISO 8601 form with 24 hours, 60 seconds and numeric zones counts as readable; "now", 24:00:00 or a named zone do not read back as the same text.
- The interrupt protocol over NATS, a turn cache that is absent or fails, the edge cache that may answer a request before the resume path, and empty request ids.
- Markers are keyed by the pair (tenant, session); the concatenated key of the Dragonfly turn cache is not modelled.
