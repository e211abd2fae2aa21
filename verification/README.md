# A verified model of GopherLLM's protocols and algorithms

Around its inference engine GopherLLM has a set of protocols and algorithms
with hard invariants. This project models those, in the form the code has
them, and proves what they are for. Go methods and closures that change state
are classes and loops here; code that runs concurrently is a transition system
with one program counter per thread and one step per lock or channel
operation. Every theorem is about all inputs, all runs or all reachable states.

- **Live transcription sessions** (`RealtimeSessions`, `RealtimeSafety`,
  `RealtimeEnds`, `RealtimeTheorems`, `RealtimeRaces`): create, push, delete, timer expiry and shutdown over the
  session map, the session mutexes, the `closed` flag, the inference semaphore
  and the one-slot channel. The token in the channel always has exactly one
  owner; from that follow the accounting of tokens, at most one open
  transcriber, no push after close, no blocked receive, progress and the end
  of every run.
- **Engine locks** (`EngineLocks`, `EngineSafety`, `EngineTheorems`, `EngineWaits`): `gen`,
  `life` and `mu` around load, generate, count, cancel, unload and close, with
  Go's writer-preferring read-write mutex. The comment at mobile/engine.go:25-26
  says that Unload and Close cancel in-flight work first; the code cancels only
  the request that had stored its cancel function when it looked.
  `EngineTheorems.ReleaseMayMissARequest` is a run in which it misses one, and
  `EngineWaits.ReleaseCancelsExactly` says which one it cancels. The same comment
  promises arrival order; a Go mutex does not, and `EngineWaits.MayOvertake` is a run
  without it.
- **Tool-call contract** (`ToolMessages`, `ToolOrder`, `ToolLoss`, `Lists`): the
  pass that accepts a conversation and the pass that puts tool results into call
  order. POST /generate reorders without that first pass; `ToolLoss` says exactly
  when a result is then lost.
- **Resumable shard conversion** (`ShardLayout`, `ShardRanges`, `ShardTarget`,
  `ShardImport`): the aligned layout, the prefetched ranges, the reader that
  splits them, piecewise quantization, and resuming a partial file. A file has
  a byte budget after which the run is interrupted, so an interruption can
  happen inside any write. Nothing is assumed of the partial file:
  `ResumeExact` says for every file when resuming reaches the target.
- **Chunker** (`Utf8`, `RagTypes`, `ChunkSplitters`, `ChunkRules`, `Chunker`,
  `ChunkUnique`): the paragraph, sentence, word and rune cascade with greedy
  packing and overlap, for any length function that is positive on non-empty
  text. `ChunkRules` says without loops which pieces share a window, where the
  next window starts and when the last two are merged; `ChunkUnique` shows that
  these rules leave one chunking of each text.
- **Hybrid index** (`Tokenizer`, `Bm25`, `Bm25Index`, `Bm25Scores`, `Bm25Weights`,
  `ChunkKeys`, `RagContent`, `RagIndex`, `RagPersist`, `RagRanking`, `RagSearch`,
  `RagBlend`, `RagFreshness`, `RagSnapshots`): the incrementally maintained index against the
  state its surviving documents determine, BM25 scoring against the direct sum,
  search, snapshots, and saving while requests change the index. The documented
  bar against chunks that pass on freshness alone (rag/index.go:143-147) holds for
  kind factors up to 1 and can fail above 1; below 1 a chunk can be dropped for
  being fresh. `RagFreshness` has the exact conditions, for a chunk and for a
  configuration, and examples. Also against the comments there: MinVector zero
  does not disable the filter for negative similarities, an identifier in front
  of a full stop is not indexed as a whole (rag/bm25.go:8-16), and after a
  seeded start the snapshot stays behind the index until the first change.
- **Request-scoped recall** (`ChatHistory`, `ChatTurns`, `ChatMemory`,
  `ChatSearch`): a session over an abstract prompt planner, the backwards scan over turns, and the
  length-prefixed fingerprint.
- **Numeric transformations over exact reals** (`Reals`, `SwiGlu`, `Embedder`,
  `EmbedderGate`, `Resampler`): the chunked and scaled SwiGLU graph, the
  fixed-batch embedder with the gate its calls queue at, and the streaming
  resampler.

What the code calls but does not contain is a parameter: the prompt planner,
the embedding model and predictor, the tokenizers, the source file behind HTTP
ranges, cancellation, the clock, `exp`, `ln` and `sqrt`. Each is constrained
only by what the code relies on, in a named predicate (`GoodPlanner`,
`RowWise`, `Logarithm`, `GoodCodec` and so on).

`dafny verify dfyconfig.toml` checks the whole project.

## Model

| member | source | states |
|---|---|---|
| RealtimeSafety.StepKeeps | server/audio_routes.go:428-653 | every step of every thread keeps the whole invariant: mutex and lock holders, semaphore slots, one owner of the token, one owner of every open transcriber |
| RealtimeSafety.ReachableInv | server/audio_routes.go:428-653 | the invariant holds after any interleaving of arrivals, timers, shutdowns and steps |
| RealtimeTheorems.TokenAccounting | server/audio_routes.go:434-652 | the tokens in `active` equal those of creations in flight, registered sessions, and detached sessions not yet drained, and are at most one |
| RealtimeTheorems.ReceiveNeverBlocks | server/audio_routes.go:446-454 | whoever is about to receive from `active` finds a token there, so the receive cannot block, not even under the session mutex |
| RealtimeTheorems.AtMostOneOpen | server/audio_routes.go:511-558 | at most one transcriber is open at any time and none is closed twice |
| RealtimeTheorems.PushIsSafe | server/audio_routes.go:604-626 | a transcriber being pushed to is open, locked by the pusher alone, and no other thread closes it or pushes to it |
| RealtimeTheorems.ExpirySparesBusy | server/audio_routes.go:462-481 | a timer takes a session out of the registry only while no push has marked it busy |
| RealtimeRaces.CaughtExact | server/audio_routes.go:604-612 | a timer detaches a session under a push that has passed its closed test if and only if that push holds the session's mutex and still waits to mark it busy |
| RealtimeRaces.CaughtStaysOpen | server/audio_routes.go:445-455 | such a push loses its context, not its transcriber: that stays open and locked by the push alone |
| RealtimeRaces.ExpiryMayCatchAPush | server/audio_routes.go:462-481 | a reachable state in which a timer is about to detach a session under such a push |
| RealtimeTheorems.ClosedHasRemover | server/audio_routes.go:620-629 | in every reachable state a registered session that is closed has a push that ended it, or a DELETE, still on its way to remove it |
| RealtimeTheorems.FinalPushEnds | server/audio_routes.go:617-629 | over every run from a push that came back final or failed: the session takes no other push, and once the request has returned it is not registered |
| RealtimeTheorems.FinalStaysFinal | server/audio_routes.go:582-619 | a request with final=1 reaches the transcriber with its own ID and flag |
| RealtimeTheorems.DeleteEnds | server/audio_routes.go:456-461 | over every run, a DELETE that has returned has taken the session it found out of the registry |
| RealtimeRaces.WholeSession | server/audio_routes.go:486-629 | a run from creation to a final push after which the registry is empty, the transcriber closed once, and token and slot free |
| RealtimeTheorems.ClosedForGood | server/audio_routes.go:547-553 | after shutdown has swept, the service stays closed and the registry stays empty in every later state |
| RealtimeTheorems.NothingLeaks | server/audio_routes.go:520-557 | once all threads are done no lock, slot or token is left over, no registered session is closed, and after shutdown every transcriber was closed exactly once |
| RealtimeTheorems.Progress | server/audio_routes.go:428-653 | no deadlock: while a thread is unfinished some thread can move |
| RealtimeTheorems.RunsEnd | server/audio_routes.go:428-653 | without new arrivals every run is finite, bounded by a rank of its first state |
| EngineSafety.StepKeeps | mobile/engine.go:30-239 | every step keeps the invariant of the three locks, the open models, `e.cancel` and every thread's view |
| EngineSafety.ReachableInv | mobile/engine.go:30-239 | the invariant holds in every reachable state |
| EngineTheorems.UserHoldsOpenModel | mobile/engine.go:196-225 | a thread using a model holds `life` shared, that model is the loaded one, open, and nobody is closing or swapping it |
| EngineTheorems.CloseIsExclusive | mobile/engine.go:103-118 | a model being closed is used by no thread, and no reader holds `life` |
| EngineTheorems.QuerySeesOpenModel | mobile/engine.go:120-146 | a status query that sees a model sees an unclosed one |
| EngineTheorems.ClosedAtMostOnce | mobile/engine.go:71-118 | every opened model is closed at most once, and is unclosed exactly while it is loaded or carried by a thread |
| EngineTheorems.OneGeneration | mobile/engine.go:201-218 | at most one generation runs, and a stored cancel function belongs to the holder of `gen` |
| EngineWaits.ReleaseCancelsExactly | mobile/engine.go:103-106 | over every run from the moment a release reads `e.cancel`: while it waits for the model it has cancelled the generation that had stored its cancel function at that moment, and no other |
| EngineTheorems.ReleaseMayMissARequest | mobile/engine.go:22-28 | a reachable state in which Unload waits for a generation it did not cancel, against the comment |
| EngineWaits.BriefNeedsOnlyMu | mobile/engine.go:27-29 | status queries and Cancel never wait for a generation: they need only `mu`, whose holder is in no generation and leaves it with its next step |
| EngineWaits.CountWaitsExactly | mobile/engine.go:162-170 | beside a running generation CountTokens waits if and only if a Load, Unload or Close has announced itself, and then as long as the generation streams |
| EngineWaits.CountMayWait | mobile/engine.go:27-29 | a reachable state in which CountTokens does not run alongside a generation, against the comment |
| EngineWaits.AnyQueuedMayEnter | mobile/engine.go:194-201 | of two queued generations the later one can enter whenever `gen` is free, and then the earlier one is still queued |
| EngineWaits.MayOvertake | mobile/engine.go:26-27 | a reachable state in which a generation has `gen` while an earlier one is queued, against the comment |
| EngineTheorems.ClosedForGood | mobile/engine.go:97-118 | once closed, an engine stays closed and never has a model again |
| EngineTheorems.ReleaseUnloads | mobile/engine.go:103-118 | when Unload or Close takes its last step, which returns, no model is loaded, and after Close the engine is closed |
| EngineTheorems.NothingLeaks | mobile/engine.go:57-58 | once all calls are done no lock or cancel function is left, and every opened model but the loaded one is closed once |
| EngineTheorems.Progress | mobile/engine.go:196-239 | the order gen, life, mu rules out deadlock: while a call is unfinished some call can move |
| EngineTheorems.RunsEnd | mobile/engine.go:46-239 | without new calls every run is finite |
| ToolMessages.ValidateMessages | server/openai_contract.go:174-241 | accepts exactly the conversations that keep the discipline: unique call IDs, each n-call message directly followed by its n results in any order, no contradicting name, no stray result |
| ToolMessages.PlainExact | server/openai_contract.go:178-240 | what each message must satisfy by itself: its role, its content, and the calls only an assistant may make |
| ToolMessages.AcceptedStep | server/openai_contract.go:178-236 | on a disciplined conversation no message is rejected |
| ToolMessages.ScanStep | server/openai_contract.go:178-236 | a message that passes keeps the meaning of `pending`, `names` and `seen` |
| ToolMessages.CheckCalls | server/openai_contract.go:227-235 | the call loop passes exactly well-formed lists of new, distinct IDs, and then adds all of them |
| ToolOrder.AcceptedOrder | server/openai_requests.go:49-100 | on an accepted conversation the result is a permutation that moves only tool results, the j-th result of every block carries the j-th call's ID and function name, and reordering again changes nothing |
| ToolOrder.ApiMessages | server/openai_requests.go:49-100 | the two loops over the slice compute the converted messages, reordered block by block |
| ToolOrder.ReorderInPlace | server/openai_requests.go:75-97 | one pass of the second loop permutes a complete block in place and leaves an incomplete one alone |
| ToolOrder.ReorderKeeps | server/openai_requests.go:75-98 | reordering keeps every block, loses no message and leaves all blocks in call order |
| ToolOrder.RoleTable | server/openai_requests.go:59-70 | in any case of letters, two role names give system, three give tool, one gives assistant, and every other gives user |
| ToolOrder.ConversionKeeps | server/openai_requests.go:51-72 | conversion changes only the role, by that table, and the name of a tool result without one, which becomes that of the last call with its ID so far |
| ToolLoss.PassExact | server/openai_requests.go:75-97 | on any messages, one pass loses nothing if and only if the block it moves consists of tool results that answer each call once, or a repeated ID the same way every time |
| ToolLoss.EachPassExact | server/openai_requests.go:75-97 | for a whole conversation whose tool results carry no calls, repeated results allowed: no pass of the second loop loses a message if and only if every block fits |
| ToolLoss.FittingLosesNothing | server/openai_requests.go:49-100 | where every block fits, converting and reordering the conversation loses nothing, repeated results allowed |
| ToolLoss.LossExact | server/openai_requests.go:49-100 | where the results are different too, it loses nothing only there |
| ToolLoss.LossesMayCancel | server/openai_requests.go:75-97 | with equal results that fails: two passes that each lose a result can make up for one another |
| ToolLoss.RepeatedIdLosesAResult | server/openai_requests.go:33-38 | API items, each valid by itself and let through by POST /generate, of which a result is lost: two calls with one ID keep only the last answer |
| ShardLayout.MakePlan | scripts/download_qwen_image21.py:279-304 | fails exactly when a wanted tensor is faulty, with the first such tensor's error, and otherwise plans every wanted tensor in order |
| ShardLayout.PlanDisjoint | scripts/download_qwen_image21.py:300-304 | planned tensors are 32-byte aligned, do not overlap, and leave gaps under 32 bytes |
| ShardLayout.WholeBlocks | scripts/download_qwen_image21.py:300-301 | a quantized tensor is a whole number of 32-element blocks, and its planned size is 34 bytes for each |
| ShardLayout.SizeExact | scripts/download_qwen_image21.py:300-301 | a tensor takes 34 bytes for every 32 elements if and only if it is no part of the VAE and has two dimensions, the last a multiple of 32; otherwise it takes the bytes it has |
| ShardLayout.TensorSpans | scripts/download_qwen_image21.py:165-174 | the spans concatenate to the plan, each is contiguous in the source, and neighbours are not |
| ShardRanges.RangeChunks.Next | scripts/download_qwen_image21.py:149-162 | yields exactly the next source bytes of the span, in order, with at most `workers` ranges pending |
| ShardRanges.RangeReader.Read | scripts/download_qwen_image21.py:184-199 | returns exactly the next `count` source bytes however the ranges are cut, keeping at most one range; it fails only when a request fails or the source ends |
| ShardTarget.Q8Split | scripts/download_qwen_image21.py:114-137 | quantizing piecewise at block boundaries concatenates to quantizing the whole |
| ShardTarget.Q8Size | scripts/download_qwen_image21.py:134-137 | quantized output has 34 bytes for every block |
| ShardTarget.BodySize | scripts/download_qwen_image21.py:342-343 | a converted tensor always has its planned size |
| ShardTarget.TargetHolds | scripts/download_qwen_image21.py:326-344 | in the complete file every tensor's converted bytes sit at the planned offset behind the header |
| ShardTarget.TargetSpelled | scripts/download_qwen_image21.py:300-301 | by component, shape and source bytes: of the VAE, and of tensors that are not matrices with rows of whole blocks, the file holds the source's own bytes; of all others, block by block, the encoding of 32 source elements in 34 bytes |
| ShardImport.HeaderAligned | scripts/download_qwen_image21.py:224 | padding the header makes the planned offsets aligned in the file itself |
| ShardImport.CountComplete | scripts/download_qwen_image21.py:237-242 | counts the leading tensors that the file holds completely |
| ShardImport.CheckedResume | scripts/download_qwen_image21.py:228-250 | rejects a foreign or oversized file untouched; otherwise cuts it to header and whole tensors, with a digest of exactly those bytes |
| ShardImport.CopyData | scripts/download_qwen_image21.py:335-341 | the pieces of a tensor add exactly its converted bytes to file and digest, an interruption leaves a prefix of them, and without failing requests and with room for them it completes |
| ShardImport.CopyItem | scripts/download_qwen_image21.py:331-344 | one tensor adds its padding and its converted bytes, and completes when nothing fails and they fit; the size test never fires |
| ShardImport.CopyRest | scripts/download_qwen_image21.py:326-344 | all remaining tensors are written in order behind the kept bytes, or a prefix of that; all of them when they convert, nothing fails and they fit |
| ShardImport.Import | scripts/download_qwen_image21.py:313-344 | without failing requests a run completes if and only if the file is resumable, the rest converts, space and workers are accepted and no interruption comes first; then it leaves the kept bytes, the remaining tensors and a digest of exactly the file; however it ends, a prefix of the target stays one |
| ShardImport.ResumeExact | scripts/download_qwen_image21.py:228-250 | for any file: resuming reaches the target if and only if the header and whole tensors it kept are those of the target |
| ShardImport.PrefixResumable | scripts/download_qwen_image21.py:228-236 | a prefix of the target is never rejected |
| ShardImport.Converge | scripts/download_qwen_image21.py:228-344 | over any series of interruptions the attempt that completes leaves exactly the bytes of one uninterrupted conversion, digested exactly once; an attempt with enough room and no failing request completes |
| Utf8.RuneOffsets | rag/chunk.go:211-222 | the rune boundaries of a byte string, invalid bytes counting as one rune each |
| ChunkSplitters.TrimSpan | rag/chunk.go:388-396 | trims only bytes the code classes as space |
| ChunkSplitters.SplitParagraphs | rag/chunk.go:304-331 | trimmed paragraphs with no blank line inside any and a blank line between any two neighbours, which hold every byte other than space |
| ChunkSplitters.SplitSentences | rag/chunk.go:339-363 | sentences that partition the paragraph, a new one beginning exactly behind an ender and the spaces after it |
| ChunkSplitters.SplitWhitespace | rag/chunk.go:365-384 | exactly the longest runs without space, in order |
| ChunkSplitters.HardCut | rag/chunk.go:211-245 | pieces that partition the span at rune boundaries, each as long as the budget allows, a rune over budget alone |
| ChunkSplitters.SplitOversizedPiece | rag/chunk.go:191-205 | the words of the piece, whole where they fit and cut otherwise; a piece without words is cut; no byte other than space is lost |
| ChunkSplitters.Separators | rag/chunk.go:344-386 | the bytes that end sentences and those that part words; the latter are spaces to the trimming as well |
| ChunkSplitters.Limits | rag/chunk.go:40-71 | the default sizes, and the overlap as configured or half a window where it is more |
| Chunker.SubShorter | rag/chunk.go:127-185 | every piece of a piece that splits is strictly shorter, so the recursion ends |
| Chunker.OverlapPoint | rag/chunk.go:253-271 | the overlap starts at the earliest word of the window from which every word starts a tail within the overlap budget |
| Chunker.PackOne | rag/chunk.go:147-182 | one piece joins the open window if it fits behind it; otherwise that window had no room, and the next starts with its tail where that fits, else with the piece; budget, order, overlap bound and coverage are kept |
| Chunker.PackPieces | rag/chunk.go:127-185 | for any positive length function it terminates, and its windows are within the budget, rising, overlapping by at most the effective overlap, and cover all pieces; the windows are those of the packing rules: greedy, with the overlap, and fresh behind a piece over budget |
| Chunker.MergeShortTrailing | rag/chunk.go:284-300 | merges the last window backwards if and only if it is below the minimum and the union is within the budget, and keeps budget, order and coverage |
| Chunker.Split | rag/chunk.go:90-106 | chunks are numbered slices of the text with rising starts and ends, each within the budget or one rune, and always within it in rune counting; neighbours share at most the overlap, and no byte other than space is lost; they are the chunking that the rules describe, a paragraph that fits being one window |
| ChunkUnique.ChunkingUnique | rag/chunk.go:81-106 | chunking is deterministic: the rules of splitting, packing, overlapping and merging leave one list of windows for each text |
| Tokenizer.Tokenize | rag/bm25.go:21-56 | the terms are those of the maximal word runs in order, each run once, followed by its joined span when it has one |
| Tokenizer.JoinedExact | rag/bm25.go:41-53 | a run gets a joined term if and only if the stretch of joiners and word runes behind it ends in a word rune, and then the joined term is all of that stretch |
| Tokenizer.Joiners | rag/bm25.go:25 | the joiners are hyphen, underscore, full stop and slash |
| Tokenizer.FullStopHidesIdentifier | rag/bm25.go:8-16 | "gx-1180" is a term of "gx-1180" but not of "gx-1180.", against the comment |
| Tokenizer.RunsUnique | rag/bm25.go:28-37 | a text has one list of maximal runs |
| Bm25.DescribesUnique | rag/bm25.go:68-80 | a corpus determines every statistic of its index |
| Bm25.DfBounds | rag/bm25.go:177-181 | for a listed term 0 < df = number of postings <= number of chunks, and its chunks have positive length |
| Bm25.AddFresh | rag/bm25.go:101-122 | adding under a new key gives the statistics of the larger corpus |
| Bm25.AddReplaces | rag/bm25.go:101-122 | `add` alone replaces a chunk correctly if and only if the key is new or its chunk was empty |
| Bm25.RemoveAny | rag/bm25.go:129-147 | removing a key gives the statistics of the corpus without it, with no term left empty |
| Bm25.RemoveUndoesAdd | rag/bm25.go:101-147 | removing what was added restores every statistic |
| Bm25Index.Index.Add | rag/bm25.go:101-122 | the two loops make exactly the specified change to postings, df, length and total |
| Bm25Index.Index.Remove | rag/bm25.go:129-147 | the loop over all postings makes exactly the specified change |
| Bm25Index.KeptCounts | rag/bm25.go:104-110 | a chunk keeps all occurrences of every term that is no stopword and none of any stopword |
| Bm25Scores.Scores | rag/bm25.go:152-194 | the keys are exactly the chunks that contain some or all distinct query terms that are no stopwords, each with the BM25 sum read off the corpus, and every score is positive |
| Bm25Scores.ScoreOrder | rag/bm25.go:172-185 | the order of the query's terms does not change a score |
| Bm25Weights.ContributionSpelled | rag/bm25.go:172-202 | one matched term adds ln((N + 1) / (df + 1/2)) * 22 f / (10 f + 3 + 9 dl / avgdl), with all five numbers counted in the corpus |
| Bm25Weights.OftenRaises | rag/bm25.go:177-185 | more occurrences in a chunk of the same length score strictly higher |
| Bm25Weights.LengthLowers | rag/bm25.go:177-185 | as many occurrences in a longer chunk score strictly lower |
| Bm25Weights.RareRaises | rag/bm25.go:196-202 | for a strictly rising logarithm the rarer of two terms scores strictly higher, other things equal |
| Bm25Scores.TermScorePositive | rag/bm25.go:177-202 | every denominator and every term's contribution is positive, also for a term in most chunks |
| ChunkKeys.ChunkKeyInjective | rag/index.go:245-247 | different chunks have different keys, even when document IDs contain NUL |
| RagContent.DropTable | rag/index.go:302-308 | deleting a document's keys leaves exactly the chunk table of the others |
| RagContent.DropOrder | rag/index.go:330-345 | filtering a document's keys leaves exactly the order of the others |
| RagIndex.RemoveAll | rag/index.go:330-345 | keeps the other keys in their order |
| RagIndex.Index.AddDocument | rag/index.go:300-326 | adding or re-adding a document moves it to the end and leaves all fields those of the new content |
| RagIndex.Index.Add | rag/index.go:254-328 | a failed Add changes nothing; a successful one leaves the fields those of the old content with the batch applied in order, also with one ID repeated in it |
| RagIndex.PlanVectors | rag/index.go:266-323 | every chunk gets its own vector of the one flat embedding answer |
| RagIndex.Index.Remove | rag/index.go:403-421 | leaves the fields those of the surviving documents and counts those that were present |
| RagIndex.HoldsUnique | rag/index.go:219-233 | the content determines every field of the index |
| RagIndex.RunIsRebuild | rag/index.go:254-421 | after any run of Add, re-Add and Remove an index agrees in every field with one rebuilt from the surviving documents in last-added order |
| RagIndex.ReAddMoves | rag/index.go:302-308 | re-adding a document is idempotent |
| RagPersist.Save | rag/persist.go:44-63 | the snapshot lists every document once and the chunks in order |
| RagPersist.Load | rag/persist.go:72-109 | loads the fields the snapshot spells out or reports the first fault, and the statistics are right when no chunk is saved twice |
| RagPersist.SaveLoads | rag/persist.go:44-109 | a snapshot of a sound index loads into exactly the saved documents, chunks and order, whatever order the documents were written in |
| RagPersist.RoundTrip | rag/persist.go:44-109 | saving and loading under the same options gives a separate index equal in every field and statistic |
| RagRanking.Sort | rag/index.go:522-531 | a strict order by score descending, document ID, chunk index, of exactly the candidates |
| RagRanking.RankedUnique | rag/index.go:522-531 | the ranking of a set of chunks is unique |
| RagRanking.RankedMeans | rag/index.go:522-531 | scores never rise along the ranking, and equal scores stand in the order of document IDs, then of chunks |
| RagRanking.LessExact | rag/index.go:527 | document IDs are ordered as strings: by the first place they differ in, or the shorter first |
| RagRanking.Select | rag/index.go:533-559 | within TopK, the per-document cap and the document cap; a candidate is taken exactly when the better ones that were taken leave room |
| RagRanking.GreedyUnique | rag/index.go:533-559 | that rule has one outcome |
| RagFreshness.FreshnessDecides | rag/index.go:501-517 | for any chunk that matches no keyword: it passes on freshness alone if and only if the bar lies above its score without recency and not above that plus what the kind factor leaves of recency; it is dropped for its freshness if and only if the bar lies between the two the other way round |
| RagFreshness.FactorDecides | rag/index.go:143-147 | with kind factors up to 1 no chunk passes on freshness alone, with factors from 1 none is dropped for it |
| RagFreshness.NothingButRecency | rag/index.go:501-517 | without an embedder a chunk that matches nothing passes if and only if that rest of recency alone reaches the bar |
| RagFreshness.BarExact | rag/index.go:143-147 | a configuration keeps the documented promise for every chunk if and only if no configured kind has a factor above 1 whose full recency lifts a score over the bar |
| RagFreshness.FreshnessAlonePasses | rag/index.go:143-147 | a candidate of the search, under default weights and the default bar, that matches nothing and would not pass if it were not fresh |
| RagFreshness.FreshnessDrops | rag/index.go:143-147 | a chunk that is no candidate only because it is fresh |
| RagFreshness.MinVectorZeroFilters | rag/index.go:149-153 | MinVector zero drops a chunk that the unfiltered search passes if and only if there is an embedder, no keyword match, a negative similarity, an accepting filter, and a score without recency that reaches the bar together with what the kind factor leaves of recency; it never does anything else |
| RagFreshness.ZeroExact | rag/index.go:149-153 | a configuration keeps the promise that zero disables the filter, for every chunk without keyword match, if and only if it has no embedder or no configured kind lets a negative similarity reach the bar |
| RagFreshness.MinVectorZeroDrops | rag/index.go:489-491 | such a chunk, against the comment that zero disables the filter |
| RagSearch.CandidateKeys | rag/index.go:477-520 | the candidates are exactly the chunks that pass, each once |
| RagBlend.WeightsShared | rag/index.go:465-474 | the weights are the configured ones or 0.7, 0.2 and 0.1; without an embedder keyword and recency share the whole weight in the same proportion |
| RagBlend.EvaluateSpelled | rag/index.go:477-520 | for every chunk, matched or not: it is a candidate if and only if the filters let it through and its score reaches the bar, and it is ranked by that score, the factor of its kind times the three weighted shares |
| RagBlend.KeywordRaises | rag/index.go:501-517 | of two chunks alike but for the keyword score, the better match is a candidate if the other is, and ranks no lower |
| RagBlend.BestMatchRanked | rag/index.go:463-517 | with no embedder and nothing configured, the best keyword match is in the ranking of every search, at two thirds or more |
| RagBlend.QueryDefaults | rag/index.go:174-193 | what a query asks for that leaves its numbers at zero |
| RagSearch.WidenHolds | rag/index.go:566-583 | widening slices inside the document and yields one contiguous stretch of exactly the hit and its neighbours |
| RagSearch.Search | rag/index.go:435-561 | the hits are the greedy choice, within the caps, from the strict ranking of exactly the chunks that pass, with BM25 scores of the index's own corpus |
| RagSnapshots.StepKeeps | server/rag_state.go:138-183 | every step keeps the invariant and never moves the file backwards |
| RagSnapshots.InSyncExact | server/rag_state.go:111-183 | at any moment, whatever failed: the file equals the index in memory if and only if a request has written the present state, or nothing has changed since a startup that restored the file and seeded nothing |
| RagSnapshots.QuietExact | server/rag_routes.go:104-108 | with every request finished and no save failed, the file equals the index if and only if some changing request has saved, or startup restored the file and seeded nothing |
| RagSnapshots.LatestSaved | server/rag_state.go:138-147 | the save of the latest change brings the file up to date, whatever failed before |
| RagSnapshots.SeedingIsUnsaved | server/server.go:276-287 | a seeded start leaves the file behind the index with nothing failed and nothing in flight |
| RagSnapshots.SavedStays | server/rag_state.go:138-147 | a request whose save succeeded has its change in the file from then on, even when other saves fail |
| RagSnapshots.NeverBackwards | server/rag_state.go:138-183 | the file is the one found at startup or a state the index has had since, and never an older one than before |
| RagSnapshots.LockIsNeeded | server/rag_state.go:142-143 | without saveMu an older state can end up in the file with every save successful |
| ChatHistory.EncodeInjective | chatmemory/session.go:287-334 | the length-prefixed encoding that is hashed is the same only for the same history |
| ChatTurns.Check | chatmemory/session.go:375-384 | the incremental size and shape test passes exactly plain turns within MaxTurnBytes |
| ChatTurns.Scan | chatmemory/session.go:349-411 | the scan walks the turns back from the boundary without gaps until no user message is left or the index is full, and records exactly the eligible ones that fit |
| ChatTurns.ChainApart | chatmemory/session.go:358-371 | scanned turns share no message and no number, and end at or before the boundary |
| ChatTurns.ChainWhole | chatmemory/session.go:358-371 | scanned turns are whole: each ends where the next user message begins |
| ChatTurns.IndexedWithin | chatmemory/session.go:358-387 | the index stays within MaxIndexedTurns and MaxIndexBytes |
| ChatTurns.IndexedEligible | chatmemory/session.go:372-387 | every indexed turn is one user message followed by plain assistant messages within MaxTurnBytes |
| ChatTurns.ScanIds | chatmemory/session.go:349-411 | the indexed turns share no message and their records have different IDs, whatever the hashes |
| ChatMemory.Resolve | chatmemory/session.go:77-95 | limits outside their ceilings are refused, zero limits take their defaults, and all others stay as they are |
| ChatMemory.BoundedQuery | chatmemory/session.go:271-280 | a prefix of at most 8192 bytes that ends before a rune start |
| ChatMemory.Session.CheckHistory | chatmemory/session.go:136-152 | passes only extensions of the fingerprinted history by assistant and tool messages, and refuses only others |
| ChatMemory.Session.Search | chatmemory/session.go:336-429 | the candidates are the hits for the configured query or the start of the last user message, best first, among the records of the scanned turns, none twice, at most 32 |
| ChatSearch.SearchIsGood | chatmemory/session.go:415-428 | what recall assumes of its search holds of the index: at most 32 hits, of different documents, each of them indexed, scores descending |
| ChatMemory.InjectLast | chatmemory/session.go:251-269 | injection changes only the content of the last user message |
| ChatMemory.BoundaryExact | chatmemory/session.go:243-249 | exactly the retained messages that are no leading system messages lie at or behind the boundary |
| ChatMemory.BudgetLargest | chatmemory/session.go:179 | the budget is the largest within MaxTokens and an eighth of PromptBudget |
| ChatMemory.Session.Prepare | chatmemory/session.go:126-241 | history and candidates are frozen by the first success; later calls succeed only on continuations; the result is a recall of at most MaxTurns whole turns before the boundary, within PromptBudget and min(MaxTokens, PromptBudget/8), that alters only the last user message and leaves out no candidate that would have fitted, or the planner's own prompt where there is nothing to recall, no reserve, or nothing that fits; each of these reasons and sizes is an answer the planner gave to a call of this same Prepare |
| SwiGlu.StableSiluScales | scripts/export_coreml_ffn.py:132-142 | for both signs the stable form of s*g is s times silu(g) |
| SwiGlu.ExponentBounded | scripts/export_coreml_ffn.py:135-139 | the exponential it takes is in (0, 1] |
| SwiGlu.ScaleInPlace | scripts/export_coreml_ffn.py:163-166 | scaling in batches of 128 rows scales every row once |
| SwiGlu.ExactSplit | scripts/export_coreml_ffn.py:177-183 | partial down projections add up to the full one |
| SwiGlu.Program | scripts/export_coreml_ffn.py:145-189 | for every positive scale and every hidden chunk size the graph computes exactly down * (silu(gate * x) . (up * x)) |
| Embedder.Embedder.EmbedBatch | coreml/embedding.go:172-247 | exactly the per-text normalized vectors in input order with their token counts, in pairwise disjoint fresh storage, if and only if the embedder is open, none of the polls taken sees a cancellation, every text passes its token tests, the model answers every batch and no vector is zero; else the error of the first batch that fails, by its first fault |
| Embedder.ErrorUnique | coreml/embedding.go:188-236 | a request that can succeed has no error and one that fails has a single one |
| Embedder.UnhinderedSucceeds | coreml/embedding.go:172-247 | with sound texts, a model that answers and no cancellation every request succeeds |
| Embedder.UnitNorm | coreml/embedding.go:222-242 | every returned vector has norm one |
| Embedder.Embedder.Close | coreml/embedding.go:251-265 | closes the model once, however often it is called, and gives the gate back |
| EmbedderGate.PredictsAlone | coreml/embedding.go:142-162 | while a request is at its batches no other call is past the gate and the model is open |
| EmbedderGate.CloseReturns | coreml/embedding.go:249-265 | once any Close has returned the model was closed exactly once and no request is predicting, also when another Close was first |
| EmbedderGate.ClosesAlone | coreml/embedding.go:252-265 | from its test of `closed` to the end of the model's own Close, a Close is alone past the gate |
| EmbedderGate.LateCallsFail | coreml/embedding.go:155-158 | over every run after closing, a request that had not passed its test by then never predicts and never gives a result |
| EmbedderGate.NothingLeaks | coreml/embedding.go:142-265 | with all calls returned the token is back and the model is closed exactly when the embedder is |
| EmbedderGate.Progress | coreml/embedding.go:142-162 | no deadlock, and giving the token back never blocks |
| EmbedderGate.RunsEnd | coreml/embedding.go:142-265 | without new calls every run is finite |
| Resampler.RunSplit | voiceweb/audio-worklet.js:24-52 | splitting a run of frames anywhere gives the same state and posts |
| Resampler.GroupingIrrelevant | voiceweb/audio-worklet.js:24-52 | the emitted blocks and levels do not depend on how frames are grouped into calls |
| Resampler.RateHolds | voiceweb/audio-worklet.js:32-49 | after N frames and n samples, n*(R-1e-8) <= N and N*(1-1e-8) < (n+1)*R - 1e-8 |
| Resampler.SamplesAreMeans | voiceweb/audio-worklet.js:32-47 | every sample is the mean of its window: the windows cut the input into consecutive pieces that leave out at most 1e-8 of a frame, each weighs the ratio up to 1e-8, and the full blocks and the open one hold the 16-bit samples of exactly these windows, in order |
| Resampler.QuantizeNearest | voiceweb/audio-worklet.js:42 | the 16-bit value is the nearest to 32767 times a sample from zero up, and to 32768 times one below |
| Resampler.LevelsArePeaks | voiceweb/audio-worklet.js:34-41 | the samples fall into groups of 800, and the level posts are, in order, the largest magnitudes of these groups |
| Resampler.ClampNearest | voiceweb/audio-worklet.js:33 | no value within the range of a sample is nearer to the mean than the one taken |
| Resampler.ConstantInput | voiceweb/audio-worklet.js:32-42 | a constant input gives that constant in every sample, up to a share of 1e-8 in the ratio |
| Resampler.Processor.Process | voiceweb/audio-worklet.js:24-52 | one call advances state and posts exactly as the frame-by-frame specification, and does nothing once stopped |
| Resampler.Processor.PushFrame | voiceweb/audio-worklet.js:31-50 | the inner loop ends for every ratio above 1e-8 and leaves state and posts as specified for one frame |
| Resampler.Processor.Stop | voiceweb/audio-worklet.js:16-22 | the stop message posts the open block, if it is not empty, and the confirmation |

## Left out

- HTTP parsing, routing, response writing and multipart handling around the sessions and the index; only their state and lock steps are modelled.
- Model loading, GGUF parsing, kernels and the model tokenizers, which are behind code outside these files; they are parameters.
- RealtimeTheorems.ReceiveNeverBlocks: a timer is an event that can fire at any time, so the waiting time of two minutes itself is not modelled; a fired timer may also find its session not yet due.
- EngineTheorems.Progress: says that some call can move, not that a particular one is served; the scheduler is arbitrary, and waiters of a mutex enter in any order, although Go's mutex serves one that has waited over a millisecond first.
- ToolMessages.ValidateMessages: JSON decoding of arguments and of image data URLs is a flag on the call and the content part; the reason of a rejection is kept only as a kind.
- ToolOrder.ApiMessages: `strings.ToLower` is modelled on ASCII, and the extraction of text and images from content is carried along unread.
- ToolLoss.LossExact: is about conversations whose tool results are different and carry no calls; that differences are needed is `LossesMayCancel`, and `EachPassExact`, pass by pass, needs none. Of tool results that carry calls themselves only `PassExact` is stated.
- ShardTarget.Q8Split: the numeric encoding inside one 32-element block is an abstract codec of 34 bytes that may refuse non-finite values; f16 and float rounding are not modelled.
- ShardImport.Import: reading the remote header, checking an existing destination and the two final renames are not modelled; a zero-tensor plan returns before any file is opened.
- ShardImport.Part.Write: a file is a byte sequence with a position; that the kept part of a non-prefix file may be corrupt is not detected by the code and not claimed away here, see `ResumeExact`.
- Chunker.Split: the tokenizer is any length function positive on non-empty text; termination and bounds hold without it being monotone or additive.
- RagIndex.Index.Add: `removeAll` filters the slice in place in Go; here `order` is a sequence that the methods reassign. `dim`, which nothing reads, is not modelled, and the chunker is any function with the slice property proved of `Chunker.Split`.
- RagPersist.Load: gob encoding is taken as lossless, and a chunk index below zero, which only a hand-made file can have, is not represented.
- RagSearch.Search: scores are exact reals, so NaN and infinity do not arise; recency is an arbitrary function of the document's time; the library sort is any sort with its contract, written as an insertion sort.
- Bm25Scores.Scores: real arithmetic instead of float32 accumulation.
- RagSnapshots.QuietExact: states of the index are named by the number of changes, so a seed or a re-add that happens to leave the same content counts as a change; file system calls are one rename step, a crash between steps of one save leaves the old file, and a server without a snapshot path saves nothing.
- RagFreshness.ZeroExact: like `BarExact`, is about weights and kind factors that are not negative; `MinVectorZeroFilters`, for one chunk, has no such limit.
- RagFreshness.BarExact: is about weights and kind factors that are not negative; `FreshnessDecides`, for one chunk, has no such limit.
- ChatMemory.Session.Prepare: the planner is an oracle indexed by a clock and assumed to count pinned system messages among those it retains; JSON quoting of excerpts is an abstract function; FNV-128a is taken as injective on the encodings proved unambiguous by `EncodeInjective`, and lengths fit 64 bits.
- Embedder.Embedder.EmbedBatch: the gate is a flag taken and returned by each call, and `EmbedderGate` models the waiting for it. Non-finite predictor output does not arise over reals, token type IDs, always zero, are left out, and an error names the text but not the token.
- Embedder.Embedder.Close: takes the gate as free; waiting for a request that holds it is the subject of `EmbedderGate`.
- ChatMemory.Session.Search: the search is an oracle with the properties that `ChatSearch.SearchIsGood` proves of the index; tokenizing the query and the turns is not repeated here.
- SwiGlu.Program: one token column; FP16 range checks and Core ML types are left out. Any positive scale is allowed, of which powers of two are a case.
- Resampler.Processor.Process: real arithmetic; a transferred buffer is a posted block value.
- The web pages, the remote and model-hub clients, request defaults and option parsing, the agent tools, and the smaller stores and shutdown paths of the server, which repeat the shapes above with less in them.
