# MiniCPM-o toolkit: a verified model of its algorithmic cores

Five parts of the repository do real algorithmic work, and this project models each of them in Dafny
and proves what it is for.

* **Factored matrices** (`LoraTorchTensor` in the LoRA converter). A matrix W = B @ A, or a batch of
  them, is kept as its two factors and torch's shape operations are re-implemented on the factors.
  `tensors.dfy` and `torch_ops.dfy` define dense row-major tensors of any rank and torch's operations on
  them; `lora.dfy` the operations on the factors, and the dense tensor `Mat()` a pair stands for, a sum
  of products over the rank; `lora_indexing.dfy`, `lora_reshaping.dfy` and `lora_programs.dfy` prove that
  every operation, and every program of operations, means the same on the factors as on the dense tensor.
  `torch_meaning.dfy` says entry by entry what the dense operations do, and so what those on the factors do.
* **Streaming sessions of the omni model**. `ledger.dfy` is the chunk history and the window that drops
  rounds from the key/value cache, `cache_positions.dfy` which positions a drop takes, `session.dfy` the
  session object with its speculative snapshot, `session_runs.dfy` what holds over whole sessions and
  `session_examples.dfy` sessions in which the window takes the wrong positions. `chunked_decode.dfy` is the
  chunked language-model, speech and vocoder loops of a turn, `tts.dfy` speech-token generation and its
  recompute window.
* **The duplex model**. `duplex_decode.dfy` is the listen/speak loop, `token2wav.dfy` the vocoder buffer,
  `duplex.dfy` the object that joins them with the speech model's cache.
* **The session recorder**. `recorder_pool.dfy` is the thread pool shared by all recorders as a step
  relation, `wav.dfy` the WAV files (over `bytes.dfy`), `replay.dfy` the merged replay and its slideshow.
* **Legacy GGML files and video frames**. `ggml_reader.dfy`, `ggml_round_trip.dfy`, `ggml_fields.dfy`,
  `ggml_ranges.dfy`, `ggml_termination.dfy` and `ggml_model.dfy` are the reader of the GGML converter;
  `frame_sampler.dfy` is the choice of video frames.

`arithmetic.dfy`, `sequences.dfy` and `wrappers.dfy` hold what these parts share.

Code that only computes is modelled by functions. Objects updated in place are classes whose methods are
proved equal to functions on their state, and the properties of whole runs are proved about those
functions. Network passes and random draws are parameters: functions from the step to the sampled token,
or sequences of inputs. A cached position is labelled with the round being fed when it was cached, what it
was fed as, and its input, so that the model can say whose positions a drop takes.

## Where the code falls short of the obvious property

* With rank 0, `reshape` accepts any number of rows (`LoraReshaping.RankZeroReshapes`); with positive rank,
  non-empty rows and at most one -1 it accepts exactly the dense reshapes that keep the row size. Several
  -1, which torch refuses, are all filled with the same quotient; `LoraReshaping.SeveralInferred` says when
  that is accepted, and on a matrix of one row (-1, -1, columns) is (`LoraReshaping.OneRowInferred`).
* `permute` renumbers dimensions from the end before checking them, so it also accepts numbers from the
  rank up (`LoraReshaping.PermuteBeyondRank`); `LoraReshaping.PermuteAcceptsMore` says exactly when an
  accepted `permute` is one the dense tensor accepts.
* An accepted `split` is one the dense tensor accepts if and only if its dimension number is not below minus
  the number of dimensions (`LoraIndexing.SplitRefines`); lower numbers can count twice from the end
  (`LoraIndexing.SplitBelowRank`).
* Integers on both matrix dimensions of a batched pair are accepted exactly when the rank is 1 and a batch
  dimension is left, and the result then has one dimension more than the dense one
  (`LoraIndexing.EntriesOfRankOne`).
* The window drops a round's registered length right after the preserved prefix. Those positions are the
  round's own if and only if they are in one piece, the prefix ends at the first of them and the registered
  length is the number of positions fed for the round (`CachePositions.DropHitsRound`). In every session of
  prefills, answers and undone answers they are in one piece (`SessionRuns.EveryDrop`), but both other
  conditions fail in ordinary ones. A system prefill followed by a user prefill shares round 0, so dropping
  round 1 removes the first user's positions (`SessionExamples.SystemRoundShared`). An answer caches its
  prompt and every generated token and registers the tokens of its text, so part of it outlives its round
  (`SessionExamples.ReplyOutlivesRound`); the surplus is what `SessionRuns.TurnsDrift` counts.
* Every drop spares every system position if and only if they all end within the preserved prefix
  (`CachePositions.SystemProtected`). One system message at the start of a session is safe in every run if and
  only if no snapshot shorter than the message is left from a session before (`SessionRuns.FirstSystemStays`),
  for `reset_session` does not clear it (`SessionExamples.SystemCutByOldSnapshot`). A second system message as
  long as the first is not safe, because the prefix is the longest system message and not where the last one
  ends (`SessionRuns.SystemEntered`, `SessionExamples.SecondSystemLost`).
* A restore truncates by length. After later prefills the saved cache is back if and only if the window has
  dropped nothing since, or all of the saved cache was preserved (`SessionRuns.LateRestore`); otherwise it
  reports success with the wrong positions (`SessionExamples.RestoredTooLate`).
* A duplex unit that says the end of a turn and then listens is not voiced, and the speech cache and
  vocoder buffer are carried into the next turn (`Duplex.TurnEndFreesVoice`, `Duplex.TurnEndThenListen`).
* Flush tasks wait inside the pool they run in. A pool can be blocked with n recorders saved to after
  `finalize` if and only if n is at least the number of workers (`RecorderPool.BlocksExactly`).
* Tensor sizes of GGML files wrap around at 64 bits. A size is right exactly when dimensions times block
  bytes stay below 2^63 (`GgmlReader.SizeExact`). The tensor loop does not end if and only if it comes back
  to an offset, which shows after two turns for every byte and one more (`GgmlTermination.LoopsExactly`); a
  file of 68 bytes keeps `load` busy for ever (`GgmlRanges.LoadsForEver`). When the loop ends, its records
  lie one after the other if and only if no computed length is negative or ends past 2^63
  (`GgmlRanges.RangesDisjoint`); a file of 83 bytes is accepted with a length of -36
  (`GgmlRanges.BackwardLoads`).

## Model

| member | source | states |
|---|---|---|
| LoraTensors.OnesBroadcast | code/llama.cpp-omni/convert_lora_to_gguf.py:168-175 | unit batch dimensions of A can always be broadcast against those of B |
| LoraIndexing.SelectRefines | code/llama.cpp-omni/convert_lora_to_gguf.py:95-112 | selecting on the factors is the same selection on the dense tensor, and keeps A's batch dimensions 1 |
| LoraIndexing.GetItemRefines | code/llama.cpp-omni/convert_lora_to_gguf.py:58-112 | tuple indexing accepts exactly what torch accepts on the dense tensor, and its result stands for the dense result |
| TorchMeaning.SliceTakes | code/llama.cpp-omni/convert_lora_to_gguf.py:95-112 | for every start, stop and positive step, given or not, a slice takes exactly the positions from its start below its stop that are whole steps away, in increasing order; negative bounds count from the end and all are cut to the size |
| TorchMeaning.IntTakes | code/llama.cpp-omni/convert_lora_to_gguf.py:95-112 | an integer is accepted from minus the size up to below the size and takes the position it is modulo the size |
| TorchMeaning.IndexAccepts | code/llama.cpp-omni/convert_lora_to_gguf.py:58-112 | indexing accepts exactly as many components as there are dimensions or fewer, integers in range and positive steps |
| TorchMeaning.IndexPicks | code/llama.cpp-omni/convert_lora_to_gguf.py:58-112 | the entries of an indexed tensor are exactly those its integers and slices pick, each at its place |
| TorchMeaning.GetItemPicks | code/llama.cpp-omni/convert_lora_to_gguf.py:58-112 | entry (i, ...) of an indexed pair is the entry (start + i * step, ...) of the pair, along every dimension a slice is given for |
| LoraIndexing.EntriesOfRankOne | code/llama.cpp-omni/convert_lora_to_gguf.py:58-112 | integers on both matrix dimensions are accepted if and only if the rank is 1 and a batch dimension is left; the result then has an extra dimension of 1 |
| LoraIndexing.SplitRefines | code/llama.cpp-omni/convert_lora_to_gguf.py:190-206 | along any dimension number, the dense split is accepted if and only if the pair's is and the number is not below minus the number of dimensions; every piece then stands for the dense piece |
| TorchMeaning.SplitAccepts | code/llama.cpp-omni/convert_lora_to_gguf.py:190-206 | a split is accepted exactly with a dimension number in range and a positive size, or sizes that are not negative and add up |
| TorchMeaning.SplitTakes | code/llama.cpp-omni/convert_lora_to_gguf.py:190-206 | piece k holds the entries from k times the size on, or from the sum of the sizes before it, all pieces of one size but the last, which has the rest |
| LoraIndexing.SplitBelowRank | code/llama.cpp-omni/convert_lora_to_gguf.py:190-206 | a number below that, refused by torch, splits the pair like the batch dimension it comes to counted twice from the end, or like the rows if the rank is 1 |
| LoraReshaping.MatData | code/llama.cpp-omni/convert_lora_to_gguf.py:136-160 | the dense entry at a row-major position depends only on the factors' data, not on their batch shape |
| LoraReshaping.ReshapeRefines | code/llama.cpp-omni/convert_lora_to_gguf.py:136-160 | for positive rank, reshape with at most one -1 accepts exactly the dense reshapes that keep the row size, and maps entry to entry by row-major position |
| TorchMeaning.ReshapeMeans | code/llama.cpp-omni/convert_lora_to_gguf.py:136-160 | a reshape keeps the data in order and every given dimension, has at most one open dimension, and that one is the rest of the element count; nothing else is a reshape |
| LoraReshaping.SeveralInferred | code/llama.cpp-omni/convert_lora_to_gguf.py:145-157 | with several -1, always refused on the dense tensor, the pair accepts exactly the dimensions that keep row size and row count once each -1 is the quotient, and the result stands for that dense reshape |
| LoraReshaping.OneRowInferred | code/llama.cpp-omni/convert_lora_to_gguf.py:145-157 | every matrix pair of one row accepts (-1, -1, columns) |
| LoraReshaping.RankZeroReshapes | code/llama.cpp-omni/convert_lora_to_gguf.py:155-160 | at rank 0 a wrong number of rows is accepted although the dense tensor refuses it |
| LoraReshaping.PermuteRefines | code/llama.cpp-omni/convert_lora_to_gguf.py:168-179 | permute accepts the dense permutations that fix the last dimension, and any of a matrix, and means the same |
| TorchMeaning.PermuteAccepts | code/llama.cpp-omni/convert_lora_to_gguf.py:168-179 | permutations name every dimension once, counted from either end |
| TorchMeaning.PermuteMoves | code/llama.cpp-omni/convert_lora_to_gguf.py:168-179 | the index of an entry along dimension dims[d] becomes its index along dimension d |
| LoraReshaping.PermuteAcceptsMore | code/llama.cpp-omni/convert_lora_to_gguf.py:168-170 | an accepted permute is one of the dense tensor if and only if no dimension number reaches the rank |
| LoraReshaping.PermuteBeyondRank | code/llama.cpp-omni/convert_lora_to_gguf.py:168-170 | dims (2, 1) gives every matrix pair itself back although torch refuses it on the dense tensor |
| LoraReshaping.TransposeMatrix | code/llama.cpp-omni/convert_lora_to_gguf.py:176-188 | exchanging and transposing the factors transposes the product |
| LoraReshaping.ScaleRefines | code/llama.cpp-omni/convert_lora_to_gguf.py:211-219 | multiplying B scales the rows of the dense tensor, for exactly the multipliers that have a last dimension of 1 and broadcast |
| TorchMeaning.TimesAccepts | code/llama.cpp-omni/convert_lora_to_gguf.py:211-219 | two shapes can be multiplied if and only if from the last dimension on they agree or one is 1, and the result has the larger |
| TorchMeaning.TimesEntries | code/llama.cpp-omni/convert_lora_to_gguf.py:211-219 | every entry of a product is the product of the two entries aligned with it |
| TorchMeaning.TotalAdds | code/llama.cpp-omni/convert_lora_to_gguf.py:40-54 | the sum over the rank is additive and of one product is that product |
| TorchMeaning.MatOfIdentity | code/llama.cpp-omni/convert_lora_to_gguf.py:40-54 | a pair whose A is the identity in every batch stands for its B |
| LoraPrograms.StepRefines | code/llama.cpp-omni/convert_lora_to_gguf.py:58-219 | every operation keeps A's batch dimensions 1 and commutes with materialising |
| LoraPrograms.RunRefinesFrom | code/llama.cpp-omni/convert_lora_to_gguf.py:58-219 | the same for every finite program from every pair with unit batch dimensions |
| LoraPrograms.RunRefines | code/llama.cpp-omni/convert_lora_to_gguf.py:58-219 | from every two-dimensional pair of positive rank, running any program on the factors and materialising equals materialising and running it |
| LoraPrograms.HeadPermutationOnFactors | code/llama.cpp-omni/conversion/llama.py:99-106 | reshaping to heads, swapping and reshaping back on the factors permutes the dense rows: half b, position c of head a goes to position c, half b |
| LoraPrograms.SwapMiddle | code/llama.cpp-omni/convert_lora_to_gguf.py:181-188 | swapping axes 1 and 2 of four is the permutation (0, 2, 1, 3) |
| LoraPrograms.CatOfSplit | code/llama.cpp-omni/convert_lora_to_gguf.py:190-206 | splitting a matrix pair along its rows and concatenating the pieces gives back the pair |
| LoraPrograms.IndexOfStack | code/llama.cpp-omni/convert_lora_to_gguf.py:234-242 | indexing a stack of tensors at k, counted from either end, gives back tensor k |
| LoraPrograms.IndexOfStackedPairs | code/llama.cpp-omni/convert_lora_to_gguf.py:66-76 | indexing a stack of matrix pairs at k, by integer or by tuple, gives back pair k |
| ChunkLedger.DropTokens | code/MiniCPM-o-Demo/MiniCPMO45/utils.py:1047-1158 | a successful drop removes exactly the length asked for, and a length of zero is refused |
| ChunkLedger.RemoveRound | code/MiniCPM-o-Demo/MiniCPMO45/modeling_minicpmo.py:1586-1599 | removing a round's entries one at a time by value leaves exactly the other rounds |
| ChunkLedger.NextDroppable | code/MiniCPM-o-Demo/MiniCPMO45/modeling_minicpmo.py:1572-1584 | the round chosen exists, has no system entry and can be dropped; none is chosen only if there is none |
| ChunkLedger.Hysteresis | code/MiniCPM-o-Demo/MiniCPMO45/modeling_minicpmo.py:1601-1620 | at or below the high limit nothing changes; above it the cache ends at or below the low limit or no round can be dropped |
| ChunkLedger.EnforceMinimal | code/MiniCPM-o-Demo/MiniCPMO45/modeling_minicpmo.py:1601-1620 | the window drops no round too many: before each drop, the last included, the cache is longer than the low limit and not empty, and nothing is dropped at or below the high limit |
| ChunkLedger.ShrinkConserves | code/MiniCPM-o-Demo/MiniCPMO45/modeling_minicpmo.py:1586-1620 | cache length minus the sum of entry lengths never changes |
| ChunkLedger.ShrinkPositive | code/MiniCPM-o-Demo/MiniCPMO45/modeling_minicpmo.py:1586-1592 | entries keep positive lengths, so the branch for empty rounds is dead |
| ChunkLedger.ShrinkRemoves | code/MiniCPM-o-Demo/MiniCPMO45/modeling_minicpmo.py:1572-1599 | the new history is the old one without the removed rounds, none of which has a system entry |
| ChunkLedger.SystemRoundsKept | code/MiniCPM-o-Demo/MiniCPMO45/modeling_minicpmo.py:1572-1584 | a round with a system entry keeps all its entries |
| ChunkLedger.ShrinkCutsAfterPrefix | code/MiniCPM-o-Demo/MiniCPMO45/modeling_minicpmo.py:1558-1570 | whatever rounds go, the cache loses one contiguous block right after the preserved prefix |
| ChunkLedger.RemovedAreOldest | code/MiniCPM-o-Demo/MiniCPMO45/modeling_minicpmo.py:1572-1620 | when every drop succeeds the removed rounds are the oldest ones without a system entry |
| ChunkLedger.FittingRoundsDrop | code/MiniCPM-o-Demo/MiniCPMO45/modeling_minicpmo.py:1558-1599 | a condition on lengths under which every drop does succeed |
| CachePositions.DropHitsRound | code/MiniCPM-o-Demo/MiniCPMO45/modeling_minicpmo.py:1558-1599 | the positions dropped are the round's own if and only if these are in one piece, the preserved prefix ends at the first of them and the registered length is the number of positions fed for the round |
| CachePositions.DropLeavesOthers | code/MiniCPM-o-Demo/MiniCPMO45/modeling_minicpmo.py:1558-1599 | of a duplicate-free cache, what is left is the cache without the round under exactly that condition |
| CachePositions.SystemProtected | code/MiniCPM-o-Demo/MiniCPMO45/utils.py:1047-1158 | every drop the cache allows spares every system position if and only if they all end within the preserved prefix |
| CachePositions.ShrinkSystem | code/MiniCPM-o-Demo/MiniCPMO45/modeling_minicpmo.py:1601-1620 | system positions that end within the preserved prefix stay where they are through the whole window |
| OmniSession.SpeculationRestores | code/MiniCPM-o-Demo/MiniCPMO45/modeling_minicpmo.py:1623-1832 | save, any number of generation steps with any outcome, restore: cache contents, history, counters, flags, audio cache, audio index, last-turn tokens and random state are back; a second restore finds nothing |
| OmniSession.FailedRestoreCanBeRetried | code/MiniCPM-o-Demo/MiniCPMO45/modeling_minicpmo.py:1765-1810 | a restore that fails in the mel processor keeps its snapshot, and a second try completes it |
| OmniSession.EveryRunSound | code/MiniCPM-o-Demo/MiniCPMO45/modeling_minicpmo.py:1535-1620 | over every order of prefills, generation steps and restores, entries stay positive and no system entry is longer than the preserved prefix |
| OmniSession.PrefillConserves | code/MiniCPM-o-Demo/MiniCPMO45/modeling_minicpmo.py:1958-1990 | a prefill with both window checks keeps the difference of cache and ledger length, and the cache plus what was dropped grows by the new positions |
| OmniSession.PrefillBounded | code/MiniCPM-o-Demo/MiniCPMO45/modeling_minicpmo.py:1958-1990 | after a prefill the cache is within the window again or no round can be dropped |
| OmniSession.PrefillFits | code/MiniCPM-o-Demo/MiniCPMO45/modeling_minicpmo.py:1958-1990 | the window is enforced before the new positions come in, which cost no further round if there is room for them |
| SessionRuns.TurnsOrdered | code/MiniCPM-o-Demo/MiniCPMO45/modeling_minicpmo.py:1512-1620 | over every session of prefills, answers and undone answers, each round's positions are in one piece and only the next round can still grow |
| SessionRuns.EveryDrop | code/MiniCPM-o-Demo/MiniCPMO45/modeling_minicpmo.py:1512-1599 | in every such session a round that can be dropped is in one piece, so it takes exactly its own positions if and only if prefix and registered length fit |
| SessionRuns.TurnsDrift | code/MiniCPM-o-Demo/MiniCPMO45/modeling_minicpmo.py:1512-1620 | cache length minus ledger length is exactly the number of positions that answers fed and never charged, whatever the window did |
| SessionRuns.AnswerDrift | code/MiniCPM-o-Demo/MiniCPMO45/modeling_minicpmo.py:1512-1533 | a finished answer moves that difference by the positions it fed less the tokens of its text, and by nothing without a text |
| SessionRuns.FirstSystemStays | code/MiniCPM-o-Demo/MiniCPMO45/modeling_minicpmo.py:174-196 | a system message that opens a session, fresh or reset, is kept at the start of the cache through every order of later prefills, generation steps and restores, if and only if no snapshot is left that is shorter than the message |
| SessionRuns.SystemEntered | code/MiniCPM-o-Demo/MiniCPMO45/modeling_minicpmo.py:1535-1556 | a later system message is protected if and only if the cache was empty or it still ends within the prefix preserved before |
| SessionRuns.LateRestore | code/MiniCPM-o-Demo/MiniCPMO45/modeling_minicpmo.py:1725-1832 | after further prefills and generation steps a restore gives the saved cache back if and only if nothing was dropped or all of it was preserved; with nothing dropped the whole session is back |
| SessionExamples.SystemRoundShared | code/MiniCPM-o-Demo/MiniCPMO45/modeling_minicpmo.py:1535-1599 | a session whose window removes round 0's user message when it drops round 1, whose own positions stay |
| SessionExamples.ReplyOutlivesRound | code/MiniCPM-o-Demo/MiniCPMO45/modeling_minicpmo.py:1512-1599 | a session in which the round starts where the prefix ends, and two positions of its reply outlive it |
| SessionExamples.SecondSystemLost | code/MiniCPM-o-Demo/MiniCPMO45/modeling_minicpmo.py:1535-1599 | a session whose window removes two positions of its second system message |
| SessionExamples.SystemCutByOldSnapshot | code/MiniCPM-o-Demo/MiniCPMO45/modeling_minicpmo.py:1725-1832 | a session that opens after a reset and loses two positions of its system message to a restore that succeeds |
| SessionExamples.RestoredTooLate | code/MiniCPM-o-Demo/MiniCPMO45/modeling_minicpmo.py:1725-1832 | a session in which a restore succeeds and leaves two positions of the undone reply instead of the two saved |
| OmniSession.OmniModel.ResetSession | code/MiniCPM-o-Demo/MiniCPMO45/modeling_minicpmo.py:174-196 | cache, ledger, counters and flags are cleared; the snapshot and the mel processor are not |
| OmniSession.OmniModel.RegisterChunk | code/MiniCPM-o-Demo/MiniCPMO45/modeling_minicpmo.py:1535-1556 | registering meets its function and keeps the invariant |
| OmniSession.OmniModel.FinalizeRound | code/MiniCPM-o-Demo/MiniCPMO45/modeling_minicpmo.py:1512-1533 | a finished round gets an assistant entry only of positive length, and the round counter moves on |
| OmniSession.OmniModel.DropTokensFromCache | code/MiniCPM-o-Demo/MiniCPMO45/modeling_minicpmo.py:1558-1570 | on success the cache loses the length and the position offset gains it; otherwise nothing changes |
| OmniSession.OmniModel.DropRoundFromCache | code/MiniCPM-o-Demo/MiniCPMO45/modeling_minicpmo.py:1586-1599 | the round leaves ledger and cache together, or neither |
| OmniSession.OmniModel.DropNextRound | code/MiniCPM-o-Demo/MiniCPMO45/modeling_minicpmo.py:1572-1584 | skipping rounds already seen, it drops the first droppable round of the ledger |
| OmniSession.OmniModel.EnforceTextWindow | code/MiniCPM-o-Demo/MiniCPMO45/modeling_minicpmo.py:1601-1620 | the loop ends and computes the window's function, whose stop is the low limit by Hysteresis and EnforceMinimal; the position offset grows by what the cache lost |
| OmniSession.OmniModel.StreamingPrefill | code/MiniCPM-o-Demo/MiniCPMO45/modeling_minicpmo.py:1958-1990 | the window is enforced before and after the new chunk is cached and registered |
| OmniSession.OmniModel.SaveSpeculativeSnapshot | code/MiniCPM-o-Demo/MiniCPMO45/modeling_minicpmo.py:1623-1723 | restoring the snapshot it returns, after any generation started with or without a snapshot of its own and any steps, gives the session back |
| OmniSession.SnapshotUndoes | code/MiniCPM-o-Demo/MiniCPMO45/modeling_minicpmo.py:1623-1832 | a snapshot undoes every generation begun after it |
| OmniSession.OmniModel.BeginGenerate | code/MiniCPM-o-Demo/MiniCPMO45/modeling_minicpmo.py:2008-2035 | the snapshot is taken before the turn's flags, audio cache and processor are reset, each to the value stated; ledger, last-turn tokens and random state stay |
| OmniSession.OmniModel.TruncateLlmCache | code/MiniCPM-o-Demo/MiniCPMO45/modeling_minicpmo.py:1812-1832 | the cache is cut to the target length and never extended |
| OmniSession.OmniModel.RestoreSpeculativeSnapshot | code/MiniCPM-o-Demo/MiniCPMO45/modeling_minicpmo.py:1725-1810 | restoring meets its function, with and without an argument, and when the mel processor fails |
| OmniSession.OmniModel.Speculate | code/MiniCPM-o-Demo/MiniCPMO45/modeling_minicpmo.py:1623-1832 | on the object: begin, run any steps, restore, restore again; the state is the old one and the second restore fails |
| ChunkedDecode.TextGenerator.ChunkGenerate | code/MiniCPM-o-Demo/MiniCPMO45/utils.py:136-325 | a chunk stops at the first terminator or at its size; the cache grows by exactly what was fed, and no hidden state at all raises |
| ChunkedDecode.NextChunk | code/MiniCPM-o-Demo/MiniCPMO45/modeling_minicpmo.py:2100-2177 | what is sampled are the draws up to the first terminator or ten, eleven in the first chunk; what is handed on is the token held back before and all new tokens but the newest |
| ChunkedDecode.GenerateText | code/MiniCPM-o-Demo/MiniCPMO45/modeling_minicpmo.py:2100-2202 | every chunk samples its own draws up to the first terminator or its size; the parts handed on are all tokens generated, less one held back unless finished; the cache holds the prompt and exactly them |
| ChunkedDecode.HandOn | code/MiniCPM-o-Demo/MiniCPMO45/modeling_minicpmo.py:2140-2177 | one more chunk keeps the lag of one token, or catches up |
| ChunkedDecode.SpeechGenerator.TakeToken | code/MiniCPM-o-Demo/MiniCPMO45/utils.py:703-893 | one sampled token is put out or kept, never lost or repeated |
| ChunkedDecode.SpeechGenerator.GenerateWithBuffer | code/MiniCPM-o-Demo/MiniCPMO45/utils.py:703-893 | batches and the buffer left together are the buffer before and all tokens drawn up to the end token; only a last batch may be short |
| ChunkedDecode.GenerateSpeech | code/MiniCPM-o-Demo/MiniCPMO45/modeling_minicpmo.py:2164-2192 | for every chunk of text sampling goes on to the end token or the limit; every audio token is handed on exactly once and in order, and only the last batch may be short or marked last |
| ChunkedDecode.Vocode | code/MiniCPM-o-Demo/MiniCPMO45/modeling_minicpmo.py:2220-2289 | window i covers positions 25 i to 25 i + 28 of silence prefix and audio tokens, the flush the rest; with batches of at most 25 at most 27 tokens are ever buffered, and with those of the speech side no window is marked last |
| ChunkedDecode.StridesCover | code/MiniCPM-o-Demo/MiniCPMO45/modeling_minicpmo.py:2231-2289 | the strides of the windows and the flush put together are the whole stream |
| ChunkedDecode.SpeakTurn | code/MiniCPM-o-Demo/MiniCPMO45/modeling_minicpmo.py:2164-2289 | speech and vocoder together: strides of 28-token windows and the final flush are the silence prefix and all audio tokens, with at most 27 waiting; the flush is never empty, and the only call marked last |
| Tts.GenerateChunk | code/MiniCPM-o-Demo/MiniCPMO45/modeling_minicpmo.py:4564-4709 | the tokens returned are the samples before the end token or the last one; the cache grows by inputs and tokens, positions are consecutive, and a masked end token gives exactly the maximum less one |
| Tts.HeldStep | code/MiniCPM-o-Demo/MiniCPMO45/modeling_minicpmo.py:4741-4814 | the number of chunks held never exceeds the window, and grows by one or falls back to the recomputed ones |
| Tts.RecomputeCondition | code/MiniCPM-o-Demo/MiniCPMO45/modeling_minicpmo.py:4757-4775 | the condition rebuilt is the interleaving of the last chunks and the current condition |
| Tts.AfterChunk | code/MiniCPM-o-Demo/MiniCPMO45/modeling_minicpmo.py:4741-4814 | one chunk takes the cache from what it should hold before to what it should hold after, in each attention mode |
| Tts.InterleavedGenerate | code/MiniCPM-o-Demo/MiniCPMO45/modeling_minicpmo.py:4712-4816 | after every chunk, in every mode, cache and next position are the promised ones, tokens are the samples, and position ids end where the next chunk starts |
| Tts.RecomputeWindow | code/MiniCPM-o-Demo/MiniCPMO45/modeling_minicpmo.py:4741-4814 | with recomputation the cache is a suffix of the full interleaving at a chunk boundary, c + 1 + ((i - c) mod (w - c)) chunks long once the window is full, and the position is its length |
| DuplexDecode.DecodeSays | code/MiniCPM-o-Demo/MiniCPMO45/modeling_minicpmo.py:3078-3137 | the loop generates what a rule without the loop says: samples up to a terminator or the limit, listens inside a turn replaced |
| DuplexDecode.UnitSays | code/MiniCPM-o-Demo/MiniCPMO45/modeling_minicpmo.py:3062-3142 | the same for a whole unit, forced while fewer than forceListen units have been decoded; all but its first token are handed to the voice, and the flags say how it ended |
| DuplexDecode.ForcedListening | code/MiniCPM-o-Demo/MiniCPMO45/modeling_minicpmo.py:3066-3105 | over every run from a reset a unit listens by force if and only if fewer units than forceListen came before it; from then on its first token is the one sampled |
| DuplexDecode.AnswerSound | code/MiniCPM-o-Demo/MiniCPMO45/modeling_minicpmo.py:3062-3142 | a unit keeps the invariant, and one that listens leaves the turn ended |
| DuplexDecode.FromReset | code/MiniCPM-o-Demo/MiniCPMO45/modeling_minicpmo.py:2528-2553 | over every run from a reset the flag says that the last token said ends a turn or none exists, forced listens say nothing, and the decoder has been fed total_ids, without terminators unless explicit |
| DuplexDecode.GenerateUnits | code/MiniCPM-o-Demo/MiniCPMO45/modeling_minicpmo.py:3283-3293 | the splitting loop computes its function |
| DuplexDecode.UnitsSplitBack | code/MiniCPM-o-Demo/MiniCPMO45/modeling_minicpmo.py:3270-3293 | splitting total_ids gives back the generated units if and only if no unit generated the unit end itself |
| Token2Wav.HeardCovers | code/MiniCPM-o-Demo/MiniCPMO45/modeling_minicpmo.py:3409-3458 | every batch keeps the windows a gapless cover of the stream up to the buffer, leaves fewer tokens than one window needs, and the last batch leaves none |
| Token2Wav.HeardReads | code/MiniCPM-o-Demo/MiniCPMO45/modeling_minicpmo.py:3424-3458 | strides are full as long as nothing asks to flush; a flush or a terminator also reads shorter ones, until fewer than five tokens follow the lookahead |
| Token2Wav.StridesCover | code/MiniCPM-o-Demo/MiniCPMO45/modeling_minicpmo.py:3428-3458 | strides and buffer together are silence prefix and all tokens since the reset, each once |
| Duplex.MiddleUnit | code/MiniCPM-o-Demo/MiniCPMO45/modeling_minicpmo.py:3189-3218 | a unit that neither opens nor ends the voice's turn yields exactly 25 tokens |
| Duplex.UnitSamples | code/MiniCPM-o-Demo/MiniCPMO45/modeling_minicpmo.py:3189-3218 | the first and the last unit of a turn stop at the first end token or at 25; one between them takes 25 samples drawn with the end token masked |
| Duplex.VoicedUnit | code/MiniCPM-o-Demo/MiniCPMO45/modeling_minicpmo.py:3160-3243 | a unit that listens leaves voice and vocoder alone; one that speaks adds its condition and tokens, and only the first of a turn has the vocoder flushed |
| Duplex.DecodesFewer | code/MiniCPM-o-Demo/MiniCPMO45/modeling_minicpmo.py:3031-3064 | every unit decoded uses up a prefill; a stopped call or one without logits changes nothing |
| Duplex.SpokenInTurn | code/MiniCPM-o-Demo/MiniCPMO45/modeling_minicpmo.py:3222-3231 | position ids go on where they stopped, and the cache holds conditions and tokens in the order spoken |
| Duplex.EveryRun | code/MiniCPM-o-Demo/MiniCPMO45/modeling_minicpmo.py:3205-3240 | over every run the position ids of a turn are 0, 1, 2, ... up to the cache length, later units have 25 tokens, and no vocoder token is lost or repeated |
| Duplex.TurnEndFlushes | code/MiniCPM-o-Demo/MiniCPMO45/modeling_minicpmo.py:3233-3242 | the last unit of a turn has all its tokens consumed before the buffer is reset to silence |
| Duplex.TurnEndFreesVoice | code/MiniCPM-o-Demo/MiniCPMO45/modeling_minicpmo.py:3160-3231 | after a unit that ends the turn the voice starts afresh if and only if that unit spoke or the voice had not started |
| Duplex.TurnEndThenListen | code/MiniCPM-o-Demo/MiniCPMO45/modeling_minicpmo.py:3106-3176 | samples that, in every state, end the turn and listen, leaving words unvoiced |
| Duplex.DuplexModel.DecodeLoop | code/MiniCPM-o-Demo/MiniCPMO45/modeling_minicpmo.py:3078-3137 | the loop on the object's fields computes the decoding function |
| Duplex.DuplexModel.Drain | code/MiniCPM-o-Demo/MiniCPMO45/modeling_minicpmo.py:3430-3448 | both reading loops end; the slices of the buffer they hand to the vocoder are, in order, the windows of the reading function |
| Duplex.DuplexModel.GenerateWaveform | code/MiniCPM-o-Demo/MiniCPMO45/modeling_minicpmo.py:3409-3458 | the slices handed to the vocoder, each with whether it is the last, are the windows of the function, and the buffer is what they leave; nothing happens without a vocoder cache |
| Duplex.DuplexModel.ResetToken2Wav | code/MiniCPM-o-Demo/MiniCPMO45/modeling_minicpmo.py:2522-2526 | a ready vocoder starts a turn from three silence tokens |
| Duplex.DuplexModel.GenerateSpeech | code/MiniCPM-o-Demo/MiniCPMO45/modeling_minicpmo.py:3189-3231 | tokens, positions, cache and next position of a unit, and the reset at the end of a turn |
| Duplex.DuplexModel.StreamingGenerate | code/MiniCPM-o-Demo/MiniCPMO45/modeling_minicpmo.py:3014-3260 | one call takes the object's whole state where the step function says, and keeps the invariant |
| RecorderPool.ReachesInv | code/MiniCPM-o-Demo/session_recorder.py:286-321 | the pool's invariant holds in every reachable state |
| RecorderPool.StuckNeedsLate | code/MiniCPM-o-Demo/session_recorder.py:45-45 | the pool blocks only if at least as many recorders as workers are saved to after finalize |
| RecorderPool.NeverStuck | code/MiniCPM-o-Demo/session_recorder.py:286-321 | with fewer such recorders than workers, every reachable state with unfinished tasks can take a step |
| RecorderPool.LateSavesBlock | code/MiniCPM-o-Demo/session_recorder.py:212-321 | for every number of workers, any number of late recorders from that on reaches a blocked state |
| RecorderPool.BlocksExactly | code/MiniCPM-o-Demo/session_recorder.py:212-321 | a pool can be blocked with n late recorders if and only if n is at least the number of workers |
| RecorderPool.Drains | code/MiniCPM-o-Demo/session_recorder.py:286-321 | without new submissions the workers take a bounded number of steps, and stop exactly when everything is done |
| RecorderPool.PublishedComplete | code/MiniCPM-o-Demo/session_recorder.py:303-317 | a recording.json is written once, after every asset saved before finalize |
| RecorderPool.PublishedExactly | code/MiniCPM-o-Demo/session_recorder.py:303-321 | over every run a flush is done if and only if one action has ended it, which happens once, and its recording is published if and only if that action did not raise |
| RecorderPool.DrainedPublishes | code/MiniCPM-o-Demo/session_recorder.py:286-321 | when the workers have stopped, with fewer late recorders than workers and no flush that raised, every finalised recorder is published exactly once and nothing else |
| RecorderPool.SessionRecorder.SaveAsset | code/MiniCPM-o-Demo/session_recorder.py:212-276 | saving on the object is the save step of the pool |
| RecorderPool.SessionRecorder.Finalize | code/MiniCPM-o-Demo/session_recorder.py:296-321 | finalising is the finalise step, and a second call submits nothing |
| RecorderPool.SessionRecorder.ClearPendingIo | code/MiniCPM-o-Demo/session_recorder.py:286-290 | clearing the futures waited for is the flush's step |
| Wav.SampleError | code/MiniCPM-o-Demo/session_recorder.py:75-104 | a sample that is not clipped comes back within 1/32767 and never further from zero |
| Wav.PcmValue | code/MiniCPM-o-Demo/session_recorder.py:75-104 | a sample becomes 32767 times it without the fraction, clipped at both ends, and is read back as its value over 32767 |
| Wav.SampleBytes | code/MiniCPM-o-Demo/session_recorder.py:75-90 | samples are two bytes, least significant first, negative ones counted down from 65536 |
| Bytes.ByteOrder | code/MiniCPM-o-Demo/session_recorder.py:77-90 | header numbers are written least significant byte first |
| Wav.WriteWav | code/MiniCPM-o-Demo/session_recorder.py:67-90 | the bytes are the file's, and packing raises exactly when 36 plus the data size or twice the rate passes 2^32 - 1 |
| Wav.WriteStereoWav | code/MiniCPM-o-Demo/session_recorder.py:125-145 | the two passes over the array interleave the channels, cut to the shorter one |
| Wav.MonoRoundTrip | code/MiniCPM-o-Demo/session_recorder.py:67-108 | reading a written file gives every sample quantised, within one step |
| Wav.RewriteStable | code/MiniCPM-o-Demo/session_recorder.py:67-108 | writing what was read gives the same bytes, whatever was written first |
| Wav.StereoReadsLeft | code/MiniCPM-o-Demo/session_recorder.py:98-145 | a stereo file reads back as its left channel |
| Wav.ReadQuantised | code/MiniCPM-o-Demo/session_recorder.py:98-108 | whatever bytes are read, the samples are values a 16-bit file holds exactly |
| Wav.SizesMatch | code/MiniCPM-o-Demo/session_recorder.py:77-90 | the RIFF and data sizes count the bytes after them, and rate and alignment fields agree, as the "Waveform Audio File Format (WAVE)" section of the Multimedia Programming Interface and Data Specifications 1.0 requires |
| Wav.NamesMatch | code/MiniCPM-o-Demo/session_recorder.py:77-90 | the chunks have their names, and the format is 16-bit PCM with the channels given |
| Replay.ResampledWithin | code/MiniCPM-o-Demo/session_recorder.py:111-122 | resampling never leaves the range of its input and keeps the first and last sample |
| Replay.ResampledLength | code/MiniCPM-o-Demo/session_recorder.py:111-122 | resampled audio has the new rate's share of the old length, rounded down |
| Replay.ResampledOnLine | code/MiniCPM-o-Demo/session_recorder.py:111-122 | every resampled sample lies on the line between the two input samples around it, spread evenly from the first to the last |
| Replay.LengthIsOne | code/MiniCPM-o-Demo/session_recorder.py:470-474 | a chunk is no longer than a second, its user audio or its model audio, whichever is longest |
| Replay.StitchChannels | code/MiniCPM-o-Demo/session_recorder.py:452-485 | both arrays hold every chunk padded to its length, and the intervals are the chunks' offsets |
| Replay.LaidAt | code/MiniCPM-o-Demo/session_recorder.py:452-482 | every chunk's audio is found at its own offset, with silence after it |
| Replay.IntervalsTile | code/MiniCPM-o-Demo/session_recorder.py:474-485 | intervals follow each other without a gap from 0 to the end, each a second long at least |
| Replay.ReplayHolds | code/MiniCPM-o-Demo/session_recorder.py:439-489 | in the replay of any recorded files every chunk is at its offset: on the left exactly the samples read from the user's file, on the right the model's file resampled from 24 to 16 kHz, within 1/32767; silence after them |
| Replay.StitchMergedReplay | code/MiniCPM-o-Demo/session_recorder.py:439-489 | from the bytes of the chunks' files: the replay's file holds both channels, reads back as the user's channel sample for sample, and packing its sizes raises exactly when they do not fit |
| Replay.Slideshow | code/MiniCPM-o-Demo/session_recorder.py:508-532 | the two loops compute the frames' durations |
| Replay.SlideshowTiles | code/MiniCPM-o-Demo/session_recorder.py:508-532 | no duration is under a second, so the 0.04 s floor is never used, and together they last from the first framed chunk's start to the last one's end |
| Replay.PlainSlideshow | code/MiniCPM-o-Demo/session_recorder.py:515-531 | without intervals every frame is shown for a second, and no duration is under 0.04 s |
| GgmlFields.HeadersAccepted | code/llama.cpp-omni/convert_llama_ggml_to_gguf.py:145-166 | exactly five headers are accepted, and which failure the others give |
| GgmlFields.HyperFields | code/llama.cpp-omni/convert_llama_ggml_to_gguf.py:59-77 | the seven numbers in their order, and exactly the file types known |
| GgmlFields.EligibleFiles | code/llama.cpp-omni/convert_llama_ggml_to_gguf.py:168-178 | unquantised files are eligible always, quantised ones from the third format's version 2 on, with four types only from version 3 |
| GgmlFields.ItemFields | code/llama.cpp-omni/convert_llama_ggml_to_gguf.py:84-98 | an item is its length, below 4096, its text and its score, and what fails |
| GgmlFields.RecordFields | code/llama.cpp-omni/convert_llama_ggml_to_gguf.py:110-131 | a record is accepted exactly with at most four dimensions, a name below 4096 bytes, a known type and bytes for its dimensions; each field is where it should be |
| GgmlFields.LegacyBlocks | code/llama.cpp-omni/gguf-py/gguf/constants.py:4365-4379 | the block sizes of the legacy types from their scales, high bits and values |
| GgmlFields.LoadedLayout | code/llama.cpp-omni/convert_llama_ggml_to_gguf.py:180-200 | scores are read in all formats but the first, padding in the last only |
| GgmlFields.FfSizeIs | code/llama.cpp-omni/convert_llama_ggml_to_gguf.py:53-57 | the feed-forward size is the second dimension of the last tensor of that name, if it has two |
| GgmlReader.SizeExact | code/llama.cpp-omni/convert_llama_ggml_to_gguf.py:126-129 | the computed length is the true one if and only if dimensions times block bytes stay below 2^63 |
| GgmlReader.MapLast | code/llama.cpp-omni/convert_llama_ggml_to_gguf.py:188-194 | the tensor map knows exactly the names read and sends each to its last tensor |
| GgmlRoundTrip.RecordRead | code/llama.cpp-omni/convert_llama_ggml_to_gguf.py:110-131 | a printed record reads back, with its data found behind the padding |
| GgmlRoundTrip.VocabRead | code/llama.cpp-omni/convert_llama_ggml_to_gguf.py:84-98 | a printed vocabulary reads back, with or without scores |
| GgmlRoundTrip.ReadPrinted | code/llama.cpp-omni/convert_llama_ggml_to_gguf.py:180-200 | printing any well-formed model in any of the three formats and loading it gives it back, ending at the end of the file |
| GgmlRanges.RecordAdvances | code/llama.cpp-omni/convert_llama_ggml_to_gguf.py:110-131 | without wrap-around a record moves the offset by its true size, at least twelve bytes, with fewer than 32 bytes of padding that end at a multiple of 32, or none |
| GgmlRanges.RecordGains | code/llama.cpp-omni/convert_llama_ggml_to_gguf.py:110-131 | a record moves the offset by twelve bytes or more if and only if start plus the length as computed is at least that and below 2^63 |
| GgmlRanges.RangesDisjoint | code/llama.cpp-omni/convert_llama_ggml_to_gguf.py:188-194 | for every file the tensor loop gets through: records lie one after the other, inside the file but for the last one's data, if and only if no computed length is negative or ends past 2^63; data ranges are then increasing and disjoint; padded ones start at multiples of 32 in any case |
| GgmlRanges.BackwardLoads | code/llama.cpp-omni/convert_llama_ggml_to_gguf.py:110-131 | a file of 83 bytes that load accepts with a data length of -36, out of order |
| GgmlRanges.EndlessWraps | code/llama.cpp-omni/convert_llama_ggml_to_gguf.py:188-192 | a tensor loop that goes on longer than a turn every twelve bytes has met a computed length that is negative or ends past 2^63 |
| GgmlTermination.LoopsExactly | code/llama.cpp-omni/convert_llama_ggml_to_gguf.py:188-192 | for every file and offset the tensor loop never ends if and only if it comes back to an offset, and if and only if it is still going after two turns for every byte and one more |
| GgmlTermination.LoadSettled | code/llama.cpp-omni/convert_llama_ggml_to_gguf.py:180-200 | with that many turns or more the outcome of load is always the same, and if it has not ended by then it never does |
| GgmlRanges.LoadsForEver | code/llama.cpp-omni/convert_llama_ggml_to_gguf.py:126-131 | on one file of 68 bytes load does not end however many turns it gets |
| GgmlModel.VocabReader.Load | code/llama.cpp-omni/convert_llama_ggml_to_gguf.py:84-98 | the loop reads what the function says, and fails where it fails |
| GgmlModel.TensorReader.Load | code/llama.cpp-omni/convert_llama_ggml_to_gguf.py:110-131 | the record's fields and the next offset, or the first check that fails |
| GgmlModel.GGMLModel.ValidateHeader | code/llama.cpp-omni/convert_llama_ggml_to_gguf.py:145-166 | format and version are set only for the five headers accepted |
| GgmlModel.GGMLModel.LoadTensors | code/llama.cpp-omni/convert_llama_ggml_to_gguf.py:188-192 | the loop collects the tensors and keeps the map in step |
| GgmlModel.GGMLModel.SetNFf | code/llama.cpp-omni/convert_llama_ggml_to_gguf.py:53-57 | the feed-forward size comes from the last tensor of that name, or an exception says what is missing |
| GgmlModel.GGMLModel.Load | code/llama.cpp-omni/convert_llama_ggml_to_gguf.py:180-200 | on success the object holds exactly the model read; every failure is the function's; when load would not end, that is reported |
| GgmlModel.AddTensors | code/llama.cpp-omni/convert_llama_ggml_to_gguf.py:340-366 | every tensor is added with its bytes from the file; with two dimensions or more the first two change places and the others stay |
| GgmlModel.SwapKeepsSize | code/llama.cpp-omni/convert_llama_ggml_to_gguf.py:349-359 | the first two dimensions change places, which keeps the number of elements and undoes itself |
| GgmlModel.AddsWritten | code/llama.cpp-omni/convert_llama_ggml_to_gguf.py:349-366 | of a printed file exactly the written data is added, under the written dimensions with the first two exchanged, and its size fits them |
| FrameSampler.RoundNearest | benchmark/video-mme-cookbook/eval_cpp_video_prep.py:63-65 | the frame rate is rounded to the nearest integer, halves to even |
| FrameSampler.Step | benchmark/video-mme-cookbook/eval_cpp_video_prep.py:63-65 | the step is 1 up to half a frame a second and otherwise the rate's nearest integer, halves to even |
| FrameSampler.Middle | benchmark/video-mme-cookbook/eval_cpp_video_prep.py:44-48 | the frame chosen from a part is the one its middle falls into |
| FrameSampler.SampleCounts | benchmark/video-mme-cookbook/eval_cpp_video_prep.py:44-71 | sampling fails exactly with frames and a maximum of 0; otherwise the number of frames is the smaller of multiples and maximum |
| FrameSampler.SampleIsSpread | benchmark/video-mme-cookbook/eval_cpp_video_prep.py:44-71 | the frames are increasing multiples of the step below the total, each the one holding the middle of its equal part, evenly apart |

## Left out

- Network passes, sampling, penalties, random generators, devices and dtypes: tokens and cached positions are parameters.
- Rotation of cached keys after a drop (`realign_rotary_suffix`): positions are identified by what produced them, not by their rotary angle.
- IEEE rounding: WAV scaling, resampling, interval times and frame sampling are in exact reals and rationals; the .3f formatting of durations is not part of this model.
- Ellipsis in tuple indexing, plain slices as the only index, and integer indexing of pairs whose A is broadcast along the first dimension: the first is syntax, the others do not mean dense indexing; single entries are `EntriesOfRankOne`.
- Tensors as indices, `contiguous`, `to`, `dtype`, `reshape_as` and `view`: they only forward.
- Concatenation of pairs with more than two dimensions: only its factors are modelled, as `CatPairs`.
- LoraIndexing.SplitBelowRank: such a number that comes to the rows with a rank other than 1, or to the columns, splits both factors by the same sizes; which of those are accepted by chance is not stated.
- LoraPrograms.RunRefines: rank 0 is excluded, because reshape is wrong there (`RankZeroReshapes`), and dimension numbers must be ones torch accepts (`PermuteAcceptsMore`).
- ChunkedDecode.SpeechGenerator.GenerateWithBuffer: the attention window modes inside the speech generator (utils.py 495-700) are not modelled, only its tokens and buffer.
- SessionRuns.EveryDrop: its sessions finish or undo an answer before the next prefill. Restores and steps of a generation that come after later prefills are not among its turns; `DropHitsRound`, which assumes nothing of how the cache came about, holds after them too.
- SessionRuns.LateRestore: no system message between save and restore, and inputs told apart from those in the saved cache, so that equal caches mean equal positions.
- The snapshot's debugging fields, timings and log lines.
- The sliding windows of the duplex decoder (utils.py 1189-2050): the duplex cache appears only as the list of tokens fed during generation.
- The left padding of short waveforms with silence (modeling_minicpmo.py 3473-3478), and the audio itself: the vocoder's windows are modelled, not its samples.
- DuplexDecode.FromReset: assumes that the tokenizer gives listen an id that neither `<|tts_bos|>` nor `<|chunk_eos|>` has, and that the unit end is not a terminator.
- RecorderPool.PublishedComplete: a write that raises counts as finished, as the source's wait does; what raises inside a flush is a parameter of its step.
- Threads the pool starts lazily are workers that idle from the beginning.
- File names, directories, JSON contents, meta.json, subtitles and ffmpeg.
- Wav.MonoRoundTrip: the extensible format tag of WAVE files is read as a failure; the writer never produces it.
- GgmlModel.GGMLModel.Load: where the source goes on for ever, the method stops after two turns for every byte and one more and says so; by `LoadSettled` these are exactly the files on which `load` does not end.
- GgmlRanges.RangesDisjoint: files of 2^62 bytes and more.
- Scores are the four bytes of their float, not its value; parameters, vocabulary conversion and tensor renaming of the GGUF writer are not part of this model.
- gateway.py, worker.py, evaluation and data-generation scripts, registries and configuration.
