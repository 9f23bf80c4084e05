# nanovllm_dots verification

A Dafny model of the inference runtime in `nanovllm_dots`, and proofs that its fast forms compute
what its simple forms define. Tensors are sequences of abstract rows. Projections, feed-forward,
modulation, convolution kernels and LSTM cells are uninterpreted functions; attention is an
uninterpreted function of a query and the ordered key/value pairs it may see, so a mask is a filter on
indices. Every equality below is therefore exact and holds for all weights.

`dafny verify dfyconfig.toml` checks the whole project.

## What is modelled

**Transformer caches.** `transformer.dfy` proves that the key/value pairs of a causal prefix do not
depend on how the prefix was cut up or on what follows it. On top of it stand
- the flow-matching (FM) head: mask, positions and padded batch solvers (`fm_mask`, `fm_solver`), the
  per-time-step list cache (`fm_cache`) and the in-place cache with scratch slots, graph capture and
  switching in mid-stream (`flash_fm_cache`). Each is proved equal to Euler integration over the whole
  unpadded history. What that integration is, is pinned apart from the heads: guidance, time grid and update
  are concrete over rows with addition, subtraction and scaling, and their laws give what guidance and a whole
  decode amount to;
- the paged language model (`packing`, `paged_llm`, `paged_runs`): slot mapping, store, attention
  through a block table or over packed rows, and any interleaving of batched appends over block tables
  that grow, are given back and reissued, or share blocks;
- the patch encoder (`patch_encoder`, `flash_patch_encoder`): strided causal convolution with a carried
  frame, masked caches, regrowth, and rows of mixed length in one buffer.

**Block pool, prefix cache, scheduler.** `block_pool` gives the exact effect of every operation on the pool
as a function on values; `block_manager` and `scheduler` are the classes, proved to do to their objects
what those functions do to the values. The theorems are about the functions: accounting and failed assertions
(`block_accounting`), when the prefix cache is right (`prefix_cache`, `prefix_runs`, `prefix_mixed`),
arrival order (`scheduling`), the limits of a batch and why it is no larger (`schedule_limits`), whole runs of cached and uncached requests and when they fail (`schedule_runs`,
`schedule_steps`, `schedule_faults`), progress (`schedule_progress`, `drive`), the drive loop with everything
its step refuses (`engine_drive`, `engine_preempted`, `engine_admissions`, `engine_runs`) and which physical
slots a batch writes (`write_isolation`). `paged_serving` joins this with the paged memory: what the pool says a block holds is what
its slots mean, so every batch of a trusted scheduler run computes the hidden states of lone runners.

**Streaming vocoder.** `receptive_field` shows the single ceiling over an exact fraction to be the
layer-by-layer reach; `decoder` and `decoder_locality` show that a window of input decodes to the samples of
the whole; `decoder_reach` that no smaller window would do, with weights for every decoder shape that pass on
just the oldest or the newest sample each layer reads; `lstm`, `vocoder_stream` and `step_stream` conclude that the chunks of a stream are the one-shot
waveform.

**Engine and server.** Seeding of a cloned prompt (`fm_seeding`), counters in lockstep (`lockstep`), a whole
request on the cached flow matching with its feedback (`utterance`), encoder rows (`encoder_rows`), the
client/worker protocol (`server`) and the int8 layer over the reals (`int8`).

## What the proofs found

- A stale index entry can give a request the wrong keys and values. The hit test compares a block's own tokens
  but not its stored hash (`nanovllm_dots/engine/block_manager.py:143`), and re-using a block leaves its old
  entry behind. The module's documentation says two equal blocks with different prefixes are never shared;
  `PrefixCache.StaleEntry` is a run of three requests where they are, for every injective hash, the third being
  batched to compute its tail over the wrong block.
  `PrefixCache.AllocateSound` is the exact condition on a pool that is `Honest`, as every pool of the runs below
  is: a new table is right if and only if every lookup resolves to a block whose stored hash is the one looked
  up.
- A block completed after an uncached prompt is chained to a block that was never registered
  (`nanovllm_dots/engine/block_manager.py:178-186`), so its hash does not name what it was computed from.  Prompts
  hold ids and what the engine appends is bytes (`nanovllm_dots/models/dots/engine.py:431`, `:736`), so no prompt
  ever asks for such a block: `PrefixRuns.EngineRunSound` is soundness of mixed runs under that hypothesis, and
  `PrefixMixed.MadeTokenInPrompt` a run that goes wrong without it.
- With `disable_cache`, a prompt whose length is a multiple of the block size fails an assertion at its first
  decode step (`nanovllm_dots/engine/block_manager.py:176`); `BlockAccounting.MayAppendAccounted` shows this to
  be the only case, `ScheduleFaults.UncachedPromptFails` that the scheduler runs into it from a new pool, and
  `ScheduleFaults.PlainRunNeverFails` that it never fails otherwise. Voice-clone requests set `disable_cache`
  (`nanovllm_dots/models/dots/engine.py:435-436`).
- Two equal cache-enabled prompts of whole blocks, served together, raise: the second is wholly cached, is not
  batched at prefill and has no embedding at its first decode
  (`nanovllm_dots/models/dots/engine.py:502-506`, `EngineRuns.EqualPromptsRaise`). Without preemption the drive
  loop completes exactly if this does not happen, and without it exactly if nobody is preempted
  (`EngineDrive.CompletesUnlessCached`, `EnginePreempted.CompletesUnlessPreempted`). A request that meets with both
  can be served after all (`EngineRuns.ServedAfterAll`): what an admission must satisfy is that the request is
  wholly cached exactly if it was prefilled before (`EngineAdmissions.CompletesIfAllFit`).
- On the graphed flow-matching cache without priming, a cloned prompt of more than one patch fails at its first
  patch; text-only requests never do (`Utterance.Speak`).
- A prefill of the patch encoder pads with silence even on a state that already has frames
  (`nanovllm_dots/models/dots/native/patch_encoder.py:170-200`). Its tokens are those of the stream exactly when
  the convolution cannot tell the carried frame from silence (`PatchEncoder.SameDown`), and for every encoder
  its embeddings are those of the stream exactly when the carried frame is silence, as it is before the first
  frame (`PatchEncoder.PrefillGoesOn`). Its token count is the expected one exactly for even patch sizes
  (`PatchEncoder.TokenCount`).
- A schedule that starts with a prompt span seeds the FM history without a hidden before the first latent
  (`FmSeeding.SeedPrefillFm`).
- The exception of an engine step is posted to every subscriber and ends their streams, but the engine keeps
  their requests, and a client that has read its error never cancels
  (`deployment/app/server.py:129-135`, `:183-188`). So the worker goes on with requests nobody listens to
  (`Server.FailureLeavesZombie`); without such an exception it never does (`Server.NoZombies`).
- The left context charged for an activation rounds up what its filters reach
  (`nanovllm_dots/models/dots/native/vocoder/bigvgan.py:712-713`). It is exact, and the window size the least that
  works, when the filter lengths add up to whole samples, as the default ones do; otherwise it can be a frame too
  many (`DecoderReach.ComputedContext`, `DecoderReach.ContextOverestimated`).
- A chunk of another size is refused by the vocoder stream only after the LSTM has advanced
  (`VocoderStream.BigVganStream.StreamStep`).
- The int8 bound is 127 n steps, and the 32-bit accumulator is safe exactly up to 133144 features.

## Model

| member | source | states |
|---|---|---|
| Transformer.PrefixIsCausal | nanovllm_dots/models/dots/native/model.py:57-87 | in any masked pass, rows that see exactly the rows up to themselves get the hidden rows and key/value pairs of the causal pass over those rows alone, at every layer, whatever the other rows are |
| Transformer.CausalPrefix | nanovllm_dots/models/dots/cached_fm.py:124-165 | hidden rows and pairs of a causal prefix do not depend on what is appended to it |
| Transformer.CausalKVSplit | nanovllm_dots/models/dots/cached_fm.py:146-156 | what a layer should cache after an extension is what it cached before followed by the pairs of the new rows alone, for every cut |
| Transformer.CausalStep | nanovllm_dots/models/dots/cached_fm.py:146-165 | a new row of the next layer needs only its own hidden row and the pairs up to it: the step every cache here takes equals the full causal pass |
| FmMask.BuildFmAttnMask | nanovllm_dots/models/dots/native/model.py:57-75 | the mask written in place is, cell by cell, causal on the history prefix, open from the last hidden and the latents to history and latents, self-only on padding; refused exactly for an empty history |
| FmMask.BuildFmPosIds | nanovllm_dots/models/dots/native/model.py:77-87 | positions number the history, go on at the latents and skip the padding; refused exactly for an empty history |
| FmMask.ActiveRowSees | nanovllm_dots/models/dots/native/model.py:57-75 | under that mask the last hidden and every latent row see the whole history, then the whole latent patch, in order and nothing else |
| FmMask.PaddingTransparent | nanovllm_dots/models/dots/native/model.py:57-87 | at every layer, padding of any amount and content changes no hidden row of history or latents |
| FmMask.VelocityIgnoresPadding | nanovllm_dots/models/dots/native/model.py:57-87 | the velocity rows of the padded pass are those of the unpadded pass |
| FmSolver.RunDit | nanovllm_dots/models/dots/batched_fm.py:58-79 | an imperative layer-by-layer pass with an explicit boolean mask is the masked forward pass |
| FmSolver.PackFmInputs | nanovllm_dots/models/dots/engine.py:635-688 | the padded batch holds each request's history, positions and mask at its own length; the common length is the least, of whole buckets if there are any, that every history fits in; an unshared step count, an unshared guidance scale outside MeanFlow, or an empty history is refused, exactly those, in that order |
| FmSolver.GuidedStep | nanovllm_dots/models/dots/batched_fm.py:58-77 | one update with the guidance scale and step size of the first request is the update the request would make itself |
| FmSolver.RowVelocity | nanovllm_dots/models/dots/engine.py:690-709 | a branch of a padded row yields the unpadded velocity of that branch |
| FmSolver.BatchedFlowMatching | nanovllm_dots/models/dots/batched_fm.py:25-80 | the guided Euler loop, run on the one grid and guidance scale of the first request, ends for each request at the state of its lone unpadded loop, because all share those parameters |
| FmSolver.BatchedMeanFlow | nanovllm_dots/models/dots/batched_fm.py:83-126 | the same for the single-branch MeanFlow loop, run on the grid of the first request; requests may differ in guidance there |
| FmSolver.FullFm | nanovllm_dots/models/dots/engine.py:635-709 | packing and solving together: every request gets what it gets alone and unpadded with its own parameters, for any ragged histories and bucket; fails exactly on mixed parameters or an empty history |
| FmSolver.GuidanceEnds | nanovllm_dots/models/dots/batched_fm.py:58-72 | at guidance 0 an evaluation is the pass over the history under the request's condition, at guidance -1 the pass over the unguided history under the null condition, both at time k/n with duration 1/n |
| FmSolver.GuidanceMoves | nanovllm_dots/models/dots/cached_fm.py:278-293 | at any scale the evaluation lies that many times the difference of the branches beyond the guided one, row by row |
| FmSolver.GridIsEven | nanovllm_dots/models/dots/batched_fm.py:103-113 | the grid runs from 0 to 1 in steps of 1/n |
| FmSolver.ConstantDrift | nanovllm_dots/models/dots/batched_fm.py:109-126 | along a constant velocity k steps cover exactly the time up to grid point k, so all of them cover 1 |
| FmSolver.StraightDecode | nanovllm_dots/models/dots/batched_fm.py:25-126 | on a network whose velocities are constant a whole decode adds the guided velocity once to the noise, and MeanFlow the conditioned one |
| Transformer.PositionMatters | nanovllm_dots/models/dots/native/model.py:77-87 | some stack tells any two positions apart, so a layer that ignored them would not do |
| FmCache.FMCache.Extend | nanovllm_dots/models/dots/cached_fm.py:124-165 | a slot that held the pairs of a prefix at every layer holds those of the longer prefix; other time steps are untouched |
| FmCache.FMCache.ActiveForward | nanovllm_dots/models/dots/cached_fm.py:168-197 | the unmasked active pass over the cached prefix yields the latent rows of the full masked pass; the cache is not changed |
| FmCache.CachedFmHead.ExtendForPatch | nanovllm_dots/models/dots/cached_fm.py:248-276 | both caches hold, at every time step, the whole prefix before the last hidden, however much is new |
| FmCache.CachedFmHead.Velocity | nanovllm_dots/models/dots/cached_fm.py:278-293 | the cached evaluation of both branches, combined by guidance, is the full-history evaluation |
| FmCache.CachedFmHead.DecodePatch | nanovllm_dots/models/dots/cached_fm.py:295-309 | one patch from the caches is the full-history Euler integration on the same grid |
| FmCache.DecodeRun | nanovllm_dots/models/dots/cached_fm.py:200-309 | for every run of patches, whatever the chunks by which the history grew, each patch is the full-history patch at that point |
| FlashFmCache.FlashFMCache.PersistRow | nanovllm_dots/models/dots/flash_cached_fm.py:147-164 | an extension at `seqlens` makes the buffer row hold the longer prefix at that layer, whatever stale pairs lie past it, and writes nowhere before `seqlens` |
| FlashFmCache.FlashFMCache.ScratchRow | nanovllm_dots/models/dots/flash_cached_fm.py:147-164 | an active pass writes only past `seqlens` and computes the active rows of the full masked pass |
| FlashFmCache.FlashFMCache.EncodeRow | nanovllm_dots/models/dots/flash_patch_encoder.py:104-139 | all layers of an extension of one buffer row compute the tail of the causal pass, persist its pairs and leave all other rows and slots alone |
| FlashFmCache.FlashFMCache.ActiveRow | nanovllm_dots/models/dots/flash_cached_fm.py:167-180 | all layers of an active pass yield the full-history velocity rows while the cached prefix stays |
| FlashFmCache.FlashFmHead.RoomForActive | nanovllm_dots/models/dots/flash_cached_fm.py:204-230 | the fixed capacity leaves room for the active rows behind any prefix the history buffer can hold |
| FlashFmCache.FlashFmHead.ExtendAll | nanovllm_dots/models/dots/flash_cached_fm.py:258-278 | re-running an extension at the same `seqlens`, as capture does, changes nothing that is held; both branches and all time steps end at the longer prefix |
| FlashFmCache.FlashFmHead.PrimeTo | nanovllm_dots/models/dots/flash_cached_fm.py:280-315 | a bulk extension in mid-generation leaves exactly the state of caching from the first patch |
| FlashFmCache.FlashFmHead.ExtendForPatch | nanovllm_dots/models/dots/flash_cached_fm.py:317-348 | succeeds exactly if the history grew by nothing or one stride, and then holds the prefix and the active rows; capture warm-ups do not show |
| FlashFmCache.FlashFmHead.Velocity | nanovllm_dots/models/dots/flash_cached_fm.py:166-181 | the evaluation over the in-place buffers is the full-history guided evaluation |
| FlashFmCache.FlashFmHead.DecodePatchEager | nanovllm_dots/models/dots/flash_cached_fm.py:183-188 | the eager head decodes the full-history patch for any amount of new rows |
| FlashFmCache.FlashFmHead.DecodePatch | nanovllm_dots/models/dots/flash_cached_fm.py:350-360 | the graphed head decodes the full-history patch, or refuses exactly when the extension does |
| FlashFmCache.FmStream.NextPatch | nanovllm_dots/models/dots/engine.py:559-613 | decoding switches from full history to cache at a threshold; every patch is the full-history one, and the only failure is an unprimed first extension neither empty nor one stride long |
| FlashFmCache.KvCacheRun | nanovllm_dots/models/dots/engine.py:559-613 | the same over any run of patches from the start of a stream |
| PagedLlm.BatchedPagedLLM.StoreKvCache | nanovllm_dots/layers/attention.py:34-48 | after the scatter each mapped slot of that layer holds its pair and no other cell changed |
| PagedLlm.BatchedPagedLLM.AttendSequence | nanovllm_dots/layers/attention.py:68-98 | attention through the block table and attention over the packed pairs both compute the causal layer of the sequence's own new rows |
| PagedLlm.BatchedPagedLLM.RunLayer | nanovllm_dots/layers/attention.py:68-98 | storing then attending takes every sequence of the batch one layer on, and changes no slot the batch does not write |
| PagedLlm.BatchedPagedLLM.RunLlm | nanovllm_dots/models/dots/batched_llm.py:145-175 | all layers: packed hidden states are the lone ones of every sequence; the new rows are resident at every layer |
| PagedLlm.BatchedPagedLLM.PackVarlen | nanovllm_dots/models/dots/batched_llm.py:109-158 | packing fails exactly if some block table is too short, else rows, positions, slots and offsets are those of each sequence one after the other |
| PagedLlm.BatchedPagedLLM.AppendBatch | nanovllm_dots/models/dots/batched_llm.py:71-175 | each sequence gets the hidden states of a lone append; the meaning of every slot outside the written ones is kept; raises exactly on a short table, changing nothing |
| PagedLlm.BatchedPagedLLM.DecodeBatch | nanovllm_dots/models/dots/batched_llm.py:177-244 | the decode path with one row per sequence gives the same hidden states, hence agrees with the varlen path |
| PagedRuns.PagedLLMRunner.Append | nanovllm_dots/models/dots/paged_llm.py:91-140 | the single-sequence runner returns the causal pass over its whole history, cut at the new rows; raises exactly when the cache is too small |
| PagedRuns.RunBatches | nanovllm_dots/models/dots/batched_llm.py:71-244 | for every run of batches, each over its own block tables, where each resident row was written before with the same meaning: every batch goes well exactly if its tables are long enough and then gives lone hidden states |
| PagedRuns.LiveRunIsTraced | nanovllm_dots/models/dots/batched_llm.py:71-175 | tables that grow, shrink, are given back, reissued or shared keep every row a live sequence counts on, if what a batch writes is no live row of another sequence or means the same there |
| PagedRuns.Interleave | nanovllm_dots/models/dots/batched_llm.py:71-244 | for every interleaving of batched appends under such tables each sequence gets, at every append, the hidden states of a lone runner on its own embeddings |
| PagedServing.ScheduleRelabels | nanovllm_dots/engine/block_manager.py:99-188 | a `schedule` call changes what a block is said to hold only where the batch it returns writes exactly that |
| PagedServing.BatchCoherent | nanovllm_dots/models/dots/batched_llm.py:71-175 | if every slot holds what its block is said to hold, the batch reads the right rows of every sequence, shared blocks included |
| PagedServing.BatchStores | nanovllm_dots/models/dots/batched_llm.py:71-244 | and afterwards every slot again holds what its block is said to hold |
| PagedServing.NewPoolStores | nanovllm_dots/engine/block_manager.py:90-98 | on a new pool they trivially do, so a run may start there |
| PagedServing.ServeRun | nanovllm_dots/models/dots/engine.py:477-557 | scheduler, prefix cache and paged memory together: in every run of arrivals, cancels and steps of cached and uncached requests with trusted lookups, each batched request gets the hidden states of a lone runner on its own tokens, up to the step where `schedule` fails, if it does |
| ReceptiveField.FirstSampleReach | nanovllm_dots/models/dots/native/vocoder/bigvgan.py:745-770 | composing the layers' reaches by nested floors, the first sample of frame f reads back to f minus the left context exactly |
| ReceptiveField.FrameReach | nanovllm_dots/models/dots/native/vocoder/bigvgan.py:745-770 | no sample of a frame reads before that, and the bound is attained |
| ReceptiveField.RightFrames | nanovllm_dots/models/dots/native/vocoder/bigvgan.py:745-770 | the frames all of whose samples are right when input is known from `lo` on are exactly those the left context past `lo` |
| ReceptiveField.SingleCeilingIsNested | nanovllm_dots/models/dots/native/vocoder/bigvgan.py:745-770 | for every list of stages the one ceiling over the exact fraction equals the nested stage-by-stage reach |
| Decoder.StreamLeftContext | nanovllm_dots/models/dots/native/vocoder/bigvgan.py:671-770 | the accumulating loop over a decoder's modules computes the left context of its composed layers |
| Decoder.StageContext | nanovllm_dots/models/dots/native/vocoder/bigvgan.py:759-765 | the context of a stage is at least that of each of its parallel blocks and is that of one of them |
| DecoderLocality.ConvAgrees | nanovllm_dots/models/dots/native/vocoder/bigvgan.py:671-681 | a convolution on a window agrees with the whole signal from its context on |
| DecoderLocality.UpAgrees | nanovllm_dots/models/dots/native/vocoder/bigvgan.py:683-698 | a transposed convolution of stride u needs one input sample more on the left |
| DecoderLocality.ActAgrees | nanovllm_dots/models/dots/native/vocoder/alias_free_resample.py:42-58 | up-sampling, non-linearity and down-sampling of an anti-aliased activation agree from what its two filters reach on, at every phase |
| DecoderLocality.ActContextCovers | nanovllm_dots/models/dots/native/vocoder/bigvgan.py:700-713 | the context charged for an activation is the least number of samples both filters fit in, at most one more than they read, and what they read exactly if their lengths add up to whole samples |
| DecoderLocality.DecodeLength | nanovllm_dots/models/dots/native/vocoder/bigvgan.py:640-665 | the decoder makes a fixed number of samples per frame |
| DecoderLocality.WindowDecodesExactly | nanovllm_dots/models/dots/native/vocoder/bigvgan.py:640-781 | decoding a window gives the samples of decoding the whole, exactly, for frames past what it knows by what the layers read and a lookahead before its end |
| DecoderLocality.ExactIsBelow | nanovllm_dots/models/dots/native/vocoder/bigvgan.py:745-770 | the left context as computed is never less than what the layers read |
| DecoderLocality.WindowDecodes | nanovllm_dots/models/dots/native/vocoder/bigvgan.py:640-781 | so the same holds a left context, as computed, past what the window knows |
| DecoderReach.Centred | nanovllm_dots/models/dots/native/vocoder/bigvgan.py:564-573 | the first convolution has kernel 2 lookahead + 1 and frame t reads exactly frames t - lookahead to t + lookahead |
| DecoderReach.OldestSample | nanovllm_dots/models/dots/native/vocoder/bigvgan.py:640-665 | for every decoder there is one of its shape whose sample n is the very input frame that composing the reaches says it reads first |
| DecoderReach.NewestSample | nanovllm_dots/models/dots/native/vocoder/bigvgan.py:640-669 | and one whose sample n is the input a lookahead past the frame n belongs to |
| DecoderReach.WindowIsLeast | nanovllm_dots/models/dots/native/vocoder/bigvgan.py:667-781 | a window suffices for every decoder of the shape if and only if it knows as many frames before as the layers read and a lookahead after |
| DecoderReach.ComputedContext | nanovllm_dots/models/dots/native/vocoder/bigvgan.py:700-770 | the computed left context always suffices, and is the least that does if every activation's filters come to whole samples, as the default ones do |
| DecoderReach.ContextOverestimated | nanovllm_dots/models/dots/native/vocoder/bigvgan.py:700-713 | otherwise it need not be: filters of 3 and 2 samples at ratio 2 make it a frame more than is read |
| DecoderReach.ActPasses | nanovllm_dots/models/dots/native/vocoder/alias_free_resample.py:42-58 | an activation whose filters pass their oldest or newest read gives its non-linearity of that sample |
| DecoderReach.ResidualPath | nanovllm_dots/models/dots/native/vocoder/bigvgan.py:540-547 | a block that keeps only its residuals passes every sample on |
| Lstm.LstmSplit | nanovllm_dots/models/dots/native/vocoder/bigvgan.py:162-168 | any cut of the input gives the same outputs and final state, layer by layer |
| Lstm.FrameStep | nanovllm_dots/models/dots/native/vocoder/bigvgan.py:190-205 | each output is the hidden state after its own frame, and the next state comes from it and the state before |
| Lstm.LastLayer | nanovllm_dots/models/dots/native/vocoder/bigvgan.py:178-209 | each layer reads the outputs of the layers below it |
| Lstm.EchoRun | nanovllm_dots/models/dots/native/vocoder/bigvgan.py:190-209 | layers that echo their input give every frame back in its place, so no output is early or late |
| Lstm.StreamStep | nanovllm_dots/models/dots/native/vocoder/bigvgan.py:170-214 | the frame-by-frame streaming loop equals one pass from the saved state |
| VocoderStream.AppendInput | nanovllm_dots/models/dots/native/vocoder/bigvgan.py:932-973 | scatter, gather and mask turn the window of what was fed into the window of what is now fed, silence behind it; a chunk not smaller than the window is refused |
| VocoderStream.ContextPositive | nanovllm_dots/models/dots/native/vocoder/bigvgan.py:745-781 | the left context is at least 1, so a window is always larger than a chunk and that refusal cannot happen in a stream |
| VocoderStream.StablePrefix | nanovllm_dots/models/dots/native/vocoder/bigvgan.py:1024-1053 | frames whose lookahead has arrived decode the same whatever comes later |
| VocoderStream.StepDelivers | nanovllm_dots/models/dots/native/vocoder/bigvgan.py:1024-1053 | after any history, the stable audio so far is what was delivered plus the cut of the new window, and a full window holds exactly the left context before the first new frame |
| VocoderStream.FlushDelivers | nanovllm_dots/models/dots/native/vocoder/bigvgan.py:1024-1067 | the window still covers the last delivered frame at the flush and its cut completes the one-shot audio |
| VocoderStream.InputPaths | nanovllm_dots/models/dots/native/vocoder/bigvgan.py:162-168 | the decoder's input is the LSTM's output frame by frame, or what the LSTM was given, as the skip connection keeps the one or the other |
| VocoderStream.BigVganStream.SliceAudio | nanovllm_dots/models/dots/native/vocoder/bigvgan.py:1024-1053 | which frames are cut, when nothing is, and exactly when the window is too short |
| VocoderStream.BigVganStream.StreamStep | nanovllm_dots/models/dots/native/vocoder/bigvgan.py:1055-1063 | delivers exactly the newly stable audio; fails only on a changed chunk size, never on a short window, and that failure has already advanced the LSTM |
| VocoderStream.BigVganStream.Flush | nanovllm_dots/models/dots/native/vocoder/bigvgan.py:1065-1067 | never fails, and everything delivered is then the one-shot waveform of everything fed |
| StepStream.Request.StepStream | nanovllm_dots/models/dots/engine.py:855-894 | a request that stopped gets the rest of its waveform and one final `done`; one that did not gets only audio |
| StepStream.RunRequest | nanovllm_dots/models/dots/engine.py:835-894 | for any patches per step, streaming and not, vocoding or silent: the events carry the same waveform and end with the only `done` |
| StepStream.WaveformLength | nanovllm_dots/models/dots/engine.py:855-894 | the waveform of an utterance has hop samples per latent frame, which is what silent mode sends |
| BlockPool.AllocateAccounted | nanovllm_dots/engine/block_manager.py:111-117 | taking a free block keeps free list, used set and reference counts a partition that counts the running tables |
| BlockPool.ShareAccounted | nanovllm_dots/engine/block_manager.py:145-149 | sharing a used block keeps the pool accounted for with one more reference |
| BlockPool.RegisterAccounted | nanovllm_dots/engine/block_manager.py:150-157 | an index entry changes no accounting, also when it overwrites another |
| BlockPool.DropAccounted | nanovllm_dots/engine/block_manager.py:160-167 | dropping one reference frees the block exactly when it was the last, and stays accounted for |
| BlockAccounting.LastBlockLength | nanovllm_dots/engine/sequence.py:113-123 | the last block is full exactly when the length is a multiple of the block size |
| BlockAccounting.HitIsRegistered | nanovllm_dots/engine/block_manager.py:137-144 | an index hit is on a block of the pool that is registered and full, so no lookup goes astray |
| BlockAccounting.AllocUptoAccounted | nanovllm_dots/engine/block_manager.py:127-158 | the allocation loop over any prompt never fails with enough free blocks; hits come first, then only misses; all references are counted |
| BlockAccounting.AllocateAccountedFor | nanovllm_dots/engine/block_manager.py:127-158 | after `allocate` the sequence is ready for one more token, its new blocks in nobody else's table |
| BlockAccounting.DropAllAccounted | nanovllm_dots/engine/block_manager.py:160-167 | `deallocate` removes exactly the references of one table and touches no block still referenced |
| BlockAccounting.MayAppendAccounted | nanovllm_dots/engine/block_manager.py:169-188 | `may_append` fails an assertion if and only if the sequence is uncached with a prompt of whole blocks at its first new token; otherwise it leaves a block of its own for the token |
| BlockManagers.Sequence.AppendToken | nanovllm_dots/engine/sequence.py:125-127 | the sequence grows by that token and nothing else changes |
| BlockManagers.BlockManager.AllocateBlock | nanovllm_dots/engine/block_manager.py:111-117 | takes that block off the free list or fails exactly where assertion or removal would |
| BlockManagers.BlockManager.Allocate | nanovllm_dots/engine/block_manager.py:127-158 | the loop over objects does to the pool and the sequence exactly what the allocation function does to their values, failures included |
| BlockManagers.BlockManager.Deallocate | nanovllm_dots/engine/block_manager.py:160-167 | the same for giving a table back |
| BlockManagers.BlockManager.MayAppend | nanovllm_dots/engine/block_manager.py:172-188 | the same for preparing the last token's slot |
| PrefixCache.ChainInjective | nanovllm_dots/engine/block_manager.py:99-109 | under an injective block hash, equal chain values mean the same number of blocks and the same whole prefix |
| PrefixCache.HitIsSound | nanovllm_dots/engine/block_manager.py:140-149 | a hit holds this sequence's prefix if and only if the stored hash of the block is the one looked up |
| PrefixCache.AllocateSound | nanovllm_dots/engine/block_manager.py:127-158 | on a pool whose registered blocks are under their own chain, those ending with a token the engine made excepted, a new table that looks up no such block holds exactly the sequence's own history if and only if no lookup resolved to a block with another stored hash |
| PrefixCache.AllocateUncached | nanovllm_dots/engine/block_manager.py:127-158 | the table of an uncached prompt always holds its own history, and no block in use changes its hash |
| PrefixCache.MayAppendSound | nanovllm_dots/engine/block_manager.py:172-188 | a decode step keeps that, cached or not; a completed block is registered under the sequence's own chain, or ends with a token the engine made |
| PrefixCache.StaleEntry | nanovllm_dots/engine/block_manager.py:111-149 | the hypothesis is needed: serving `a b x`, `c b`, `a b z` from three blocks, whatever the injective hash, batches the third request, only its tail left to compute, over a block computed from `c b` |
| PrefixRuns.ScheduleSound | nanovllm_dots/engine/scheduler.py:107-154 | one `schedule` call over cached and uncached requests keeps every running table right if its admissions are trusted |
| PrefixRuns.RunSound | nanovllm_dots/engine/block_manager.py:99-188 | in every run of arrivals, steps and cancels of cached and uncached requests, if lookups find the hash they look for and ask for no block that ends with a token the engine made, every running table is one of blocks computed from its own sequence's history |
| PrefixRuns.EngineRunSound | nanovllm_dots/models/dots/engine.py:431-437 | so it is if those who wait have only prompt ids and all that is appended is made by the engine: then finding the hash looked for is enough |
| PrefixRuns.CachedRunSound | nanovllm_dots/engine/block_manager.py:99-188 | a run of cache-enabled requests alone needs no more than that either, whatever is appended, and never fails |
| PrefixMixed.MadeTokenInPrompt | nanovllm_dots/engine/block_manager.py:178-186 | the hypothesis is needed: after an uncached prompt `u v` and a token `t`, a cached prompt `v t z` finds the very hash it looks up, on a block that holds `v t` after `u` |
| PrefixRuns.FullBlockHolds | nanovllm_dots/engine/block_manager.py:99-188 | hence each full computed block i of a running sequence was computed from exactly its tokens [0, (i+1) block_size) |
| Scheduling.PrefillOrder | nanovllm_dots/engine/scheduler.py:107-138 | prefill moves the oldest waiting requests to the end of running and batches only those |
| Scheduling.RoomOrder | nanovllm_dots/engine/scheduler.py:143-149 | making room preempts the youngest running requests, in order, to the front of waiting, the candidate itself last |
| Scheduling.DecodeOrder | nanovllm_dots/engine/scheduler.py:140-154 | a decode pass batches the oldest, at most max_num_seqs, and preempts only the youngest |
| Scheduling.ScheduleIsFcfs | nanovllm_dots/engine/scheduler.py:107-154 | running followed by waiting is unchanged through any number of preemptions; a decode batch is a prefix of running; preempted requests go in order before those waiting |
| ScheduleLimits.PrefillLimits | nanovllm_dots/engine/scheduler.py:108-138 | a prefill batch has at most max_num_seqs sequences with at most max_num_batched_tokens to compute between them, and the pass stops only when nobody waits, the batch is full, the head would break the budget, or the pool is short of blocks for it |
| ScheduleLimits.DecodeLimits | nanovllm_dots/engine/scheduler.py:140-152 | a decode batch has at most max_num_seqs sequences, and fewer only if nobody is left running |
| ScheduleLimits.ScheduleWithinLimits | nanovllm_dots/engine/scheduler.py:107-154 | both for what one call returns, stated on its batch and queues |
| ScheduleLimits.PrefillFirst | nanovllm_dots/engine/scheduler.py:108-138 | a head that fits the budget and the free blocks is prefilled first, whoever runs |
| ScheduleLimits.RoomIsLeast | nanovllm_dots/engine/scheduler.py:143-149 | making room preempts the fewest of the youngest: with one fewer evicted there would be none |
| ScheduleRuns.ScheduleGood | nanovllm_dots/engine/scheduler.py:107-154 | on a reachable state `schedule` fails if and only if the turn comes to a sequence that `may_append` asserts against; otherwise tables cover their tokens and written blocks are the writer's own |
| ScheduleRuns.FaultyHeadFails | nanovllm_dots/engine/block_manager.py:172-188 | the turn does come to such a sequence if it is the oldest running one, nothing waits and there is room |
| ScheduleSteps.RunKeeps | nanovllm_dots/engine/scheduler.py:84-169 | over every run of arrivals, cached or not, cancels and steps: it fails exactly at the first step whose turn comes to such a sequence; until then reference counts are exact and the queue order is the arrival list without those gone |
| ScheduleFaults.PlainRunNeverFails | nanovllm_dots/engine/block_manager.py:169-188 | no run fails in which no uncached request is admitted at a multiple of the block size |
| ScheduleFaults.CachedRunNeverFails | nanovllm_dots/engine/block_manager.py:169-188 | in particular no run of cache-enabled requests |
| ScheduleFaults.UncachedPromptFails | nanovllm_dots/models/dots/engine.py:433-437 | from a new pool: any uncached prompt of whole blocks arrives, is stepped once, and the next `schedule` fails |
| ScheduleSteps.StepOk | nanovllm_dots/engine/scheduler.py:107-161 | one step with one append per batched sequence and any finishes fails exactly in that case, and otherwise keeps all that |
| ScheduleSteps.StepServes | nanovllm_dots/engine/scheduler.py:107-169 | those of the batch that stop are gone after the step and nobody else; whoever stays has one token more if it was in the batch and is as it was if not |
| ScheduleSteps.LeaveOk | nanovllm_dots/engine/scheduler.py:91-105 | whoever finishes or is cancelled leaves the others' blocks, state and order alone |
| ScheduleProgress.FreeCount | nanovllm_dots/engine/block_manager.py:119-125 | free blocks are at least the pool less the table entries |
| ScheduleProgress.OldestHasRoom | nanovllm_dots/engine/scheduler.py:141-148 | the oldest running sequence is never preempted if it fits the pool alone |
| ScheduleProgress.SchedulerProgresses | nanovllm_dots/engine/scheduler.py:107-154 | if everybody fits the budget and, alone, the pool, `schedule` returns a non-empty batch while work remains, or fails in that one way |
| ScheduleProgress.NobodyIsPreempted | nanovllm_dots/engine/scheduler.py:107-161 | with a pool covering the sum of needs a call preempts nobody: waiting only loses a prefix |
| Drive.TurnDecreases | nanovllm_dots/models/dots/engine.py:808-822 | one turn of the drive loop on the scheduler has a batch and strictly lowers the sum of tokens to come, or fails the assertion |
| Drive.TurnServes | nanovllm_dots/models/dots/engine.py:808-822 | nobody leaves the drive loop before its cap: every running request is there after the turn, with its token if it was batched |
| EngineDrive.NobodyIsEverPreempted | nanovllm_dots/engine/scheduler.py:140-161 | with a pool covering the sum of everybody's maximal block counts nobody is preempted in the whole drive loop |
| EngineDrive.CompletesUnlessCached | nanovllm_dots/models/dots/engine.py:485-513 | without preemption, the loop completes if and only if no request is wholly cached when it is admitted; otherwise the missing embedding raises |
| EngineDrive.CoveredCompletesUnlessCached | nanovllm_dots/models/dots/engine.py:485-513 | with such a pool that is the exact condition outright |
| EngineDrive.CoveredCompletesUnlessWhole | nanovllm_dots/models/dots/engine.py:485-513 | with such a pool the loop completes if, when it starts, no cache-enabled prompt of whole blocks waits |
| EnginePreempted.CompletesUnlessPreempted | nanovllm_dots/models/dots/engine.py:485-496 | while nothing is wholly cached at admission, the loop completes if and only if nobody is preempted |
| EngineDrive.CompletesUnlessRefused | nanovllm_dots/models/dots/engine.py:477-513 | in every case the loop completes if and only if no turn is refused, and never stalls |
| EngineAdmissions.AllocateWhollyCached | nanovllm_dots/engine/block_manager.py:127-158 | an admission is served by the cache alone exactly if every block of it is full and found in the pool as it stands, under its chain and with its tokens |
| EngineAdmissions.PrefilledOnce | nanovllm_dots/models/dots/engine.py:489-496 | a turn that admits a request which was prefilled before and is not wholly cached is refused |
| EngineAdmissions.FittingTurn | nanovllm_dots/models/dots/engine.py:477-513 | a turn whose admissions are wholly cached exactly if prefilled before is not refused, whoever was or is preempted, unless it reaches the assertion |
| EngineAdmissions.CompletesIfAllFit | nanovllm_dots/models/dots/engine.py:808-822 | so the loop completes, with any preemptions, if every admission is of that kind |
| EngineDrive.RunAll | nanovllm_dots/models/dots/engine.py:808-822 | the loop ends after at most as many steps as tokens to come, with both queues empty or at the first refusal, never for want of a batch |
| EngineDrive.NewEngineSane | nanovllm_dots/models/dots/engine.py:808-822 | it may start on a new pool with any distinct prompts that fit at their caps |
| EngineRuns.EqualPromptsRaise | nanovllm_dots/models/dots/engine.py:502-506 | two equal cache-enabled prompts of one block raise the missing embedding, however large the pool |
| EngineRuns.ServedAfterAll | nanovllm_dots/models/dots/engine.py:485-513 | a request both wholly cached at admission and preempted before its decode turn is served after all, so neither alone decides |
| WriteIsolation.TableCovers | nanovllm_dots/models/dots/batched_llm.py:130-143 | the block table of a batched sequence covers all its tokens, so the too-short error cannot occur |
| WriteIsolation.PrefillSlotsDiffer | nanovllm_dots/models/dots/batched_llm.py:130-143 | the physical slots a prefill writes are pairwise different, within and across sequences |
| WriteIsolation.PrefillSparesRunning | nanovllm_dots/models/dots/batched_llm.py:130-143 | none of them is a slot of any sequence that was already running |
| WriteIsolation.DecodeSparesRunning | nanovllm_dots/models/dots/batched_llm.py:198-211 | no slot a decode writes belongs to another running sequence, unless the writer's prompt came wholly from the cache |
| Schedulers.Scheduler.Add | nanovllm_dots/engine/scheduler.py:84-89 | a request joins the end of the waiting queue, all else unchanged |
| Schedulers.Scheduler.MakeRoom | nanovllm_dots/engine/scheduler.py:143-149 | the inner preemption loop on sequence objects does what its value-level function does; no object is lost or doubled |
| Schedulers.Scheduler.PrefillPass | nanovllm_dots/engine/scheduler.py:108-138 | the prefill loop on objects refines its value-level function, failures included |
| Schedulers.Scheduler.DecodePass | nanovllm_dots/engine/scheduler.py:140-152 | the decode loop on objects refines its value-level function; batch, running and waiting keep the object order |
| Schedulers.Scheduler.Schedule | nanovllm_dots/engine/scheduler.py:107-154 | `schedule` on objects refines the value-level scheduler, so every theorem above holds of it; running followed by waiting is the same list of objects |
| Schedulers.Scheduler.Finish | nanovllm_dots/engine/scheduler.py:163-169 | a finished sequence leaves running and returns its blocks |
| Schedulers.Scheduler.Cancel | nanovllm_dots/engine/scheduler.py:91-105 | a request leaves by id from whichever queue it is in; an unknown id changes nothing |
| PatchEncoder.TokenCount | nanovllm_dots/models/dots/native/patch_encoder.py:170-200 | a pass over whole patches has the expected number of tokens if and only if the patch size is even |
| PatchEncoder.DownSplit | nanovllm_dots/models/dots/native/patch_encoder.py:220-235 | the strided causal convolution may be cut at any even place if the last frame is carried over |
| PatchEncoder.DownReads | nanovllm_dots/models/dots/native/patch_encoder.py:220-235 | token t is made of the two neighbouring frames 2t - 1 and 2t, the carried frame before the first |
| PatchEncoder.RegroupAt | nanovllm_dots/models/dots/native/patch_encoder.py:202-218 | embedding i is made of exactly the i-th group of tokens, and an incomplete group makes none |
| PatchEncoder.SameDown | nanovllm_dots/models/dots/native/patch_encoder.py:170-200 | the tokens of a prefill that starts from silence are those of the stream exactly if the convolution cannot tell the carried frame from silence |
| PatchEncoder.PrefillGoesOn | nanovllm_dots/models/dots/native/patch_encoder.py:170-200 | for every encoder the embeddings of a prefill are the stream's if and only if the carried frame is silence, as before the first frame: a caller can look at the tail |
| PatchEncoder.EmbeddingsSplit | nanovllm_dots/models/dots/native/patch_encoder.py:202-226 | the embeddings of a longer stream are those of the shorter one followed by what one cached patch step computes |
| PatchEncoder.DecodeState.Prefill | nanovllm_dots/models/dots/native/patch_encoder.py:170-200 | each refusal exactly when it applies; else the caches hold the pass over the old tokens followed by those made of the prompt after silence, with their embeddings; these are the stream's exactly if the convolution cannot tell |
| PatchEncoder.DecodeState.EnsureCapacity | nanovllm_dots/models/dots/native/model.py:157-194 | regrowing to whole patches keeps everything cached |
| PatchEncoder.DecodeState.DecodeStep | nanovllm_dots/models/dots/native/layers.py:210-249 | writing the new pairs by index and attending over the whole masked capacity computes the causal tail |
| PatchEncoder.DecodeState.DecodePatch | nanovllm_dots/models/dots/native/patch_encoder.py:202-218 | a patch yields the embedding of its tokens after all tokens so far, which on a stream is the next one of the one-pass encoder, state regrowth included; a patch of another length is refused |
| PatchEncoder.EncodeStream | nanovllm_dots/models/dots/native/patch_encoder.py:170-218 | a prompt in one pass, then any number of patches: the embeddings of one pass over the concatenation, each error exactly when it applies |
| FlashPatchEncoder.FlashEncoder.ResetRow | nanovllm_dots/models/dots/flash_patch_encoder.py:65-70 | a reset row has an empty history whatever was left in it; other rows keep theirs |
| FlashPatchEncoder.FlashEncoder.Prefill | nanovllm_dots/models/dots/flash_patch_encoder.py:73-102 | a prompt in one row gives the one-pass embeddings, other rows untouched; refused exactly when too long |
| FlashPatchEncoder.FlashEncoder.DecodePatch | nanovllm_dots/models/dots/flash_patch_encoder.py:104-139 | each of several distinct rows at mixed lengths gets the embedding of an encoder of its own; other rows keep their history |
| FmSeeding.SeedPrefillFm | nanovllm_dots/models/dots/engine.py:440-458 | the cursor loop appends exactly hidden[span-1], latent for each prompt span and then the last hidden when the schedule does not start with audio; when it does, the first latent has no hidden before it |
| FmSeeding.FirstIsAudio | nanovllm_dots/models/dots/native/model.py:123-139 | that case is a schedule whose first span is at position 0 |
| FmSeeding.ItemRows | nanovllm_dots/models/dots/engine.py:440-458 | seeding leaves the strides of the prompt and one row more, or the strides alone if the schedule starts with audio |
| Lockstep.AddRequest | nanovllm_dots/models/dots/engine.py:298-388 | a request is refused exactly for a cloned prompt without the flash encoder, without a target span, with text between target spans, or, with the flash encoder, with more patches than its rows hold |
| Lockstep.Request.Step | nanovllm_dots/models/dots/engine.py:515-557 | a step of a live request never overflows history or encoder, and the cacheable prefix at the flow matching is whole strides; stops exactly by eos or cap; refused exactly with nothing to prefill |
| Utterance.KvCacheFits | nanovllm_dots/models/dots/flash_cached_fm.py:326-331 | the history lengths of a driven request meet every demand of the graphed head after the first extension, and that of the first exactly for text-only requests or one prompt patch with its hidden |
| Utterance.Speak | nanovllm_dots/models/dots/engine.py:515-613 | a whole request on the cached flow matching, each patch feeding the next hidden, yields the patches of the request decoded over its whole history, as many as the stop rule says; it fails exactly if unprimed with a longer prompt |
| Utterance.UnguidedHistory | nanovllm_dots/models/dots/engine.py:440-458 | at every patch the unguided history is the guided one with every hidden nulled and the same latents |
| Utterance.LastIsHidden | nanovllm_dots/models/dots/engine.py:515-557 | the hidden a patch is decoded for is the last row of the guided history |
| Lockstep.LastPatchIsFirst | nanovllm_dots/models/dots/engine.py:779-782 | the last patch is the first at which eos or cap holds; every one before goes on |
| Lockstep.Request.Cap | nanovllm_dots/models/dots/engine.py:780 | the most patches a request may emit is at most both the schedule's spans and its own limit, and is one of the two |
| Lockstep.Generate | nanovllm_dots/models/dots/engine.py:743-782 | a request ends at the first patch the model ends or the cap names, all counters in step; the cacheable prefix starts at the prompt's strides and grows by exactly one stride from call to call |
| EncoderRows.ClaimKeeps | nanovllm_dots/models/dots/engine.py:752-761 | claiming the last free row keeps free and held rows a duplicate-free partition |
| EncoderRows.ReleaseKeeps | nanovllm_dots/models/dots/engine.py:460-473 | so does returning one |
| EncoderRows.RowPool.Claim | nanovllm_dots/models/dots/engine.py:752-761 | a claimed row has an empty history, everybody else keeps theirs; fails exactly with no free row |
| EncoderRows.RowPool.AddClone | nanovllm_dots/models/dots/engine.py:390-405 | a cloned prompt is encoded in a fresh row; when that fails the row is not leaked |
| EncoderRows.RowPool.Release | nanovllm_dots/models/dots/engine.py:460-473 | the row of a finished or cancelled request is free again, other histories stay |
| EncoderRows.RowPool.StepBatch | nanovllm_dots/models/dots/engine.py:743-766 | a batched step gives each request its own encoder's embedding at mixed lengths, the only failure being an empty row pool |
| Server.NoZombies | deployment/app/server.py:123-226 | over every interleaving, step failures included, each request the engine holds has a subscriber, a queued cancel, a client about to queue one, or was failed by a step's exception |
| Server.NobodyForgotten | deployment/app/server.py:123-226 | a client that reads and has no last event has its request in the intake, in the engine, or a done event still to be dispatched, and is subscribed |
| Server.Delivery | deployment/app/server.py:165-226 | what a client has been posted and what is still to be dispatched for it are exactly the events produced for it, in order, while it listens; afterwards a prefix of them |
| Server.FailedAre | deployment/app/server.py:129-135 | a run in which no step raises fails nobody |
| Server.FailureLeavesZombie | deployment/app/server.py:129-188 | the exception clause is needed: in this run the engine is left with a request that nobody listens to and nobody will cancel |
| Server.OneLastEvent | deployment/app/server.py:165-187 | each client is posted at most one last event, nothing after it, and by then the subscription is gone, and the request from the engine unless that event was the exception of a step |
| Server.DisconnectedIsFreed | deployment/app/server.py:220-226 | a client that is gone leaves nothing in the engine once the intake is drained, unless it was failed by the exception of a step |
| Int8.ClampIsNothing | nanovllm_dots/models/dots/int8_dit.py:38-58 | clamping never changes a rounded value |
| Int8.GridIsFilled | nanovllm_dots/models/dots/int8_dit.py:38-58 | the largest magnitude of a row lands on 127 or -127, unless the scale is at its floor |
| Int8.DequantNear | nanovllm_dots/models/dots/int8_dit.py:38-58 | a dequantised entry is within half a step of the original |
| Int8.ErrorBound | nanovllm_dots/models/dots/int8_dit.py:50-60 | for every length n the dequantised product is within 127 n steps of the true dot product |
| Int8.AccumulatorBound | nanovllm_dots/models/dots/int8_dit.py:59 | the accumulator stays within 127^2 n |
| Int8.AccumulatorFits | nanovllm_dots/models/dots/int8_dit.py:59 | a 32-bit accumulator suffices for every input if and only if n is at most 133144 |
| Int8.Linear.Forward | nanovllm_dots/models/dots/int8_dit.py:50-65 | padding to 17 rows and cutting them off gives each row the output it has by itself |
| Int8.LayerError | nanovllm_dots/models/dots/int8_dit.py:38-65 | each output of the quantised layer, bias included, is within that distance of the float layer's |

## Left out

Assumptions of the model:

- Numerics: rounding, bf16, GPU kernels, graph capture and compilation; a captured graph is the function it captured, run again.
- Keys and values are one pair, and attention masks are filters on the visible pairs; a kernel that reads the paged or the packed layout sees exactly those.
- A batched pass is carried out row by row, since rows of a batch share nothing but memory; the memory is shared in the model too.
- Step count, guidance and global condition are constant over the stream of a request; `odeint` is Euler on the even grid of that many steps. The laws of row arithmetic are assumed only by the theorems on guidance and the grid, which say so.
- `hidden_patch_size` is 1, the constant of `nanovllm_dots/models/dots/native/core.py:52`.
- The hop size is the decoder's samples per frame; decoder layers are causal with `kernel_size == 2 * stride` upsampling, as the source itself demands.
- The patch encoder's constructor requires an even patch size of at least 2, the only ones that work; `TokenCount` shows it.
- Block size is above 1 and prompts are not empty wherever a theorem needs it; request ids are never reused.
- The block hash is an uninterpreted function; injectivity is assumed only by the soundness theorems of the prefix cache.
- `held`, `admitted` and `pending` are bookkeeping of the model: what a block was computed from, the prompt length at admission, whether a token is due.
- The status of a sequence is the queue it is in; the id-to-sequence map is a search of the queues.

Deliberately weaker or on values:

- EngineDrive.RunAll: the drive loop runs on the values of queues and pool, not on the scheduler object, and appends one token per batched sequence; `Schedulers.Scheduler.Schedule` is the link between the two. All requests are there at the start, and each stops at a length given for it.
- EngineDrive.CompletesUnlessRefused: the refusals are the failed assertion, the repeated prefill and the missing embedding; a full encoder row pool or flow-matching history and mixed decode parameters are refusals of other models (`EncoderRows.RowPool.StepBatch`, `Lockstep.Request.Step`, `FmSolver.FullFm`).
- EnginePreempted.CompletesUnlessPreempted: which of the refusals ends a loop that preempted somebody is not stated.
- EngineAdmissions.CompletesIfAllFit: sufficient only; an admission that is wholly cached without having been prefilled is served after all if the request is preempted before its decode turn and admitted again as an uncached one, as in `EngineRuns.ServedAfterAll`.
- PrefixRuns.RunSound: one direction for whole runs; the exact condition is the one for a single allocation, `PrefixCache.AllocateSound`.
- PagedServing.ServeRun: the embedding of a position is a function of the tokens up to it, patches and the prompt audio of a clone included; a token stands for what is embedded at its place.
- WriteIsolation.DecodeSparesRunning: excludes a prompt that came wholly from the cache, whose last cached block is recomputed in place; `PrefixRuns.CachedStepIsNothing` shows that this writes what is there.
- Server.NoZombies: looking a subscriber up, removing it and posting to it are one action, and so are the posts of `_fail_all`; a step that raises is taken to have changed nothing in the engine.
- Lockstep.Generate: one request, its eos decisions as a function of the patch; the other requests of a batch do not touch its counters.
- Utterance.Speak: the language model and the noise are functions of the patches so far; the language model's own caches are the subject of `paged_llm`. The conditions of the cached head are the request's own throughout.
- EncoderRows.RowPool.StepBatch: after a failure for lack of rows only the partition is stated, as the source gives up on the step there.
- VocoderStream.BigVganStream.Flush: using a stream after its flush is not modelled.
- FlashFmCache.FlashFmHead.DecodePatch: the eager and the graphed head share one class, with the graphed methods beside the eager ones.
- FlashFmCache.FmStream.NextPatch: the stream always uses the graphed head, the default; the eager one, `kvcache_graphed=False`, takes any extension but cannot be primed, so it cannot switch in mid-generation.

Not modelled:

- Scheduler callbacks and LoRA adapters; the engine passes none.
- The state an exception inside `step` leaves in scheduler and caches.
- Server start, stop, warm-up, routes, WAV headers and configuration.
- Midpoint and Runge-Kutta solvers.
- Tokenizer, text normalisation, language detection, speaker model, weight loading, schedule building in `pipeline/tokenizing.py`.
- The vocoder's encoder, training layers and non-causal variants.
- Tensor-parallel slicing of linear and embedding layers.
- Replacement of linear layers by int8 ones across a model.
