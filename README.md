# LEMP retrieval core in Dafny

This project models the sequential core of LEMP's maximum-inner-product
retrieval engine and proves properties of that model:

- **The hybrid LX retriever** (`Mixed`, with the lemmas in `MixedProperties`).
  For every probe bucket it decides which sub-retriever scans: the
  length-based one (the *baseline* arm) or the coordinate-based one X (the
  *alternative* arm). The decision is made per query batch and, where the
  batch's norm range straddles the bucket's threshold, per query. In top-k
  mode it retires queries whose k-th score can no longer be beaten, moves each
  active query's k result slots into a scratch heap and back around exactly
  one sub-retriever call, and settles the bucket's tuning from the two arms'
  sample times.
  - The sub-retrievers, `preprocess` and `getQueue` are calls out of the
    model. Each call is recorded as an `Event` in the retriever's `trace`,
    together with what it was given: arm, batch, row, query id, current queue.
  - What a per-query top-k scan does to the heap is the parameter `effect`.
  - Every loop of `run`, `runTopK` and `tuneTopk` is a method proved against a
    small-step function of the state it changes (`RunFrom`, `TopKBatchesFrom`,
    `LengthTimes`/`Touched`).
  - The lemmas in `MixedProperties` then state what the source promises about
    those functions: where run stops, what each batch and query turns into,
    that queues are built at most once, that inactivity flags are never
    cleared and are counted exactly, that skipping a finished batch changes
    nothing, and what one top-k query does to the buffer.
- **The per-thread retrieval arguments** (`RetrievalArgs`). These cover the
  flat top-k buffer and the heap as arrays, with the slice copies between them
  and their round trip. They also cover the counter resets, the
  method-dependent allocation in `init`, the sorted threshold table of the LSH
  method, and its upper-bound lookup.
- **The ball bound of the tree index** (`BallBounds`). A negative radius is
  the sentinel for an empty bound. The distance-range queries against points
  and other balls are soundness-checked against the points the balls hold. The
  greedy in-place growth over the columns of a matrix follows the code. The
  code moves the center by half of `(p - c)`; the comment at
  `ballbound_impl.hpp:190-191` describes a move by half the excess instead. A
  concrete one-dimensional case shows that, as written, a point covered before
  an update can be uncovered by it. What the update does guarantee, for a metric that
  halves along the segment as Euclidean distance does, is that each point it
  takes in, and so the matrix's last column, is inside the bound afterwards.
- **The prefixing output stream** (`PrefixedOutStreams`). It splits the
  converted text at `'\n'` and writes the prefix at every line start, driven by
  the `carriageReturned` bit. Its output is proved to be exactly the chunk
  sequence `Emit` describes. Removing the prefixes from that sequence gives
  back the text. Prefixes appear only at line starts, every line end that is
  not last is followed by a prefix, and the process exits iff the stream is
  fatal and a newline was written.

Reals are exact (`real`), not doubles, and integers are unbounded.

## Model

| member | source | states |
|---|---|---|
| Mixed.Misuse | taLib/retrieval/mixed.h:41-59 | each single-query or single-batch overload prints the diagnostic and exits with status 1: there is no result path |
| Mixed.PreprocessOnce | taLib/retrieval/mixed.h:214-218 | asking for a batch's queues calls preprocess iff the built flag is clear, then sets the flag; no other batch and no inactivity data change |
| Mixed.RunQueryStep | taLib/retrieval/mixed.h:231-239 | one per-query step of run leaves every batch as it is |
| Mixed.RunQueriesFrom | taLib/retrieval/mixed.h:225-241 | the per-query loop of run leaves every batch as it is |
| Mixed.RunBatch | taLib/retrieval/mixed.h:204-242 | one batch of run keeps the shape (positions, norms, flag count) of every batch |
| Mixed.RunFrom | taLib/retrieval/mixed.h:198-243 | the batch loop of run keeps the shape of every batch |
| Mixed.Approximate | taLib/retrieval/mixed.h:133-151 | the k-th score the inactivity test sees: scaled by 1+gamma or 1-gamma by sign under relative approximation (never below the score for gamma >= 0), plus the query's gamma equivalent under additive approximation, the score itself without approximation; the second component is the new currGammaAppr (the factor, the gamma equivalent, or unchanged) |
| Mixed.Deactivated | taLib/retrieval/mixed.h:155-156 | retiring query j changes only that batch's flags and counter, not its shape |
| MixedProperties.BatchChoiceAgrees | taLib/retrieval/mixed.h:204-208 | BatchChoice's whole-batch choices agree with QueryArm, the per-query rule of line 232, for every query length in the batch's norm range (t_b >= 0), and the per-query case is exactly a batch straddling the threshold |
| MixedProperties.TopKArmRule | taLib/retrieval/mixed.h:165-166 | TopKArm is QueryArm with the k-th score as the threshold and the bucket's longest length as the norm; a higher k-th score never sends a query back to the baseline |
| Mixed.QueueSetup | taLib/retrieval/mixed.h:173-182 | before an alternative scan the batch's queues exist and the query's queue is current; results, heap and query id are untouched |
| Mixed.ScanIn | taLib/retrieval/mixed.h:161-182 | the query's slots are in the heap and the top-k buffer is unchanged |
| Mixed.ScanOut | taLib/retrieval/mixed.h:183-188 | the scan and write-back keep the batches and the lengths of heap and buffer |
| Mixed.ScanTopK | taLib/retrieval/mixed.h:161-188 | the scan of an active query keeps the state well formed and the batch shapes |
| Mixed.TopKQueryStep | taLib/retrieval/mixed.h:125-189 | one query of runTopK keeps the state well formed and the batch shapes |
| Mixed.TopKQueriesFrom | taLib/retrieval/mixed.h:120-190 | the slot loop keeps the state well formed and the batch shapes |
| Mixed.TopKBatchStep | taLib/retrieval/mixed.h:117-118 | one batch of runTopK keeps the state well formed and the batch shapes |
| Mixed.TopKBatchesFrom | taLib/retrieval/mixed.h:115-191 | the batch loop of runTopK keeps the state well formed and the batch shapes |
| Mixed.TuningDecision | taLib/retrieval/mixed.h:72-77 | the bucket gets (1, 1) when the baseline's total sample time beats X's best time, else (bestPhi + 1, -1 if t_b_indx is 0, else the result of sample t_b_indx) |
| Mixed.LengthTimes | taLib/retrieval/mixed.h:88-94 | one length time per sample, in sample order, each read from the sample's thread and position |
| Mixed.Touch | taLib/retrieval/mixed.h:91-92 | one read through operator[] adds exactly the key read, and no read of any key (Lookup, missing keys as default data) sees a different value afterwards |
| Mixed.Touched | taLib/retrieval/mixed.h:92-93 | reading the samples through operator[] keeps the number of threads |
| Mixed.ProbeBucket.constructor | taLib/retrieval/mixed.h:204-208 | a bucket holds t_b, its norm range, the scan threshold and numLists as given, with no tuning decision made yet |
| Mixed.ProbeBucket.SetAfterTuning | taLib/retrieval/mixed.h:73 | each setAfterTuning call is appended to the bucket's decisions, nothing else changes |
| Mixed.LXRetriever.constructor | taLib/retrieval/mixed.h:34 | a fresh retriever has made no calls and holds no sample times |
| Mixed.LXRetriever.ScanBatch | taLib/retrieval/mixed.h:204-207 | a whole-batch scan by an arm is recorded once |
| Mixed.LXRetriever.ScanQuery | taLib/retrieval/mixed.h:232-238 | a per-query scan is recorded with the current query id and queue |
| Mixed.LXRetriever.ScanQueryTopK | taLib/retrieval/mixed.h:165-183 | a top-k scan is recorded with the current query id and queue, and the heap becomes what the arm makes of it |
| Mixed.LXRetriever.PreprocessQueues | taLib/retrieval/mixed.h:215 | the preprocess call is recorded with the batch and maxLists |
| Mixed.LXRetriever.EnsureQueues | taLib/retrieval/mixed.h:173-176 | batches and trace become what PreprocessOnce says |
| Mixed.LXRetriever.Run | taLib/retrieval/mixed.h:195-245 | run sets numLists from the bucket and leaves the batches, query id, queue and calls as RunFrom says from batch 0 |
| Mixed.LXRetriever.RunOneBatch | taLib/retrieval/mixed.h:204-242 | the body of run's batch loop does what RunBatch says |
| Mixed.LXRetriever.RunQueries | taLib/retrieval/mixed.h:225-241 | the per-query loop does what RunQueriesFrom says from the batch start |
| Mixed.LXRetriever.RunQuery | taLib/retrieval/mixed.h:226-239 | one query of the per-query loop does what RunQueryStep says |
| Mixed.LXRetriever.RunTopK | taLib/retrieval/mixed.h:107-193 | with t_b == 1 the whole bucket goes to the baseline with nothing else changed; otherwise numLists is set and the state becomes what TopKBatchesFrom says from batch 0 |
| Mixed.LXRetriever.TopKBatches | taLib/retrieval/mixed.h:115-191 | the batch loop of runTopK does what TopKBatchesFrom says |
| Mixed.LXRetriever.TopKBatch | taLib/retrieval/mixed.h:117-123 | the skip test and slot loop for one batch do what TopKBatchStep says |
| Mixed.LXRetriever.TopKSlots | taLib/retrieval/mixed.h:120-190 | the slot loop over offsets startPos*k .. endPos*k by k does what TopKQueriesFrom says |
| Mixed.LXRetriever.TopKQuery | taLib/retrieval/mixed.h:125-159 | one turn of the slot loop does what TopKQueryStep says |
| Mixed.LXRetriever.TopKScan | taLib/retrieval/mixed.h:161-189 | heap in, one arm, heap out, as ScanTopK says |
| Mixed.LXRetriever.EnterScan | taLib/retrieval/mixed.h:161-182 | moving the slots to the heap, setting the query id and, for X, the queue does what ScanIn says |
| Mixed.LXRetriever.LeaveScan | taLib/retrieval/mixed.h:183-188 | the arm's call and the write-back do what ScanOut says |
| Mixed.LXRetriever.PlainTune | taLib/retrieval/mixed.h:68 | the baseline's tuning is recorded and its sample times and total are taken over |
| Mixed.LXRetriever.OtherTune | taLib/retrieval/mixed.h:70 | X's tuning is recorded and its tuning data taken over |
| Mixed.LXRetriever.Decide | taLib/retrieval/mixed.h:72-77 | exactly one setAfterTuning call, with TuningDecision's arguments |
| Mixed.LXRetriever.Tune | taLib/retrieval/mixed.h:61-79 | with no samples nothing at all happens (no call, no field of the retriever, the bucket or retrArg[0] changes); otherwise both arms get the samples, both tune in order, the baseline's sample times and total become what its tuning measured and competitorMethod holds those times, X's tuning data becomes what its tuning found, and the bucket gets TuningDecision |
| Mixed.LXRetriever.TuneTopk | taLib/retrieval/mixed.h:81-105 | one length time per sample is appended in sample order and their sum added to the total; the tuning data gains default entries for missing samples; competitorMethod holds the sample times as they are after the loop; X tunes once and its tuning data becomes what that tuning found; the bucket gets TuningDecision |
| Mixed.LXRetriever.ReadSample | taLib/retrieval/mixed.h:89-93 | one sample read appends its length time and adds it to the total, inserting a default entry if it was missing |
| Mixed.LXRetriever.ReadLengthTimes | taLib/retrieval/mixed.h:88-94 | the sample loop appends LengthTimes and adds its Sum, touching exactly the samples read |
| Mixed.SlotBelowEnd | taLib/retrieval/mixed.h:121-123 | the slot offset stays below endPos*k exactly while the row is below endPos |
| Mixed.SlotOf | taLib/retrieval/mixed.h:121-122 | the first slot of row q is q*k |
| Mixed.TouchedLookup | taLib/retrieval/mixed.h:92-93 | operator[] on earlier samples never changes what a later read sees |
| Mixed.SampleStep | taLib/retrieval/mixed.h:88-94 | one more sample extends the touched data, the times and their sum by that sample |
| Mixed.LengthTimesSnoc | taLib/retrieval/mixed.h:92-93 | the times of one more sample are the earlier times plus that sample's |
| MixedProperties.StopBatch | taLib/retrieval/mixed.h:198-202 | the first batch at or after b whose longest query is below the threshold, or the end |
| MixedProperties.StopRow | taLib/retrieval/mixed.h:225-229 | the first row at or after i whose length is below the threshold, or the batch end |
| MixedProperties.ExpectedScans | taLib/retrieval/mixed.h:225-239 | one scan per row from i up to the stop row |
| MixedProperties.ExpectedScansAre | taLib/retrieval/mixed.h:231-239 | scan n is of row i+n with that row's query id, by the baseline iff t_b times its length exceeds the threshold, and an alternative scan sees the query's own queue |
| MixedProperties.ExpectedScansOfBatch | taLib/retrieval/mixed.h:225-239 | every per-query call is a query scan of this batch (never a preprocess call) |
| MixedProperties.RunQueriesEvents | taLib/retrieval/mixed.h:225-241 | the per-query loop makes exactly the scans of ExpectedScans, stops at the first row below the threshold, and changes no batch |
| MixedProperties.RunBatchEvents | taLib/retrieval/mixed.h:204-242 | exactly one of the three choices: one baseline batch scan if t_b == 1 or t_b*minNorm > threshold; else one alternative batch scan if t_b*maxNorm <= threshold; else PreprocessOnce followed by ExpectedScans |
| MixedProperties.RunBatchTouches | taLib/retrieval/mixed.h:204-242 | one batch of run only appends calls about that batch and changes no other batch |
| MixedProperties.RunBatchTouchesPerQuery | taLib/retrieval/mixed.h:208-242 | the per-query case of RunBatchTouches |
| MixedProperties.RunStops | taLib/retrieval/mixed.h:198-202 | run only appends calls about batches before the first batch whose longest query is below the threshold, and leaves that batch and every later one untouched |
| MixedProperties.RunStopsStep | taLib/retrieval/mixed.h:198-243 | the case of RunStops where the current batch reaches the threshold |
| MixedProperties.PreprocessCountAppend | taLib/retrieval/mixed.h:214-216 | preprocess calls in two trace pieces add up |
| MixedProperties.QueuesOnceTrans | taLib/retrieval/mixed.h:214-218 | at-most-once building of queues composes over consecutive steps |
| MixedProperties.QueuesOnceNoPreprocess | taLib/retrieval/mixed.h:225-239 | calls that are not preprocess calls, with the flags unchanged, keep every batch's count |
| MixedProperties.NoPreprocessCount | taLib/retrieval/mixed.h:225-239 | a trace without preprocess calls counts none for any batch |
| MixedProperties.PreprocessOnceQueues | taLib/retrieval/mixed.h:214-218 | one queue request calls preprocess for the batch once if its flag was clear and never otherwise |
| MixedProperties.RunQueriesQueues | taLib/retrieval/mixed.h:225-241 | the per-query loop never calls preprocess |
| MixedProperties.RunBatchQueues | taLib/retrieval/mixed.h:204-242 | one batch of run builds queues at most once and never for a batch whose queues were built |
| MixedProperties.RunQueues | taLib/retrieval/mixed.h:198-243 | over a whole run no built flag is cleared, and preprocess is called for a batch once if its flag went from clear to set and never otherwise |
| MixedProperties.CountTrueSet | taLib/retrieval/mixed.h:155-156 | setting a clear inactivity flag adds exactly one to the number of set flags, matching the counter increment |
| MixedProperties.CountTrueFull | taLib/retrieval/mixed.h:117-118 | the number of set flags is at most the row count and equals it iff every query is inactive |
| MixedProperties.TopKKeepsTrans | taLib/retrieval/mixed.h:115-191 | what runTopK keeps composes over consecutive steps |
| MixedProperties.KeepsCounted | taLib/retrieval/mixed.h:155-156 | counters that count their flags still do after any steps that keep TopKKeeps |
| MixedProperties.KeepsByNoPreprocess | taLib/retrieval/mixed.h:183 | a step that changes no flag and makes no preprocess call keeps TopKKeeps |
| MixedProperties.ScanKeeps | taLib/retrieval/mixed.h:161-188 | the scan of an active query changes no inactivity data and builds the batch's queues at most once |
| MixedProperties.TopKQueryKeeps | taLib/retrieval/mixed.h:125-189 | one query of runTopK never clears a flag, moves the counter with the flags, and builds queues at most once |
| MixedProperties.TopKQueriesKeep | taLib/retrieval/mixed.h:120-190 | the same for the slot loop of a batch |
| MixedProperties.TopKKeep | taLib/retrieval/mixed.h:115-191 | over a whole runTopK, flags are never cleared, every counter grows by exactly the number of newly set flags (so exact counters stay exact), and queues are built at most once per batch |
| MixedProperties.InactiveQueriesChangeNothing | taLib/retrieval/mixed.h:125-128 | queries that are all inactive are all skipped and nothing changes |
| MixedProperties.SkipSound | taLib/retrieval/mixed.h:117-118 | skipping a batch whose counter reached its row count gives the same state as running its slot loop, when the counter counts the flags |
| MixedProperties.TopKDeactivation | taLib/retrieval/mixed.h:132-159 | an active query is newly marked inactive iff the bucket's longest length is below its approximated k-th score; then the counter grows by one and neither results nor calls change; currGammaAppr is the approximation factor |
| MixedProperties.TopKScanOutcome | taLib/retrieval/mixed.h:161-188 | for an active query that stays: its k slots at offset user*k become what the chosen arm makes of them, no other slot changes, the arm is the baseline iff t_b times the bucket's longest length exceeds the k-th score, exactly one scan call is made (after one preprocess call for X iff the queues were not built), flags stay |
| MixedProperties.ScanInOutcome | taLib/retrieval/mixed.h:161-182 | entering a scan the heap holds exactly the query's k slots, the query id and (for X) its queue are current, and one preprocess call is made for X iff the batch's queues were not built |
| MixedProperties.ScanOutOutcome | taLib/retrieval/mixed.h:183-188 | leaving a scan the arm's heap lands in the query's k slots, no other slot changes, and exactly one scan call is recorded with the current id and queue |
| RetrievalArgs.Resize | taLib/structs/RetrievalArguments.h:256-259 | vector::resize keeps the first n elements and pads with the fill value |
| RetrievalArgs.CopyInto | taLib/structs/RetrievalArguments.h:165-168 | std::copy writes src over dst from the offset and leaves every other element |
| RetrievalArgs.CopyBackUnchanged | taLib/structs/RetrievalArguments.h:160-168 | copying a slice back where it came from changes nothing |
| RetrievalArgs.SlotsIsProduct | taLib/structs/RetrievalArguments.h:166 | the slot offset of query q is q*k |
| RetrievalArgs.MoveWriteRoundTrip | taLib/structs/RetrievalArguments.h:160-168 | writeHeapToTopk(q) right after moveTopkToHeap(q*k) leaves the top-k buffer unchanged |
| RetrievalArgs.UpperBound | taLib/structs/RetrievalArguments.h:189 | the first position whose score exceeds theta in the sorted table |
| RetrievalArgs.InsertByData | taLib/structs/RetrievalArguments.h:185 | inserting into an ascending table keeps it ascending and adds exactly the element |
| RetrievalArgs.SortByData | taLib/structs/RetrievalArguments.h:185 | the sort is an ascending permutation |
| RetrievalArgs.ThetaEntries | taLib/structs/RetrievalArguments.h:175-184 | entry b holds threshold b with id b+1 |
| RetrievalArgs.RelativeEpsilon | taLib/structs/RetrievalArguments.h:120-122 | the transformed epsilon e' satisfies e'(1 - epsilon) = epsilon, and for 0 <= epsilon < 1 it is never smaller than epsilon |
| RetrievalArgs.NeedsCandidates | taLib/structs/RetrievalArguments.h:209-214 | every method gets the candidate buffer except the plain length method, TA and the tree method |
| RetrievalArgs.RetrievalArguments.constructor | taLib/structs/RetrievalArguments.h:92-99 | the parameters are stored; comparisons and all seven timers are zero, prevBucketBestPhi is -1, threads 1, worstMinScore DBL_MAX, every raw buffer the initializer list sets is null and every vector empty; listsQueue, which the source leaves unset, starts as none |
| RetrievalArgs.RetrievalArguments.InitializeBasics | taLib/structs/RetrievalArguments.h:101-124 | the parameters are copied verbatim and colnum taken from the query matrix, except that epsilon becomes epsilon/(1-epsilon) under relative approximation |
| RetrievalArgs.RetrievalArguments.Clear | taLib/structs/RetrievalArguments.h:148-158 | all seven timers and comparisons are zero and the results are empty |
| RetrievalArgs.RetrievalArguments.MoveTopkToHeap | taLib/structs/RetrievalArguments.h:160-163 | heap[j] becomes topkResults[pos+j] for j < k; the rest of the heap and the buffer are unchanged |
| RetrievalArgs.RetrievalArguments.WriteHeapToTopk | taLib/structs/RetrievalArguments.h:165-168 | only slots [q*k, q*k + heap size) are overwritten, with the heap |
| RetrievalArgs.RetrievalArguments.AllocTopkResults | taLib/structs/RetrievalArguments.h:256-259 | the heap has k elements and the buffer rowNum*k, each keeping its old prefix |
| RetrievalArgs.RetrievalArguments.SetIntervals | taLib/structs/RetrievalArguments.h:261-265 | maxLists is set, intervals resized to it, comparisons zero |
| RetrievalArgs.RetrievalArguments.SetQueues | taLib/structs/RetrievalArguments.h:267-269 | the current queue is the one given |
| RetrievalArgs.RetrievalArguments.InitThetaForActiveBlocks | taLib/structs/RetrievalArguments.h:170-186 | the table becomes an ascending permutation of its old entries plus one entry per signature count b+1 |
| RetrievalArgs.RetrievalArguments.FindActiveBlocks | taLib/structs/RetrievalArguments.h:188-199 | no result exactly when the table is empty (where the source reads out of bounds); past every threshold the last entry's id; otherwise the id of the first entry above theta, plus one |
| RetrievalArgs.RetrievalArguments.Init | taLib/structs/RetrievalArguments.h:201-254 | each buffer is allocated exactly for the methods that use it (ext_cp_array for LI/I, cp_array for LC/C, candidates for the scanning methods and TANRA, TA state RR iff isTARR, TANRA state, the L2AP and LSH buffers) and left as it was otherwise |
| RetrievalArgs.RetrievalArguments.InitTaState | taLib/structs/RetrievalArguments.h:227-238 | the TA state (RR iff isTARR) for TA; the TANRA state and candidates for TANRA |
| RetrievalArgs.RetrievalArguments.InitL2ap | taLib/structs/RetrievalArguments.h:216-221 | accumulators padded with -1, hash values with 0, the two per-column arrays allocated |
| RetrievalArgs.RetrievalArguments.InitLsh | taLib/structs/RetrievalArguments.h:240-252 | Gaussians, done bits, the sorted threshold table, a sketch buffer of maxProbeBucketSize·(LSH_CODE_LENGTH/8)·LSH_SIGNATURES bytes (its size only), sums and block counters resized with zeros |
| RetrievalArgs.Resized | taLib/structs/RetrievalArguments.h:257-258 | a fresh array holding the resized contents |
| BallBounds.ClampNonNegative | mips/my_mlpack/core/tree/ballbound_impl.hpp:71-72 | the value or zero, whichever is larger |
| BallBounds.Halfway | mips/my_mlpack/core/tree/ballbound_impl.hpp:192-193 | each coordinate moves by half of (p - c) |
| BallBounds.ExpandStep | mips/my_mlpack/core/tree/ballbound_impl.hpp:185-195 | the radius never decreases, a covered column changes nothing, and an uncovered one moves the center halfway to it and grows the radius by half the excess |
| BallBounds.Expanded | mips/my_mlpack/core/tree/ballbound_impl.hpp:170-199 | operator|= on values: an empty bound takes column 0's dimension and ends non-empty, a non-empty one keeps its dimension and never shrinks |
| BallBounds.ExpandFrom | mips/my_mlpack/core/tree/ballbound_impl.hpp:183-196 | the update over columns i.. keeps the dimension and never shrinks the radius |
| BallBounds.StepCoversNewPoint | mips/my_mlpack/core/tree/ballbound_impl.hpp:185-195 | for a metric under which the halfway point is half as far from the point (as Euclidean distance is), a non-empty bound that takes in a point covers that point afterwards, whether or not it already did |
| BallBounds.ExpandFromCoversLast | mips/my_mlpack/core/tree/ballbound_impl.hpp:183-196 | under the same metric, the update over columns i.. of a non-empty bound ends with the last column covered |
| BallBounds.ExpandCoversLastColumn | mips/my_mlpack/core/tree/ballbound_impl.hpp:176-199 | under the same metric, operator|= leaves the matrix's last column inside the bound, including the case of an empty bound and a single column |
| BallBounds.BallBound.constructor | mips/my_mlpack/core/tree/ballbound.hpp:40 | radius 0, which is not the empty sentinel |
| BallBounds.BallBound.OfDimension | mips/my_mlpack/core/tree/ballbound.hpp:47 | radius 0 and a center of the given dimension |
| BallBounds.BallBound.WithRadiusAndCenter | mips/my_mlpack/core/tree/ballbound.hpp:55-56 | radius and center stored verbatim, a negative radius included |
| BallBounds.BallBound.Radius | mips/my_mlpack/core/tree/ballbound.hpp:59 | the stored radius |
| BallBounds.BallBound.Center | mips/my_mlpack/core/tree/ballbound.hpp:64 | the stored center |
| BallBounds.BallBound.SetRadius | mips/my_mlpack/core/tree/ballbound.hpp:61 | a write through the mutable radius reference changes only the radius |
| BallBounds.BallBound.SetCenter | mips/my_mlpack/core/tree/ballbound.hpp:66 | a write through the mutable center reference changes only the center |
| BallBounds.BallBound.Dim | mips/my_mlpack/core/tree/ballbound_impl.hpp:29-35 | the default Range for the sentinel, else an interval of width 2r centred on center[i] |
| BallBounds.BallBound.Contains | mips/my_mlpack/core/tree/ballbound_impl.hpp:41-47 | true iff the radius is non-negative and the point is within it |
| BallBounds.BallBound.MinDistance | mips/my_mlpack/core/tree/ballbound_impl.hpp:66-73 | DBL_MAX for the sentinel, else max(0, d - r), which lies in [0, d] |
| BallBounds.BallBound.MinDistanceToBound | mips/my_mlpack/core/tree/ballbound_impl.hpp:79-89 | DBL_MAX when this radius is negative, else max(0, d - r - r') |
| BallBounds.BallBound.MaxDistance | mips/my_mlpack/core/tree/ballbound_impl.hpp:95-101 | DBL_MAX for the sentinel, else d + r |
| BallBounds.BallBound.MaxDistanceToBound | mips/my_mlpack/core/tree/ballbound_impl.hpp:107-114 | DBL_MAX when this radius is negative, else d + r + r' |
| BallBounds.BallBound.RangeDistance | mips/my_mlpack/core/tree/ballbound_impl.hpp:122-133 | exactly (MinDistance, MaxDistance) |
| BallBounds.BallBound.RangeDistanceToBound | mips/my_mlpack/core/tree/ballbound_impl.hpp:136-148 | exactly (MinDistance, MaxDistance) for the other ball |
| BallBounds.BallBound.Expand | mips/my_mlpack/core/tree/ballbound_impl.hpp:170-199 | center and radius become the greedy update over the columns, seeded at column 0 when empty |
| BallBounds.EmptyBoundSentinel | mips/my_mlpack/core/tree/ballbound_impl.hpp:29-148 | with a negative radius Contains is false, every distance is DBL_MAX, every range (DBL_MAX, DBL_MAX), and operator[] the empty default Range |
| BallBounds.MinBelowMax | mips/my_mlpack/core/tree/ballbound_impl.hpp:66-101 | for a non-empty ball, MinDistance <= d <= MaxDistance |
| BallBounds.PointDistanceSound | mips/my_mlpack/core/tree/ballbound_impl.hpp:66-101 | every point in the ball lies between MinDistance and MaxDistance of the query point |
| BallBounds.BoundDistanceSound | mips/my_mlpack/core/tree/ballbound_impl.hpp:79-114 | points of two balls lie between the bound-to-bound MinDistance and MaxDistance of each other |
| BallBounds.ExpandGrowsRadius | mips/my_mlpack/core/tree/ballbound_impl.hpp:175-196 | the update never shrinks the radius and always leaves a non-empty bound when it has a column |
| BallBounds.ExpandSeedsAtFirstColumn | mips/my_mlpack/core/tree/ballbound_impl.hpp:175-179 | an empty bound given one column becomes the point ball at that column |
| BallBounds.ExpandSkipsFirstColumn | mips/my_mlpack/core/tree/ballbound_impl.hpp:183 | a non-empty bound never looks at column 0 |
| BallBounds.ExpandCoveredUnchanged | mips/my_mlpack/core/tree/ballbound_impl.hpp:188 | columns already covered leave center and radius unchanged |
| BallBounds.ExpandMayUncoverEarlierPoint | mips/my_mlpack/core/tree/ballbound_impl.hpp:188-195 | a concrete case on the line in which a point covered before the update is outside the ball after it |
| PrefixedOutStreams.EmitStartsWithPendingPrefix | taLib/my_mlpack/core/util/prefixedoutstream_impl.hpp:111-135 | Emit, what the line loop and the tail write: nothing for empty text; for other text something, starting with the prefix iff one was pending |
| PrefixedOutStreams.Chunks | taLib/my_mlpack/core/util/prefixedoutstream_impl.hpp:78-135 | what one BaseLogic call writes: never nothing, starting with the prefix iff one was pending; empty text ends with its raw form |
| PrefixedOutStreams.FindChar | taLib/my_mlpack/core/util/prefixedoutstream_impl.hpp:113 | the first index at or after from holding the character, or none |
| PrefixedOutStreams.PrefixedOutStream.constructor | taLib/my_mlpack/core/util/prefixedoutstream_impl.hpp:144-154 | every field as given |
| PrefixedOutStreams.PrefixedOutStream.PrefixIfNeeded | taLib/my_mlpack/core/util/prefixedoutstream_impl.hpp:144-154 | appends the prefix iff a prefix was pending and input is not ignored; the bit is always clear afterwards |
| PrefixedOutStreams.PrefixedOutStream.BaseLogic | taLib/my_mlpack/core/util/prefixedoutstream_impl.hpp:69-141 | appends the chunks of Chunks (a pending prefix first, empty text forwarded raw, every line after a prefix) and nothing when input is ignored; the bit ends set iff the text ends in a newline; exits iff fatal and a newline was written |
| PrefixedOutStreams.PrefixedOutStream.WriteLines | taLib/my_mlpack/core/util/prefixedoutstream_impl.hpp:111-128 | the loop writes every complete line, stops after the last newline, and sets the bit iff it passed one |
| PrefixedOutStreams.PrefixedOutStream.WriteLine | taLib/my_mlpack/core/util/prefixedoutstream_impl.hpp:115-127 | one pass writes the optional prefix, the segment up to the newline and the newline, sets the bit, and leaves the output owed for the rest of the text |
| PrefixedOutStreams.PrefixedOutStream.WriteRest | taLib/my_mlpack/core/util/prefixedoutstream_impl.hpp:130-135 | the text after the last newline is written after a pending prefix, with no newline |
| PrefixedOutStreams.PrefixedOutStream.Write | taLib/my_mlpack/core/util/prefixedoutstream_impl.hpp:25-67 | operator<< hands the value's text (ToString() for objects that have it) to BaseLogic |
| PrefixedOutStreams.FlattenAppend | taLib/my_mlpack/core/util/prefixedoutstream_impl.hpp:113-135 | the output of two chunk sequences is the concatenation of their outputs |
| PrefixedOutStreams.StripAppend | taLib/my_mlpack/core/util/prefixedoutstream_impl.hpp:113-135 | removing prefixes distributes over concatenation |
| PrefixedOutStreams.FindShift | taLib/my_mlpack/core/util/prefixedoutstream_impl.hpp:113 | find from an offset agrees with find on the suffix |
| PrefixedOutStreams.EmitNewline | taLib/my_mlpack/core/util/prefixedoutstream_impl.hpp:113-127 | text with a newline emits a pending prefix, the line with its newline, then the rest with a prefix pending |
| PrefixedOutStreams.EmitLastLine | taLib/my_mlpack/core/util/prefixedoutstream_impl.hpp:130-135 | text without a newline emits a pending prefix and then the text |
| PrefixedOutStreams.StepFlatten | taLib/my_mlpack/core/util/prefixedoutstream_impl.hpp:115-121 | one loop pass writes the optional prefix, the segment, then the newline |
| PrefixedOutStreams.LastStep | taLib/my_mlpack/core/util/prefixedoutstream_impl.hpp:130-135 | the final write completes the output owed |
| PrefixedOutStreams.LoopStep | taLib/my_mlpack/core/util/prefixedoutstream_impl.hpp:113-128 | one loop pass writes its line and leaves the rest of the output owed |
| PrefixedOutStreams.EmitPendingPrefix | taLib/my_mlpack/core/util/prefixedoutstream_impl.hpp:78 | for non-empty text a pending prefix is written first, then the text as if none were pending |
| PrefixedOutStreams.LastFlatten | taLib/my_mlpack/core/util/prefixedoutstream_impl.hpp:130-135 | the text after the last newline comes out after an optional prefix |
| PrefixedOutStreams.StripEmit | taLib/my_mlpack/core/util/prefixedoutstream_impl.hpp:113-135 | the output with the inserted prefixes removed is exactly the converted text |
| PrefixedOutStreams.BaseLogicKeepsText | taLib/my_mlpack/core/util/prefixedoutstream_impl.hpp:113-135 | the same for what one BaseLogic call writes for non-empty text |
| PrefixedOutStreams.EmitCons | taLib/my_mlpack/core/util/prefixedoutstream_impl.hpp:113-127 | the first line is a whole line ending in a newline, and what follows starts with a prefix |
| PrefixedOutStreams.EmitPrefixesAtLineStarts | taLib/my_mlpack/core/util/prefixedoutstream_impl.hpp:115-125 | a prefix is written first only if one was pending, and otherwise only right after a newline |
| PrefixedOutStreams.EmitLineEndsFollowedByPrefix | taLib/my_mlpack/core/util/prefixedoutstream_impl.hpp:115-125 | every written newline that is not the last thing written is followed by a prefix |
| PrefixedOutStreams.EmitTextChunksAreLines | taLib/my_mlpack/core/util/prefixedoutstream_impl.hpp:113-135 | every text piece is non-empty and holds a newline only at its end |

## Left out

- Timing and diagnostics: `TIME_IT` and `rg::Timer`, `printTimes`, the `ostringstream` conversion with its `convert.fail()` branch, and `ToString` itself. A value reaches the output stream as its converted text (`Printable`).
- Process exit: `exit(1)` in the misuse overloads becomes the `Exited(1, …)` outcome of `Misuse`, and in `BaseLogic` the `exits` result.
- The sub-retrievers (`plainRetriever`/`otherRetriever` `run`, `runTopK`, `tune`, `tuneTopk`), `preprocess`, `getQueue` and `setAfterTuning`: their bodies are not part of this model. Each call to the first three is recorded in the retriever's trace with its arguments; each setAfterTuning call is recorded in the bucket's `afterTuning` list. The effect of a per-query top-k scan on the heap is the parameter `effect`, assumed only to preserve the heap's length. The tune results (sample times, total, `dataForTuning`) are parameters of `Tune` and `TuneTopk`.
- Mixed.LXRetriever.RunTopK: with `t_b == 1` the whole-bucket baseline top-k is only recorded; what it does to the top-k buffer is not modelled.
- The queue `getQueue` returns is modelled as a reference (batch, position) rather than by the address of its lists.
- The `RELATIVE_APPROX`/`ABS_APPROX` build switches are the run-time parameter `Approximation`. `RetrievalArguments` gains the `gamma` and `currGammaAppr` fields that `mixed.h` uses but `RetrievalArguments.h` does not declare.
- The destructor and raw `new`/`delete`. The destructor frees `cp_array` where it means `ext_cp_array`; raw buffers are modelled only by the element count they were allocated with.
- The default constructor and the `rg::Random32(123)` seed of the constructor. The default constructor is this constructor with (0, none, none, L).
- The `log`/`exp`/`pow`/`cos` arithmetic of `initThetaForActiveBlocks`: the thresholds are a parameter, and the model keeps the emplace loop and the sort.
- The ordering of `QueueElement` is assumed to be by `data` (the type's definition is not part of this model). `LSH_SIGNATURES` = 32 and `LSH_CODE_LENGTH` = 8 are assumed; they are defined outside these files.
- RetrievalArgs.EmptyElement and RetrievalArgs.EmptyInterval: the values of a default-constructed `QueueElement` (0.0, 0) and `IntervalElement` (0, 0, 0) are assumed, since those types' definitions are not part of this model; AllocTopkResults, Resized and SetIntervals pad with them.
- Mixed.LXRetriever.constructor: the source's constructor is `LX_Retriever() = default` and the samples are the inherited `xValues` field, which is set outside these files; the model takes them as a constructor parameter. A zero `sampleTotalTime` of the length retriever (which `tuneTopk` adds to) and a zeroed tuning data of X are assumed defaults, since `LengthRetriever` and the X retrievers are not part of this model.
- RetrievalArgs.RetrievalArguments.InitializeBasics: requires `epsilon != 1` under relative approximation, where the source would divide by zero in floating point.
- Mixed.LXRetriever.Tune: requires `t_b_indx` to be 0 or a valid sample index when the baseline does not win, where `xValues->at` would throw `out_of_range`. The same holds for Mixed.LXRetriever.TuneTopk and Mixed.LXRetriever.Decide. TuneTopk also requires every sample's thread index to exist, where the source's `globalData[b][t]` would be undefined.
- Mixed.LXRetriever.RunTopK: requires the heap to have k elements and the buffer rowNum·k, which `allocTopkResults` sets up. It also requires the batches to lie within the query matrix.
- Mixed.LXRetriever.Tune: `retrArg[0].competitorMethod` is the address `&plainRetriever.sampleTimes`; the model stores a copy of the sample times as they are at that point, so later changes to the baseline's sample times do not show through it. The same holds for Mixed.LXRetriever.TuneTopk.
- BallBounds.BallBound.Expand: requires a column when the bound is empty and every column to have the center's dimension; on other matrices Armadillo raises its out-of-bounds or size-mismatch error, which the model does not represent. The same holds for BallBounds.Expanded.
- RetrievalArgs.RetrievalArguments.constructor: `listsQueue` and `tree` are left unset by the initializer list; the model starts `listsQueue` as none and has no `tree`.
- Threads: only `retrArg[0]` is modelled, and the thread index into `globalData` is a plain index.
- The commented-out `operator|=(BallBound)` and its declaration without a definition; `bounds.hpp`, which only includes headers; `CalculateMidpoint`.
- Euclidean distance: it is a function parameter with the properties of a distance; the triangle inequality is assumed only where soundness needs it. Vectors are sequences of exact reals.
- Machine arithmetic: doubles are exact reals and integers unbounded. The `int` products `startPos * k` at `mixed.h:121-122` and the `row_type` product `q*k` cannot overflow in the model.
- The `PrefixedOutStream` constructor and its field defaults are in `prefixedoutstream.hpp`, which is not part of this model, so the constructor takes every field as a parameter.
