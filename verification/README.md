# Work division, combination and metadata of the flash-attention NPU kernels

This project models the parts of the repository that decide which core does which piece of
attention work and where the result goes, and proves that nothing is lost, done twice or read
from the wrong place. Run `dafny verify dfyconfig.toml`.

**Flash-decode scheduling** (`Arith`, `Cover`, `SplitParams`, `Tiles`, `KeyBlocks`, `Workload`,
`AutoSchedule`, `LoadBalance`, `FlashDecode`, `ForcedSplit`, `NoSplit`, `SplitSegments`,
`SplitRecords`, `ScratchLayout`, `Scheduler`, `KernelWalk`). The space of (batch, head block,
query block, KV block) is cut into one range per core by one of three schedules. `Tiles` and
`KeyBlocks` say which heads, query rows and keys a block stands for, appended keys included. `Cover` speaks
of ranges only through the lexicographic order of positions, so the exact cover is proved with
the costs wrapped to 32 bits as the program does and without trusting them, and for all lengths,
zero included. Load balance is a separate theorem under `Workload.Exact`: at least one query row
and key in every batch, head tiles that divide the group, heads that divide among KV heads,
nothing appended to the keys, and less than 2^31 units of work per batch; the share per core
must be below 2^31 as well.
The split pass then walks the ranges, records the tiles that several cores share and lays out
their scratch rows; `KernelWalk` is the kernel's own walk over its range, which ends up at the
same scratch rows without looking at the records.

**Combination** (`CombineMath`, `CombineRows`, `CombineTiles`, `CombineMerge`, `CombineHalf`,
`CombineCells`, `CombineLse`, `CombineScale`, `CombineRun`, `CombineLink`, `CombineResult`).
Scalars are reals; `exp` is any positive function with exp(a + b) = exp(a) exp(b), `ln` its
inverse. A log-sum-exp may be minus infinity, as it is for a segment that was never written.
Addresses are followed from the records of the split pass to the output; `CombineResult` joins
both sides: what is stored for a row is softmax attention over all keys of its segments.

**The whole run** (`SplitKeys`, `KernelRun`, `SplitAttention`, `WholeRun`). The segments of a
shared tile are shown to stand for all its keys, and `WholeRun.DecodeRun` puts everything
together: it schedules a request, lets every core leave partial results in scratch memory, and
combines them. What the kernel computes for one row over a stretch of KV blocks is a parameter
that must be right (`SplitAttention.KernelRight`); where it comes from and goes to is proved.

**Block-sparse metadata** (`SparseLists`, `StableSort`, `SparseTranspose`, `SparsePacked`,
`SparseGrid`, `SparseGridTranspose`, `SparseRequest`, `SparseExchange`, `SparseOperations`,
`SparseAlike`, `SparseTokens`, `SparseCache`, `SparseAnswers`, `SparseCollision`). Tables of row lists and their
transpose by sorting; the packed and the fixed layout; requests of any shape with every check
made on them; normalisation forward and backward, and transposition, as functions
(`SparseRequest.Normalised`, `SparseExchange.Transposition`) that the sorting and packing methods
compute; `SparseTokens`, which says in tokens what these functions read and accept; and the
version-checked cache, first for any function it may be used with and then for
normalisation. A tensor store with version counters stands for the framework: a mutation may come
between any two calls. Whether boundaries are read and checked depends on the device, which is
the parameter `cpu`.

**Backward gather and masks** (`SfmgRank`, `SfmgGather`, `SfmgCores`, `CompressedMask`). The
resumable (batch, head, token) odometer, the division into cores and bursts, the place where the
consumer reads, and the reading of the fixed triangular mask at clamped offsets.

**Windows and uniform prefixes** (`AttentionWindow`, `PrefixTiling`).

## Where code and expectations part

- The key of the normalisation cache drops optional fields that are not supplied, so the same
  boundary tensor given for queries or for keys makes equal keys of different requests, and a hit
  can be wrong. `SparseCollision.WrongLists` is an input whose cached lists are not those of
  recomputation (128 x 256 against 256 x 128 tokens, offsets [0, 1] and [0, 2]);
  `SparseCollision.WrongAcceptance` is one that recomputation refuses. A hit is right if and only
  if the entry was made for the same fields, or the request is accepted by itself and its lists
  are fixed or read alike (`SparseAnswers.NormalizeLists`); whenever that fails, a new cache gives
  a wrong answer (`SparseCollision.AnswerBoth`). What a caller can check without looking at lists:
  all lists of the given shapes are read alike exactly if boundaries and offsets place rows and
  slots alike (`SparseAlike.PlacesDecide`). Offsets that fit the boundaries of every request are
  enough for that, and then a whole run is right (`SparseAnswers.NormalizeWellFormed`).
- The causal mask selects the branch for a lower bound, without having computed its offset, when a
  tile lies too far below the diagonal; `CompressedMask.CausalMask` gives the exact condition,
  and tiles inside sequences of 32-bit length never meet it.
- The split pass clears one record more than there are cores, so the record array must have
  room for `blockDim + 1`.
- Split records need at least one query row in every batch, which the caller checks before it
  chooses flash decoding (csrc/ascend910/flash_attn_npu/flash_api.cpp:518-519). The covers do not.

## Model

| member | source | states |
|---|---|---|
| SplitParams.GetQNBlockTile | csrc/ascend910/flash_attn_npu/fa_split.h:27-35 | the largest even head tile within the group whose rows fit 128, or one head if none fits; zero query rows allow the whole group up to 128 heads |
| SplitParams.GetBatchParams | csrc/ascend910/flash_attn_npu/fa_split.h:76-101 | block counts are natural numbers, zero exactly for empty query or key lengths, and there is always a head block |
| KeyBlocks.BlocksHoldKeys | csrc/ascend910/flash_attn_npu/fa_split.h:90-100 | KV block k is an interval of keys: non-empty, at most 512 long, full up to the end of the cached or of the appended keys and never holding both; every cached and appended key is in exactly one block, and the tail is the length of the last one |
| KeyBlocks.KeyHasOneCore | csrc/ascend910/flash_attn_npu/fa_split.h:76-263 | in an exact cover every query row of every head meets every key of its batch, cached or appended, on exactly one core |
| Tiles.TilesPartition | csrc/ascend910/flash_attn_npu/fa_split.h:322-328 | every (head, query row) of a batch lies in exactly one (N1, S1) rectangle, which is named, also when the head tile does not divide the group |
| Tiles.TileShape | csrc/ascend910/flash_attn_npu/fa_split.h:322-331 | a rectangle is non-empty, lies inside one KV-head group and the sequence, has at most 128 (head, row) pairs, and several query blocks mean one head per rectangle |
| Tiles.TilesFollow | csrc/ascend910/flash_attn_npu/fa_split.h:322-328 | each rectangle of a head block starts where the one before it ends, the head blocks of a group follow each other, and the groups too; the last ends at the last head and query row |
| Cover.CoversIsInterval | csrc/ascend910/flash_attn_npu/fa_split.h:302-316 | the four nested loops of a core reach a block if and only if it lies lexicographically in [start, end) |
| Cover.ExtendCover | csrc/ascend910/flash_attn_npu/fa_split.h:131-136 | a core that starts where its predecessors cut the space keeps their in-order cover and moves it to its own end |
| Cover.OneOwner | csrc/ascend910/flash_attn_npu/fa_split.h:103-263 | in an in-order cover every block belongs to exactly one core |
| AutoSchedule.Advance | csrc/ascend910/flash_attn_npu/fa_split.h:140-144 | carrying full counters skips no block and passes no work; a position inside a batch that has blocks is left alone |
| AutoSchedule.KvPhase | csrc/ascend910/flash_attn_npu/fa_split.h:146-157 | only the KV counter moves, forward, at least once while budget and blocks remain; with exact costs the budget falls by the work passed and overshoots by less than one block |
| AutoSchedule.BatchPhase | csrc/ascend910/flash_attn_npu/fa_split.h:170-182 | only whole batches are passed; with exact costs the budget falls by their work, stays non-negative, and does not reach the end of the batch where the phase stops |
| AutoSchedule.HeadPhase | csrc/ascend910/flash_attn_npu/fa_split.h:187-196 | only whole head blocks of the batch are passed, under the same account |
| AutoSchedule.QueryPhase | csrc/ascend910/flash_attn_npu/fa_split.h:202-213 | only whole query blocks of the head block are passed, under the same account |
| AutoSchedule.RollBack | csrc/ascend910/flash_attn_npu/fa_split.h:238-254 | an end at KV block 0 is rewritten to the end of the previous tile, across head blocks and batches, without changing which blocks come before it |
| AutoSchedule.FinishBatch | csrc/ascend910/flash_attn_npu/fa_split.h:122-129 | the closing end has every block of the space before it |
| AutoSchedule.NoneLeft | csrc/ascend910/flash_attn_npu/fa_split.h:219-229 | with exact costs the last phase leaves no budget |
| AutoSchedule.ScheduleCore | csrc/ascend910/flash_attn_npu/fa_split.h:131-257 | for every budget and every cost estimate the core's end cuts the space where the next core starts, which is never before its own start; with exact costs it receives at least its budget unless the space ends, and less than the budget plus one 128 x 512 block |
| FlashDecode.FillCoreInfoForFlashDecode | csrc/ascend910/flash_attn_npu/fa_split.h:103-263 | whatever the cost estimates and lengths: the ranges are an in-order exact cover, cores behind needCoreNum are idle, later table entries untouched; with exact costs the load is balanced and the catch-all does not fire |
| FlashDecode.CatchAll | csrc/ascend910/flash_attn_npu/fa_split.h:260-262 | giving the last core the rest of the space completes the in-order cover |
| FlashDecode.ChainBalances | csrc/ascend910/flash_attn_npu/fa_split.h:131-257 | with exact costs every core but the last used one gets at least the share, and every core less than the share plus 128 x 512 |
| FlashDecode.NoCatchAll | csrc/ascend910/flash_attn_npu/fa_split.h:260-262 | with exact costs and shares that add up to the total, the cores reach the end of the space by themselves |
| Workload.KvCost | csrc/ascend910/flash_attn_npu/fa_split.h:148-155 | with whole head tiles and nothing appended the estimate of a block is its rows times its keys, between 1 and 128 x 512 |
| Workload.QueryCost | csrc/ascend910/flash_attn_npu/fa_split.h:203-206 | the 64-bit estimate of a query block is the work of its blocks, without wrapping |
| Workload.HeadCost | csrc/ascend910/flash_attn_npu/fa_split.h:188-189 | the 32-bit estimate of the rest of a head block is the work of its blocks, without wrapping |
| Workload.BatchCost | csrc/ascend910/flash_attn_npu/fa_split.h:172-174 | the 32-bit estimate of the rest of a batch is the work of its blocks, without wrapping |
| LoadBalance.RangeIsWork | csrc/ascend910/flash_attn_npu/fa_split.h:146-229 | the closed-form work between two positions is the sum over the blocks between them |
| ForcedSplit.CountForceSplitSegments | csrc/ascend910/flash_attn_npu/fa_split.h:374-392 | the number of segments of all non-empty tiles, summed over batches; how many one tile has is stated by SplitsAreEven |
| ForcedSplit.SplitsBound | csrc/ascend910/flash_attn_npu/fa_split.h:381-388 | a tile without keys gets no segment, any other between 1 and num_splits, and its segments just reach the end of its keys |
| ForcedSplit.SplitsAreEven | csrc/ascend910/flash_attn_npu/fa_split.h:384-388 | with p the number of blocks divided by num_splits, rounded up, a tile has as many segments as it takes to reach its end p blocks at a time |
| ForcedSplit.SegmentIsEven | csrc/ascend910/flash_attn_npu/fa_split.h:416-434 | of ks blocks a segment of e blocks has (e - 1) * num_splits < ks, and ks <= e * num_splits unless it ends the tile: all but the last segment of a tile are equally long |
| ForcedSplit.ForceTile | csrc/ascend910/flash_attn_npu/fa_split.h:422-436 | when the segments fit, a tile is cut in order into exactly its number of segments, one per core |
| ForcedSplit.FillCoreInfoForceSplit | csrc/ascend910/flash_attn_npu/fa_split.h:394-441 | if the counted segments fit the cores: exactly that many cores are used, each with one non-empty segment of one tile as long as num_splits equal parts ask for, and together they cover every block in order, also with empty batches |
| ForcedSplit.SegmentOfBlock | csrc/ascend910/flash_attn_npu/fa_split.h:416-434 | the core of a block holds the stretch of blocksPerSplit blocks around it, one of at most num_splits of its tile |
| NoSplit.RankInBatch | csrc/ascend910/flash_attn_npu/fa_split.h:471-485 | row-major ranks of a batch lie between the tile counts before and after it |
| NoSplit.RankCompares | csrc/ascend910/flash_attn_npu/fa_split.h:471-485 | rank order is tile order, and equal ranks mean equal tiles |
| NoSplit.Locate | csrc/ascend910/flash_attn_npu/fa_split.h:469-492 | the tile of a rank, skipping batches without tiles; past the last rank the last tile position |
| NoSplit.DealOwner | csrc/ascend910/flash_attn_npu/fa_split.h:495-518 | core c covers a block if and only if c is the tile's rank divided by the tiles per core |
| NoSplit.FillCoreInfoNoSplit | csrc/ascend910/flash_attn_npu/fa_split.h:443-520 | an in-order exact cover in which core c holds the whole key range of ranks c*per up to at most per more, per being the rounded-up average; all-empty requests use no core |
| SplitSegments.SharedIsSplit | csrc/ascend910/flash_attn_npu/fa_split.h:313-317 | two cores that hold blocks of one tile are both seen as holding less than all of it |
| SplitSegments.OtherHolder | csrc/ascend910/flash_attn_npu/fa_split.h:316-317 | the missing part of a split tile is held, as a split segment, by another core |
| SplitSegments.RunIsOwners | csrc/ascend910/flash_attn_npu/fa_split.h:333-351 | a run of records lists exactly the cores that share its tile, at least two |
| SplitSegments.SharedHasRun | csrc/ascend910/flash_attn_npu/fa_split.h:333-349 | every tile shared by two cores has a run |
| SplitSegments.RunsBound | csrc/ascend910/flash_attn_npu/fa_split.h:336-350 | fewer split tiles than used cores, so the guards on the record array never lose one |
| SplitRecords.CountSegment | csrc/ascend910/flash_attn_npu/fa_split.h:333-354 | one more segment opens a record or extends the last one and advances both offsets; the array keeps listing exactly the runs so far |
| SplitRecords.VisitTile | csrc/ascend910/flash_attn_npu/fa_split.h:312-362 | after a tile the pass has listed exactly the split segments up to it and noted each core's first offset |
| SplitRecords.FillSplitInfoForFlashDecode | csrc/ascend910/flash_attn_npu/fa_split.h:265-372 | the records list exactly the shared tiles in order with nothing behind them, each core carries the offsets of its first split segment, the totals are the sizes of all segments |
| ScratchLayout.RecordIffShared | csrc/ascend910/flash_attn_npu/fa_split.h:333-351 | a tile has a record if and only if at least two cores share it, and then one only |
| ScratchLayout.RecordCountsOwners | csrc/ascend910/flash_attn_npu/fa_split.h:350-351 | splitNum is the number of cores that share the tile |
| ScratchLayout.SlotOfSegment | csrc/ascend910/flash_attn_npu/fa_split.h:343-353 | segment j of a record owns headLen*qLen rows from lseTaskOffset + j*headLen*qLen, and the O offset is head_size_v times the LSE one |
| ScratchLayout.RowHasOneSlot | csrc/ascend910/flash_attn_npu/fa_split.h:350-354 | every scratch row below the total belongs to exactly one segment: disjoint and without a gap |
| ScratchLayout.CoreSlots | csrc/ascend910/flash_attn_npu/fa_split.h:356-360 | a core's first offset is the slot of its first split segment, and its split segments are consecutive |
| Scheduler.ChooseCores | csrc/ascend910/flash_attn_npu/fa_split.h:532-552 | each choice of schedule yields a table the split pass may run on, with what that schedule promises: even segments, whole tiles in equal runs, or, with exact costs, fair shares of the work |
| Scheduler.WholeTilesOnly | csrc/ascend910/flash_attn_npu/fa_split.h:540-543 | in the schedule without splitting no tile is seen as split |
| Scheduler.SplitBN2S1GS2 | csrc/ascend910/flash_attn_npu/fa_split.h:522-554 | the whole call: an exact cover that keeps the promise of the chosen schedule, records of exactly the shared tiles, at most needCoreNum - 1 of them, none for the unsplit schedule, and scratch sizes of four bytes a value |
| KernelWalk.KernelRowsAgree | csrc/ascend910/flash_attn_npu/mha_fwd_kvcache.cpp:418-426 | the rows by which the kernel advances are those the scheduler allocates for the tile, also for a ragged last head tile |
| KernelWalk.KernelBlocksAgree | csrc/ascend910/flash_attn_npu/mha_fwd_kvcache.cpp:381-386 | the kernel counts as many KV blocks in a batch as the scheduler, also with appended keys |
| KernelWalk.KernelReadsBlock | csrc/ascend910/flash_attn_npu/mha_fwd_kvcache.cpp:902-916 | where no mask cuts the keys, the stack the kernel reads for a block is exactly the block's interval of cached or appended keys |
| KernelWalk.WalkTile | csrc/ascend910/flash_attn_npu/mha_fwd_kvcache.cpp:396-428 | a split tile is written at the running offsets, which then advance; other tiles write nothing |
| KernelWalk.Walk | csrc/ascend910/flash_attn_npu/mha_fwd_kvcache.cpp:344-431 | the split tiles a core writes are exactly its listed segments in order, each at the scratch slot the scheduler allocated |
| CombineMath.MergedLseIsLse | csrc/ascend910/flash_attn_npu/combine_scale.hpp:165-194 | max-shifted merging of per-segment log-sum-exps gives the log-sum-exp over all keys, for any partition with a key in it, empty segments included |
| CombineMath.WeightsSumToOne | csrc/ascend910/flash_attn_npu/combine_scale.hpp:248-256 | the weights exp(lse_s - lse) of a row sum to 1 |
| CombineMath.MergedOutIsAttention | csrc/ascend910/flash_attn_npu/combine_scale.hpp:248-309 | the weighted sum of segment outputs is softmax attention over all keys |
| CombineMerge.MaxPadded | csrc/ascend910/flash_attn_npu/combine_scale.hpp:150-168 | rows of the lowest value behind the segments do not change the column maximum |
| CombineMerge.SumPadded | csrc/ascend910/flash_attn_npu/combine_scale.hpp:151-186 | rows of zero behind the segments do not change the column sum |
| CombineMerge.MergeColumns | csrc/ascend910/flash_attn_npu/combine_scale.hpp:165-194 | every column that holds a row's log-sum-exps above padding is left with the padded reductions of that row |
| CombineMerge.RowLseIsMerged | csrc/ascend910/flash_attn_npu/combine_scale.hpp:150-194 | for a row with a key in some segment the padded reductions are the merged log-sum-exp of the segments alone |
| CombineHalf.SlotOfBlock | csrc/ascend910/flash_attn_npu/combine_scale.hpp:113-160 | the strided read of a half starts every segment at that segment's scratch slot for its rows |
| CombineHalf.TileSource | csrc/ascend910/flash_attn_npu/combine_scale.hpp:114-284 | the element offset of a tile of segment s is the scratch slot of its first row times the head size |
| CombineHalf.MergeHalfLse | csrc/ascend910/flash_attn_npu/combine_scale.hpp:133-194 | loading and reducing a half leaves, for each of its rows, the segments' values and their merged one |
| CombineHalf.AccumulateTile | csrc/ascend910/flash_attn_npu/combine_scale.hpp:280-310 | a tile accumulates, over all segments, the weighted partial rows of its own rows |
| CombineHalf.AllAccumulated | csrc/ascend910/flash_attn_npu/combine_scale.hpp:280-310 | after the last segment the accumulated rows are the merged rows |
| CombineRows.RowIndexAscends | csrc/ascend910/flash_attn_npu/combine_scale.hpp:122-131 | output rows ascend with the flat rows of a task, so no two rows of a task share one |
| CombineRows.HalvesEven | csrc/ascend910/flash_attn_npu/combine_scale.hpp:109-110 | the two halves of a task differ by at most one row, or by the rows of one query, and then both start with a query row |
| CombineTiles.GmOScalarIsRow | csrc/ascend910/flash_attn_npu/combine_scale.hpp:122-131 | the base offset of either half is the row map at the half's first flat row |
| CombineTiles.WriteSingleQuery | csrc/ascend910/flash_attn_npu/combine_scale.hpp:322-324 | the single block copy puts each row where the row map says and nothing elsewhere |
| CombineTiles.WriteWholeQueries | csrc/ascend910/flash_attn_npu/combine_scale.hpp:325-333 | one copy per query row: the same row map |
| CombineTiles.WriteRagged | csrc/ascend910/flash_attn_npu/combine_scale.hpp:334-352 | runs cut at query-row ends, for tiles that start or end anywhere: the same row map |
| CombineTiles.WriteTile | csrc/ascend910/flash_attn_npu/combine_scale.hpp:322-352 | whichever branch is taken, a tile's rows land at their output rows and all others are unchanged |
| CombineLse.LseIndexDiffers | csrc/ascend910/flash_attn_npu/combine_scale.hpp:196-242 | every row of a task has its own log-sum-exp address |
| CombineLse.WriteLse | csrc/ascend910/flash_attn_npu/combine_scale.hpp:196-242 | both write patterns store each value of a half at its address and nothing elsewhere |
| CombineScale.CombineRowsOf | csrc/ascend910/flash_attn_npu/combine_scale.hpp:258-354 | tile by tile every merged row of a half is written at its output row, once |
| CombineScale.TokenTileFits | csrc/ascend910/flash_attn_npu/combine_scale.hpp:258-261 | a tile of padded rows fits the line buffer of 32768 bytes, and one more row, or query row where tiles hold whole ones, would not |
| CombineScale.CombineProcess | csrc/ascend910/flash_attn_npu/combine_scale.hpp:100-356 | one process stores exactly the merged rows, and if asked the merged log-sum-exps, of its half task |
| CombineRun.HalvesCover | csrc/ascend910/flash_attn_npu/combine_scale.hpp:110-114 | every row of a task lies in one of its halves |
| CombineRun.StepsSeparate | csrc/ascend910/flash_attn_npu/combine_scale.hpp:100-131 | different half tasks store to different addresses |
| CombineRun.RunSubBlock | csrc/ascend910/flash_attn_npu/combine_scale.hpp:95-100 | a sub-block stores exactly its strided half tasks |
| CombineRun.Combine | csrc/ascend910/flash_attn_npu/combine_scale.hpp:76-357 | all sub-blocks together store every row of every task at its address and change nothing else |
| CombineLink.RecordPlaced | csrc/ascend910/flash_attn_npu/combine_scale.hpp:101-133 | a record of the split pass has all its segments inside the scratch buffers and its rows inside the outputs |
| CombineLink.RecordsDiffer | csrc/ascend910/flash_attn_npu/fa_split.h:337-342 | two records share no (batch, head, query row) |
| CombineLink.RecordsAreTasks | csrc/ascend910/flash_attn_npu/combine_scale.hpp:100-133 | records of an exact cover are tasks with pairwise different output rows and log-sum-exp addresses, in both layouts |
| CombineResult.MergedRowIsAttention | csrc/ascend910/flash_attn_npu/combine_scale.hpp:150-309 | if the partial results are those of the parts of a row's keys, the merged row and value are attention and log-sum-exp over all its keys |
| CombineResult.CombineRecords | csrc/ascend910/flash_attn_npu/combine_scale.hpp:76-357 | run on the scheduler's records, every row of every split tile ends up holding attention over all its keys at its BSND/TND address, and its log-sum-exp if asked for |
| SplitKeys.RunFollows | csrc/ascend910/flash_attn_npu/fa_split.h:313-316 | a segment of a shared tile starts at the KV block where the segment before it stops |
| SplitKeys.RunHasAllKeys | csrc/ascend910/flash_attn_npu/fa_split.h:302-317 | the segments of a shared tile stand for all keys of the tile, each once and in order |
| KernelRun.RunSegment | csrc/ascend910/flash_attn_npu/mha_fwd_kvcache.cpp:402-427 | a split tile's partial results fill its slot and leave the earlier slots alone |
| KernelRun.RunKernel | csrc/ascend910/flash_attn_npu/mha_fwd_kvcache.cpp:344-431 | after all cores the slot of every segment holds the partial results of that segment's stretch of blocks, for every row |
| SplitAttention.PartsAreAll | csrc/ascend910/flash_attn_npu/combine_scale.hpp:133-160 | the segments behind a record make up all keys of each of its rows, key 0 to the last appended one, each once and in order |
| SplitAttention.BuffersFilled | csrc/ascend910/flash_attn_npu/combine_scale.hpp:156-160 | after the kernel the scratch buffers are what the combine step needs, every slot row of every record filled, whichever batches or rows have keys |
| SplitAttention.RecordPartial | csrc/ascend910/flash_attn_npu/combine_scale.hpp:280-286 | what the combine step reads for a row of a record are the partial results over the parts of the row's keys |
| WholeRun.PlacesDiffer | csrc/ascend910/flash_attn_npu/combine_scale.hpp:116-131 | different (batch, head, query row) have different output rows and different log-sum-exp addresses, in both layouts |
| WholeRun.OutRowsFollow | csrc/ascend910/flash_attn_npu/combine_scale.hpp:116-131 | output rows run without a gap over the heads of a query row, the query rows of a batch and the batches, from 0 on |
| WholeRun.LseFollow | csrc/ascend910/flash_attn_npu/combine_scale.hpp:196-242 | log-sum-exps run without a gap over the query rows of a head, per batch head after head, or, packed, over all batches |
| WholeRun.FindRecord | csrc/ascend910/flash_attn_npu/fa_split.h:333-349 | every row of a shared tile is a flat row of some record |
| WholeRun.RecordIsShared | csrc/ascend910/flash_attn_npu/fa_split.h:333-349 | every flat row of a record is a row of a shared tile |
| WholeRun.CombineAfterKernel | csrc/ascend910/flash_attn_npu/combine_scale.hpp:76-357 | after the kernel, combining leaves attention over all its keys in every row of a shared tile that sees a key, and every other row untouched, also with empty batches |
| WholeRun.DecodeRun | csrc/ascend910/flash_attn_npu/fa_split.h:522-554 | schedule, kernel and combine step together, empty KV caches and appended keys included: if the kernel's partial results are right, every row of a shared tile that sees a key ends up as attention over keys 0, 1, ... up to the last appended one, with its log-sum-exp, and rows of other tiles are untouched |
| SparseLists.TransposedMembers | flash_attn_npu_4/catlass_dsl/block_sparsity.py:262-293 | row r is in list c of the transposed table if and only if c is in list r of the table |
| SparseLists.TransposedTwice | flash_attn_npu_4/catlass_dsl/block_sparsity.py:262-293 | transposing twice gives each list in ascending order |
| SparseLists.EdgesKept | flash_attn_npu_4/catlass_dsl/block_sparsity.py:278-290 | the transposed table has as many entries as the table |
| StableSort.StableArgsort | flash_attn_npu_4/catlass_dsl/block_sparsity.py:279-280 | a permutation of the positions, ordered by key and then by position |
| StableSort.CountLessSplits | flash_attn_npu_4/catlass_dsl/block_sparsity.py:284-285 | in a sorted sequence the entries below a key are its first ones, as many as there are |
| StableSort.ScatterAdd | flash_attn_npu_4/catlass_dsl/block_sparsity.py:281-283 | the count of every list; keys of dead slots add nothing |
| SparseTranspose.KeyIsEdge | flash_attn_npu_4/catlass_dsl/block_sparsity.py:274-278 | an edge has the key of list (g, c) if and only if it is a live slot of group g that names c |
| SparseTranspose.GatheredIsRowsWith | flash_attn_npu_4/catlass_dsl/block_sparsity.py:279-290 | the sorted edges of a list name exactly, ascending, the rows whose list holds its column |
| SparseTranspose.LiveTarget | flash_attn_npu_4/catlass_dsl/block_sparsity.py:284-288 | a live edge is scattered to a slot of its own inside its list; dead slots go to the sentinel behind all lists |
| SparseTranspose.Scatter | flash_attn_npu_4/catlass_dsl/block_sparsity.py:285-293 | every slot holds its sorted edge's row, or zero |
| SparseTranspose.TransposePair | flash_attn_npu_4/catlass_dsl/block_sparsity.py:262-293 | the result is the transposed table, ascending, zero behind the live entries, also without any slot |
| SparseTranspose.TransposeMembers | flash_attn_npu_4/catlass_dsl/block_sparsity.py:262-293 | membership is exchanged, output lists ascend, and the number of entries is kept |
| SparseTranspose.TransposeBack | flash_attn_npu_4/catlass_dsl/block_sparsity.py:262-293 | transposing the output back gives the original lists in ascending order |
| SparseTranspose.PaddedLists | flash_attn_npu_4/catlass_dsl/block_sparsity.py:200-203 | widening the slots changes no list |
| SparsePacked.Offsets | flash_attn_npu_4/catlass_dsl/block_sparsity.py:404-407 | the two cumulative arrays are the running sums of rows and of rows times columns |
| SparsePacked.Pack | flash_attn_npu_4/catlass_dsl/block_sparsity.py:419-427 | packing joins the real rows of all segments, each cut or zero-padded to its segment's columns |
| SparsePacked.UnpackPack | flash_attn_npu_4/catlass_dsl/block_sparsity.py:206-259 | unpacking a packed layout gives back every real row and zeros elsewhere, for any target height and width |
| SparsePacked.LiveEntriesKept | flash_attn_npu_4/catlass_dsl/block_sparsity.py:206-259 | counts and live entries of real rows survive packing and unpacking |
| SparsePacked.PackUnpack | flash_attn_npu_4/catlass_dsl/block_sparsity.py:419-428 | packing an unpacked well-formed packed list returns it unchanged, unused slots included |
| SparsePacked.UnpackByOffsets | flash_attn_npu_4/catlass_dsl/block_sparsity.py:231-257 | requests whose block counts fit the same offsets unpack a packed list to the same layout |
| SparsePacked.PackedExport | flash_attn_npu_4/catlass_dsl/block_sparsity.py:397-440 | the export has offsets that fit; it fails only if they do not fit 32 bits, or if offsets brought along differ from those of the sequence lengths |
| SparsePacked.ExportRoundTrip | flash_attn_npu_4/catlass_dsl/block_sparsity.py:397-440 | unpacking an export gives back every real row |
| SparsePacked.NarrowOffsets | flash_attn_npu_4/catlass_dsl/block_sparsity.py:404-409 | every offset fits a signed 32-bit number if and only if the last ones do |
| SparsePacked.BlocksHold | flash_attn_npu_4/catlass_dsl/block_sparsity.py:402-403 | r blocks for n tokens: (r - 1) * 128 < n <= r * 128, none for none |
| SparseGrid.TransposedList | flash_attn_npu_4/catlass_dsl/block_sparsity.py:262-293 | list c of the exchanged table holds the rows that name c, ascending, with zeros behind them, for every batch and head |
| SparseGrid.TransposedBack | flash_attn_npu_4/catlass_dsl/block_sparsity.py:308-323 | a table whose lists name the rows of another one, exchanged, has that table's lists in ascending order |
| SparseGrid.SameTransposes | flash_attn_npu_4/catlass_dsl/block_sparsity.py:262-293 | two tables exchange to the same one if and only if their rows name the same columns |
| SparseGrid.SpreadList | flash_attn_npu_4/catlass_dsl/block_sparsity.py:316-320 | expanding axes of length 1 changes no list |
| SparseGrid.PaddedList | flash_attn_npu_4/catlass_dsl/block_sparsity.py:200-203 | widening the slots changes no list |
| SparseGridTranspose.TransposeGrid | flash_attn_npu_4/catlass_dsl/block_sparsity.py:262-293 | sorting the edges of all batches and heads at once computes the exchanged table, slot by slot |
| SparseRequest.FixedCells | flash_attn_npu_4/catlass_dsl/block_sparsity.py:207-228 | counts and slots of fixed lists are read through their axes of length 1 |
| SparseRequest.AcceptedIff | flash_attn_npu_4/catlass_dsl/block_sparsity.py:296-327 | normalisation succeeds if and only if lengths, boundaries, offsets and shapes pass their checks and the result stays within the 32-bit index range; no list is looked at |
| SparseRequest.ForwardList | flash_attn_npu_4/catlass_dsl/block_sparsity.py:308-327 | forward, every partial and full list is the one that was given, in either layout; absent full lists are empty |
| SparseRequest.BackwardList | flash_attn_npu_4/catlass_dsl/block_sparsity.py:308-327 | backward, the list of query block c holds exactly the key blocks whose own list names c, ascending, for partial and full lists in either layout |
| SparseTokens.PairTokens | flash_attn_npu_4/catlass_dsl/block_sparsity.py:229-259 | row m of a segment is read from the packed counts if and only if 128 m is below the segment's rows of tokens, and slot w if also 128 w is below its columns of tokens; all else is zero |
| SparseTokens.ForwardTokens | flash_attn_npu_4/catlass_dsl/block_sparsity.py:308-327 | forward, the normalised lists are those of exactly the row blocks that have tokens, for partial and full lists of every head |
| SparseTokens.BackwardTokens | flash_attn_npu_4/catlass_dsl/block_sparsity.py:308-327 | backward, a list names exactly the key blocks with tokens whose own packed list names it |
| SparseTokens.TransposedTokens | flash_attn_npu_4/catlass_dsl/block_sparsity.py:397-409 | the packed offsets of the transposed request start at zero and advance by the blocks of a segment's keys, and by those times the blocks of its queries |
| SparseTokens.LengthsRound | flash_attn_npu_4/catlass_dsl/block_sparsity.py:20-23 | lengths are accepted if and only if they are positive and 127 can be added in signed 32 bits |
| SparseTokens.BoundaryDecides | flash_attn_npu_4/catlass_dsl/block_sparsity.py:51-74 | boundaries are accepted if and only if they have one entry more than batches and, read on the CPU, start at zero with no segment negative or longer than the maximum |
| SparseTokens.PairDecides | flash_attn_npu_4/catlass_dsl/block_sparsity.py:206-228 | a pair is accepted if and only if its axes are 1 or those of attention, fixed lists have a row for every 128 tokens begun and no more slots than columns, and packed offsets have one entry more than batches |
| SparseTokens.SizeDecides | flash_attn_npu_4/catlass_dsl/block_sparsity.py:324-327 | a request that passes all other checks fails if and only if its result has 2^31 slots or more |
| SparseAlike.FixedAlike | flash_attn_npu_4/catlass_dsl/block_sparsity.py:207-228 | fixed lists are normalised alike with the boundaries swapped, if and only if the swapped boundaries are accepted |
| SparseAlike.PackedCells | flash_attn_npu_4/catlass_dsl/block_sparsity.py:229-259 | row m of segment i reads the count at its row offset plus m and slot w at its index offset plus m times its columns plus w; rows, slots and places beyond the segment or the list read zero |
| SparseAlike.SwapAlike | flash_attn_npu_4/catlass_dsl/block_sparsity.py:296-327 | an accepted request and the one with the boundaries swapped are normalised alike if and only if that one is accepted and reads the same cells, or backward the same names |
| SparseAlike.PlacesDecide | flash_attn_npu_4/catlass_dsl/block_sparsity.py:229-259 | forward and backward, they are normalised alike for all lists of these shapes if and only if the swapped one is accepted and boundaries and offsets place every row and slot alike (backward, the slots of rows that have a count) |
| SparseAlike.MatchingAlike | flash_attn_npu_4/catlass_dsl/block_sparsity.py:229-259 | they are alike if the offsets fit both readings of the boundaries, whatever the lists hold |
| SparseExchange.RereadList | flash_attn_npu_4/catlass_dsl/block_sparsity.py:419-428 | a list that is packed and unpacked again is kept if it fits its segment's columns, and rows behind the segment are empty |
| SparseExchange.TranspositionIff | flash_attn_npu_4/catlass_dsl/block_sparsity.py:754-766 | transposing succeeds if and only if the request is accepted and, where the result is packed, its offsets fit 32 bits |
| SparseExchange.ResultPairs | flash_attn_npu_4/catlass_dsl/block_sparsity.py:754-766 | fixed or packed, the backward pass reads from the result, for every key block, exactly the query blocks whose list names it, ascending, for partial and full lists |
| SparseExchange.ThereAndBack | flash_attn_npu_4/catlass_dsl/block_sparsity.py:296-327 | transposing and normalising with backward=True gives every original partial and full list back in ascending order, for fixed and packed input and output, and succeeds if and only if the index range suffices |
| SparseOperations.Normalise | flash_attn_npu_4/catlass_dsl/block_sparsity.py:296-327 | the sorting computation gives the normalised tables, or fails, as specified; ForwardTokens and BackwardTokens say which lists of the request those are |
| SparseOperations.PackHeads | flash_attn_npu_4/catlass_dsl/block_sparsity.py:419-428 | packing head by head gives the two packed tensors |
| SparseOperations.TransposeBlockSparsity | flash_attn_npu_4/catlass_dsl/block_sparsity.py:754-766 | sorting and packing compute the transposed request, or fail, as specified; ResultPairs and TransposedTokens say what it holds |
| SparseCache.CurrentIsFresh | flash_attn_npu_4/catlass_dsl/block_sparsity.py:368-379 | a sound entry whose saved versions still hold is what recomputation would give now |
| SparseCache.AllSoundPut | flash_attn_npu_4/catlass_dsl/block_sparsity.py:390-391 | storing an entry keeps all others sound and the keys different |
| SparseCache.NormalizeCache.Mutate | flash_attn_npu_4/catlass_dsl/block_sparsity.py:145-158 | changing a tensor in place raises its version and leaves the cache sound |
| SparseCache.NormalizeCache.Lookup | flash_attn_npu_4/catlass_dsl/block_sparsity.py:368-373 | a hit needs the key and all saved versions, and becomes the newest entry; a miss changes nothing |
| SparseCache.NormalizeCache.Store | flash_attn_npu_4/catlass_dsl/block_sparsity.py:390-393 | the entry replaces one of its key or comes last, and only the newest 64 stay |
| SparseCache.RecentStays | flash_attn_npu_4/catlass_dsl/block_sparsity.py:368-393 | an entry last used or made before fewer than 64 other uses or makings is still there: the least recently used go first |
| SparseCache.NormalizeCache.Normalize | flash_attn_npu_4/catlass_dsl/block_sparsity.py:330-394 | in every interleaving of calls, evictions and mutations the answer is what recomputation gives now under the pattern of supplied fields its key was stored with |
| SparseCache.NormalizeOnePattern | flash_attn_npu_4/catlass_dsl/block_sparsity.py:330-394 | over a run whose requests supply the same optional fields every answer is what recomputation gives now |
| SparseCache.KeyAndPattern | flash_attn_npu_4/catlass_dsl/block_sparsity.py:355-367 | two requests with equal keys are equal if and only if they supply the same optional fields |
| SparseAnswers.FieldsOfRequest | flash_attn_npu_4/catlass_dsl/block_sparsity.py:354-357 | the tensors of a request in field order, without those not supplied, give back its fields |
| SparseAnswers.RefusedFirst | flash_attn_npu_4/catlass_dsl/block_sparsity.py:176-197 | a request whose pairs are incomplete, whose offsets are not one-dimensional or whose block size is not 128 x 128, and no other, is refused before the cache is asked |
| SparseAnswers.SameOrSwapped | flash_attn_npu_4/catlass_dsl/block_sparsity.py:355-367 | two accepted requests over the same tensors supply the same fields, or one gives for the keys the boundary that the other gives for the queries |
| SparseAnswers.ServesExactly | flash_attn_npu_4/catlass_dsl/block_sparsity.py:355-379 | an answer made for one pattern of fields is what recomputation gives for another one if and only if that request is accepted and its lists are fixed or read alike |
| SparseAnswers.NormalizeLists | flash_attn_npu_4/catlass_dsl/block_sparsity.py:330-394 | in any state of the cache, under evictions and mutations, the answer is what recomputation gives now if and only if the entry serves the request |
| SparseAnswers.PlacesServe | flash_attn_npu_4/catlass_dsl/block_sparsity.py:355-379 | an entry serves an accepted request if boundaries and offsets place all rows and slots alike |
| SparseAnswers.WellFormedServes | flash_attn_npu_4/catlass_dsl/block_sparsity.py:355-379 | an entry serves a request if both are accepted and the offsets of packed lists fit their boundaries |
| SparseAnswers.NormalizeWellFormed | flash_attn_npu_4/catlass_dsl/block_sparsity.py:330-394 | over a run of well-formed requests, with any evictions and mutations, every answer is what recomputation gives now |
| SparseCollision.AnswerBoth | flash_attn_npu_4/catlass_dsl/block_sparsity.py:355-393 | on a new cache, for any tensors and two patterns with one key, the second answer is right if and only if the first one serves it |
| SparseCollision.WrongLists | flash_attn_npu_4/catlass_dsl/block_sparsity.py:355-393 | one row of packed lists, forward or backward on any device: the cached answer differs from what recomputation gives for an accepted request |
| SparseCollision.WrongAcceptance | flash_attn_npu_4/catlass_dsl/block_sparsity.py:355-393 | fixed lists on the CPU: the cache answers a request that recomputation refuses |
| SfmgRank.RankUnique | csrc/ascend910/flash_attn_npu/fag_epilogue_sfmg.hpp:118-143 | different (b, n, s) have different ranks, with empty sequences allowed |
| SfmgRank.RankOnto | csrc/ascend910/flash_attn_npu/fag_epilogue_sfmg.hpp:118-143 | every rank below the total is the rank of a row |
| SfmgGather.FixedPlace | csrc/ascend910/flash_attn_npu/fag_epilogue_sfmg.hpp:137-141 | the divisions of the fixed layout find the row of a rank |
| SfmgGather.PackedPlace | csrc/ascend910/flash_attn_npu/fag_epilogue_sfmg.hpp:124-132 | the divisions of the packed layout find the row of a rank inside its batch |
| SfmgGather.DenseAddr | csrc/ascend910/flash_attn_npu/fag_epilogue_sfmg.hpp:145-159 | in a dense tensor the row of (b, n, s) is at ((tokens before b + s) * heads + n) * headdim, the tokens before b being b * seqQ or, packed, the end of the sequence before it |
| SfmgGather.RowsApart | csrc/ascend910/flash_attn_npu/fag_epilogue_sfmg.hpp:145-159 | for strides that do not overlap, different rows lie at least headdim apart, in both layouts |
| SfmgGather.Odometer.InitIndex | csrc/ascend910/flash_attn_npu/fag_epilogue_sfmg.hpp:118-143 | started at any batch not behind the rank, the odometer lands on the row of the rank, and the current length is that of its sequence |
| SfmgGather.Odometer.DoCopyIn | csrc/ascend910/flash_attn_npu/fag_epilogue_sfmg.hpp:145-166 | a strided copy reads the rows of consecutive ranks |
| SfmgGather.Odometer.Borrow | csrc/ascend910/flash_attn_npu/fag_epilogue_sfmg.hpp:178-192 | borrowing over heads, batches and empty sequences keeps the rank, and ends only at the total |
| SfmgGather.Odometer.CopyInSfmg | csrc/ascend910/flash_attn_npu/fag_epilogue_sfmg.hpp:168-202 | exactly the rows of the next ranks are gathered, in rank order, and the odometer moves on by as many |
| SfmgCores.Dealt | csrc/ascend910/flash_attn_npu/fag_epilogue_sfmg.hpp:85-97 | the used cores' stretches follow each other, none is empty, none is longer than the average rounded up, and they end at the total |
| SfmgCores.Bursts | csrc/ascend910/flash_attn_npu/fag_epilogue_sfmg.hpp:94-99 | a core's bursts are full but for a non-empty last one, and add up to its stretch |
| SfmgCores.RunCore | csrc/ascend910/flash_attn_npu/fag_epilogue_sfmg.hpp:204-300 | with the next burst gathered before the current one is stored, a core stores the slot of every rank of its stretch and no other |
| SfmgCores.RunCores | csrc/ascend910/flash_attn_npu/fag_epilogue_sfmg.hpp:204-300 | all cores together store the slot of every rank below the total, once |
| SfmgCores.ConsumerReadsRank | csrc/ascend910/flash_attn_npu/fag_epilogue_op.hpp:1049-1058 | sfmgOffset plus the row step addresses the slot of the row's own rank, in both layouts |
| SfmgCores.ConsumerFindsRow | csrc/ascend910/flash_attn_npu/fag_epilogue_op.hpp:858-862 | what the consumer reads for row (b, n, s) is the reduction of that row of both tensors |
| SfmgCores.ConsumerFindsToken | csrc/ascend910/flash_attn_npu/fag_epilogue_op.hpp:858-862 | with dense tensors the consumer reads for row (b, n, s) the reduction of the rows at ((tokens before b + s) * heads + n) * headdim of both tensors |
| CompressedMask.ShiftedTriangle | csrc/ascend910/flash_attn_npu/fag_epilogue_op.hpp:436-453 | for every shift the clamped offset stays inside the 2048 x 2048 mask and shows exactly j > i + shift |
| CompressedMask.ApplyShifted | csrc/ascend910/flash_attn_npu/fag_epilogue_op.hpp:649-653 | applying a clamped tile cuts exactly above, or exactly up to, the shifted diagonal |
| CompressedMask.Masker.UpdateToken | csrc/ascend910/flash_attn_npu/fag_epilogue_op.hpp:380-391 | if the bounds are those of a window, query i of the batch sees exactly the keys from i minus the first to i plus the second aligned bound |
| CompressedMask.Masker.CalcAttenBandMode | csrc/ascend910/flash_attn_npu/fag_epilogue_op.hpp:468-497 | either mask is skipped if and only if it cuts nothing off the tile extended by one column, or one row, at the shift it would be applied with |
| CompressedMask.SkippedBounds | csrc/ascend910/flash_attn_npu/fag_epilogue_op.hpp:485-496 | a mask is skipped if and only if it cuts nothing off the tile extended by one column, or one row |
| CompressedMask.Masker.MaskScores | csrc/ascend910/flash_attn_npu/fag_epilogue_op.hpp:739-758 | a tile of scores is overwritten exactly where the steps of its mode cut |
| CompressedMask.BandMask | csrc/ascend910/flash_attn_npu/fag_epilogue_op.hpp:485-519 | in band mode, whichever masks are skipped, a position is kept if and only if it lies between the two bounds |
| CompressedMask.CausalMask | csrc/ascend910/flash_attn_npu/fag_epilogue_op.hpp:476-512 | in causal mode the tile is cut exactly right of the shifted diagonal if and only if its place does not select the branch for a lower bound, whose offset is never computed |
| CompressedMask.BandIsWindow | csrc/ascend910/flash_attn_npu/fag_epilogue_op.hpp:514-519 | with the host's bounds, -1 becoming the largest integer, the band is the attention window |
| CompressedMask.CausalIsWindow | csrc/ascend910/flash_attn_npu/fag_epilogue_op.hpp:508-511 | for tiles inside sequences of 32-bit length the causal mask is the causal window |
| CompressedMask.MaskTile | csrc/ascend910/flash_attn_npu/fag_epilogue_op.hpp:637-653 | after masking a tile of a batch a score is kept exactly if the window shows its key |
| AttentionWindow.NormalizeAttentionWindow | csrc/ascend910/attention_window.h:12-26 | for all lengths up to the maxima every query sees the same keys before and after; the flags are exclusive and classify the result; bounds that stay can still cut |
| AttentionWindow.Tight | csrc/ascend910/attention_window.h:7-10 | a window hides a key of some allowed lengths if and only if one of its bounds is short of the longest sequences |
| PrefixTiling.UniformPrefixes | csrc/ascend910/flash_attn_npu/fag_general_host.cpp:135-136 | monotone prefixes with bounded segments and the largest possible total are the multiples of the maximum, and no others |
| PrefixTiling.ReconstructedEnds | csrc/ascend910/flash_attn_npu/fag_general_host.cpp:166-173 | the reconstructed endpoints are those on the device |
| PrefixTiling.Reconstruct | csrc/ascend910/flash_attn_npu/fag_general_host.cpp:168-173 | one endpoint per segment, as 32-bit values |
| PrefixTiling.UniformFromKey | csrc/ascend910/flash_attn_npu/fag_general_host.cpp:141-184 | for uniform requests the tiling follows from the key alone and is the one from the device prefixes |
| PrefixTiling.UniformExactly | csrc/ascend910/flash_attn_npu/fag_general_host.cpp:135-136 | a well-formed packed request takes the cached path if and only if every segment of queries and of keys has the maximum length |
| PrefixTiling.FreshAnswers | csrc/ascend910/flash_attn_npu/fag_general_host.cpp:100-187 | field by field, what the tiling computation is given: query heads, KV heads, lengths, head sizes, scale, 1 - dropout, mask with right bound 0 exactly for causal, layout, the endpoints on the device; its result is returned with the maxima, its failure is a failure |
| PrefixTiling.OneDescription | csrc/ascend910/flash_attn_npu/fag_general_host.cpp:100-187 | these fields determine what the tiling computation is given |
| PrefixTiling.LastEntriesStay | csrc/ascend910/flash_attn_npu/fag_general_host.cpp:193-197 | the cache holds the last 32 tilings made, oldest first |
| PrefixTiling.TilingCache.Find | csrc/ascend910/flash_attn_npu/fag_general_host.cpp:153-161 | an entry of the key if there is one, and none only if there is none |
| PrefixTiling.TilingCache.Launch | csrc/ascend910/flash_attn_npu/fag_general_host.cpp:135-198 | over any call sequence a launch gets the tiling that the computation gives for the launch described field by field, with its own prefixes; only uniform misses change the cache, which drops its oldest entry at 32 |

## Left out

- Fixed-width integers: positions, block counts, tile indices and offsets are mathematical integers; only the cost estimates, the per-core budget and the reconstructed endpoints are given their 32- and 64-bit widths.
- Hardware synchronisation, local buffer offsets, vector alignment and matrix tiles; local buffers of the combine step are values, its outputs arrays.
- Vector sub-blocks and cores run one after another; their stores are proved to go to different addresses, so their order does not matter.
- Floating-point rounding, 16-bit casts and softcap; sort keys are exact because they are floats only up to 2^24.
- CombineMath.MergedLseIsLse: needs one key in the row, as the logarithm of nothing is not a number; what a row without keys holds after combining is not stated.
- CombineResult.CombineRecords: the head size is at most 8192, as one row must fit the line buffer, and the number of sub-blocks is even.
- KernelWalk.KernelReadsBlock: masks that cut keys off a block, and the copy of appended keys into the cache.
- WholeRun.DecodeRun: the attention kernel's arithmetic (scores, masks, online softmax over a stretch of blocks) is a parameter assumed right; what it writes to the output for tiles of a single core is not modelled; what a row of a shared tile holds that sees no key is not stated.
- CombineHalf.MergeHalfLse: bulk vector operations (reduce, broadcast, exp) are loops over values.
- FlashDecode.FillCoreInfoForFlashDecode: balance is promised only with exact costs; otherwise the shares depend on the wrapped estimates.
- Scheduler.SplitBN2S1GS2: the total work is not wrapped to 64 bits.
- SparseTranspose.TransposePair: distinct in-range lists are the caller's promise, as in the source, which does not check them on the device.
- StableSort.StableArgsort: the library sort is any stable sort; insertion sort stands for it.
- SparsePacked.Unpack: the layouts of one head; SparseRequest joins the heads.
- SparseGrid.Transpose: for lists that repeat a column or name one out of range the program's sort does something else; distinct in-range lists are the caller's promise there.
- SparseExchange.Transposition: boundaries must start at zero with segments up to the maximum, which the program checks on the CPU and takes as the caller's promise on a device.
- SparseRequest.Normalised: type, stride and contiguity checks of the tensors, and that they are on one device; the scheduling fields that must be absent.
- SparseCache.NormalizeCache.Normalize: lock, streams and events; a tensor's identity is never reused while an entry holds it.
- SfmgCores.RunCores: needs at least one row, as the host returns before the launch otherwise (csrc/ascend910/flash_attn_npu/fag_general_host.cpp:84-90); the reduction of a row pair is any function.
- CompressedMask.MaskTile: the mode without compression and dropout masks; tiles have rows + columns of at most 2048.
- CompressedMask.Masker.UpdateToken: in the fixed layout the host has added the same differences before, so one alignment stands for both.
- PrefixTiling.TilingCache.Launch: the tiling computation is any function of what it is given; threads have caches of their own.
- Construction of sparse metadata from masks, its merge of full into partial lists, autograd and operator wrappers, benchmarks: simple properties, or calls into a framework.
