# UrsaDB, verified model

UrsaDB finds files by the n-grams they contain. A dataset holds one inverted index per n-gram type
(`gram3`, `text4`, `hash4`, `wide8`): for each of 2^24 n-gram numbers, the ids of the files that
contain it. A query of byte patterns is planned as a query of n-grams, optimized, and run on the
indexes. A broker hands requests to workers; locks, snapshots and garbage collection keep the workers
from disturbing each other. This project models these three parts and proves what they are for:

* **Queries.** Planning loses no file, optimizing changes no answer and reaches a normal form, and
  running a query gives exactly the ids that the set semantics gives, whichever short cuts are taken.
* **Indexes.** What the two index builders write is determined by the list of files alone; it can be
  read back; and merging indexes gives, byte for byte, the index built from all files together.
* **The broker.** An invariant holds in every state of every run of requests, completed work and
  commits. It gives snapshot safety, exact garbage collection, mutual exclusion by locks, faithful
  iterators, and compactions that lose no file.

## How the model is organised

| part | modules |
|---|---|
| bytes and runs | `Core`, `Codec`, `RunWriters`, `IndexFormat` |
| n-grams | `Ngrams`, `GramConversion`, `InvertedIndex` |
| building and merging indexes | `RadixSort`, `FlatIndexBuilders`, `BitmapIndexBuilders`, `OnDiskIndexes` |
| queries | `Queries`, `QueryOptimizer`, `QueryPlan`, `PlannedWindows`, `SortedRuns`, `QueryResults`, `QueryRun` |
| datasets | `OnDiskFileIndexes`, `OnDiskDatasets`, `DatasetMerging`, `DatasetBuilders` |
| the broker, as steps | `DatabaseStates`, `Broker`, `BrokerInvariants`, `BrokerSteps`, `BrokerResponse`, `BrokerSafety`, `BrokerChoice`, `BrokerCompaction`, `BrokerDrop`, `BrokerClasses`, `BrokerEffects` |
| the broker, as classes | `Databases`, `Daemon`, `NetworkServices`, `OnDiskIterators`, `Compaction`, `Indexers` |

Code that updates state in place is a method over arrays or the fields of a class, proved against a
function; the properties are then lemmas about that function. Dataset objects of the broker are
handles into a map, so that a handle to a destroyed dataset can be expressed. The steps of the broker
are relations: what a worker may have done when it finishes (`Broker.Outcome`) covers every result
that its command can have, including failure, so that a run is any interleaving of any requests.

## Findings

Three properties do not hold of the code as it is. Each has an input on which it fails and the exact
condition under which it holds.

| property | fails for | holds exactly when |
|---|---|---|
| a query loses no file (docs/indextypes.md:59 rules out false negatives) | `QueryPlan.WidePatternMissed`: in `AA\0B\0C\0D\0` the generator for `wide8` (libursa/Utils.cpp:125-155) emits nothing for the wide string `ABCD`, because it takes the second `A` for the failed partner of the first | `QueryPlan.PatternFoundExactly`: there is no `wide8` index, or each wide window of the pattern also occurs in the file at an even count of the generator. A byte outside the alphabet in front of the occurrence suffices (`QueryPlan.SeenAfterGap`) |
| a batch of a merge fits into its buffer | `OnDiskIndexes.OversizedLastBatch`, for every size of the buffer: `find_max_batch` (libursa/OnDiskIndex.cpp:102-114) never measures the batch that includes the last n-gram, so two datasets whose files all contain just that n-gram overflow it | `OnDiskIndexes.BatchesFitExactly`: the rest of the file, from the start of the batch that contains the last n-gram, fits |
| a compaction leaves the set of files as it is | `BrokerDrop.DropIsUndone`, a run of eight steps from the start: `dataset drop` takes no lock (libursa/Daemon.cpp:211-216, 275-280), so a dataset dropped while it is compacted comes back inside the merged one | `BrokerCompaction.CompactionExactly`: none of the merged datasets that had left the working set has a file. In runs without such drops it always holds (`BrokerCompaction.CompactionsConserve`) |

## Model

| member | source | states |
|---|---|---|
| Codec.DecodeEncode | libursa/Utils.cpp:211-239 | decoding an encoded strictly increasing run gives it back, and no shift of the decoder leaves the 32-bit range |
| Codec.GapIsLeb128 | libursa/Utils.cpp:211-226 | a difference is stored as an unsigned LEB128 number (section 7.6 of the DWARF Debugging Information Format, version 5) |
| Codec.GapLength | libursa/Utils.cpp:211-226 | the difference of two ids takes at most five bytes |
| Codec.RunLength | libursa/Utils.cpp:280-288 | a run of n ids takes between n and 5n bytes |
| RunWriters.PosixRunWriter.Write | libursa/Utils.cpp:211-226 | appends the gap code of one id, whether the bytes are still buffered or already in the file, and counts them |
| RunWriters.PosixRunWriter.WriteRaw | libursa/Utils.cpp:241-268 | splicing a stored run, decoding only its first id, leaves the bytes, the byte count and the last id as if every shifted id had been written one by one |
| RunWriters.PosixRunWriter.Flush | libursa/Utils.cpp:270-278 | empties the buffer and changes nothing of what has been written |
| RunWriters.PosixRunWriter.Reset | libursa/Utils.h:116-119 | the next run starts from scratch |
| RunWriters.DecompressSingle | libursa/Utils.cpp:228-239 | gives the first id of a stored run, and the position behind which the gaps of the others follow |
| RunWriters.ReadCompressedRun | libursa/Utils.cpp:290-311 | the accumulator loop computes the recursive decoding of any bytes whose shifts are defined |
| RunWriters.CompressRun | libursa/Utils.cpp:280-288 | gives the encoding of the run and its length |
| RunWriters.RunIterator.Current | libursa/SortedRun.cpp:8-19 | the iterator stands at the first of the ids not yet passed |
| RunWriters.RunIterator.NextPos | libursa/SortedRun.cpp:21-27 | the bytes behind it encode exactly the ids after that one |
| RunWriters.RunIterator.Advance | libursa/SortedRun.h:19-23 | passes exactly one id |
| IndexFormat.OpenSerialized | libursa/OnDiskIndex.cpp:25-56 | an index file passes all checks made when it is opened, and its type is recognised |
| IndexFormat.HeaderBytes | libursa/OnDiskIndex.cpp:203-209 | the sixteen bytes of the header, for each type |
| IndexFormat.LEDigits | libursa/OnDiskIndex.cpp:184-186 | offsets and header fields are stored lowest byte first |
| IndexFormat.ReadBack | libursa/OnDiskIndex.cpp:69-89 | the offsets in the footer delimit, for each n-gram, bytes that decode to its run |
| IndexFormat.SerializeInjective | libursa/OnDiskIndex.cpp:69-89 | two different lists of runs are never stored as the same file |
| Ngrams.GenTrigrams | libursa/Utils.cpp:157-169 | the rolling loop emits the number of each three-byte window, in order |
| Ngrams.GenH4grams | libursa/Utils.cpp:171-185 | the same for the hashes of four-byte windows |
| Ngrams.GenB64grams | libursa/Utils.cpp:102-123 | emits the number of a window exactly if its four bytes are in the alphabet, though it keeps only a counter and an accumulator |
| Ngrams.GenWideB64grams | libursa/Utils.cpp:125-155 | emits the number of an eight-byte window exactly if it is four letters each followed by a zero and the counter is even at its start |
| Ngrams.GramsExactly | libursa/Utils.cpp:102-185 | a file has an n-gram if and only if one of its windows is emitted with that number |
| Ngrams.CodeInjective | libursa/Utils.cpp:102-169 | for all types but `hash4` equal numbers come from equal windows |
| Ngrams.B64IsPosition | libursa/Utils.h:134-149 | the value of a letter is its place in the alphabet A to Z, a to z, 0 to 9, space, line break; other bytes have none |
| Ngrams.TrigramDigits | libursa/Utils.cpp:157-169 | the three bytes of a window are the digits of its number, the first one highest |
| Ngrams.TextDigits | libursa/Utils.cpp:102-123 | the values of the four letters of a window are the digits of its number, the first one highest |
| Ngrams.HashBits | libursa/Utils.cpp:171-185 | each bit of a hash tells whether the two trigrams in its window differ there |
| Ngrams.XorBitsExactly | libursa/Utils.cpp:171-185 | what exclusive or is, bit by bit, with bits read by division |
| Ngrams.GramsCount | libursa/FlatIndexBuilder.cpp:137-142 | a file of n bytes emits at most n - 2 n-grams, which is why the room asked for is enough |
| Ngrams.WideRunEvenAfterGap | libursa/Utils.cpp:125-155 | at the start of a file, or after a byte outside the alphabet, the counter is even |
| Ngrams.WideWindowMissed | libursa/Utils.cpp:125-155 | a file that holds a wide window for which nothing is emitted |
| GramConversion.ConvertGram | libursa/Utils.cpp:70-84 | unpacking an integer and asking the generator gives the n-gram of that window, if it has one |
| GramConversion.ConvertGramAt | libursa/Utils.cpp:86-100 | gives an n-gram exactly if the whole window is inside the pattern, no byte of it has alternatives, and the window has an n-gram by itself |
| GramConversion.ConvertExactly | libursa/Utils.cpp:86-100 | a pattern has an n-gram at a place if and only if it accepts one byte string only there, and the generator finds just that n-gram in it |
| RadixSort.CountSort | libursa/FlatIndexBuilder.cpp:23-48 | one pass leaves in the other buffer the elements by byte value, those of equal value in their old order; buffers of different size are an error |
| RadixSort.CountBytes | libursa/FlatIndexBuilder.cpp:51-58 | the least number of bytes that hold the number |
| RadixSort.SkippedBytesZero | libursa/FlatIndexBuilder.cpp:60-76 | the bytes that the sort skips are zero in every record |
| RadixSort.FlatRadixSort | libursa/FlatIndexBuilder.cpp:67-76 | the result is sorted by the whole 64-bit value and has the same elements, in spite of the skipped passes |
| FlatIndexBuilders.FlatIndexBuilder.AddFile | libursa/FlatIndexBuilder.cpp:131-135 | adds the records of all n-grams of the file and of no other; if `can_still_add` was true, the records stay within the buffer |
| FlatIndexBuilders.FlatIndexBuilder.RoomWhenEmpty | libursa/FlatIndexBuilder.cpp:137-142 | a builder without files can take every file of up to 64 MiB |
| FlatIndexBuilders.WriteRecords | libursa/FlatIndexBuilder.cpp:91-126 | writes for each n-gram the encoded list of files that contain it, with the table of where each list starts; the 32-bit offset does not overflow |
| FlatIndexBuilders.FlatIndexBuilder.Save | libursa/FlatIndexBuilder.cpp:78-129 | the file is the serialized inverted index of the files added |
| BitmapIndexBuilders.BitmapIndexBuilder.AddFile | libursa/BitmapIndexBuilder.cpp:62-71 | sets the bits of the n-grams of the file; a ninth file is an error |
| BitmapIndexBuilders.BitmapIndexBuilder.GetRun | libursa/BitmapIndexBuilder.cpp:20-31 | the bits of an n-gram give its list of files |
| BitmapIndexBuilders.BitmapIndexBuilder.Save | libursa/BitmapIndexBuilder.cpp:33-60 | writes the same file as the other builder does for the same files |
| InvertedIndex.PostingsExactly | libursa/FlatIndexBuilder.cpp:78-129 | the list of an n-gram has exactly the ids of the files that contain it |
| InvertedIndex.PostingsConcat | libursa/OnDiskIndex.cpp:161-171 | the list over two groups of files is that of the first followed by that of the second, moved up by the size of the first |
| OnDiskIndexes.MaxBatchExactly | libursa/OnDiskIndex.cpp:102-114 | a batch that ends before the last n-gram is the longest that fits; otherwise it is all the rest, and all but its last n-gram fit |
| OnDiskIndexes.FindMaxBatch | libursa/OnDiskIndex.cpp:102-114 | the loop computes that batch |
| OnDiskIndexes.BatchFitsExactly | libursa/OnDiskIndex.cpp:102-114 | when the chosen batch fits into the buffer |
| OnDiskIndexes.BatchesFitExactly | libursa/OnDiskIndex.cpp:102-187 | all batches of a merge fit if and only if the one with the last n-gram does |
| OnDiskIndexes.BatchesFitWithoutLast | libursa/OnDiskIndex.cpp:102-187 | so they do when no file has the last n-gram |
| OnDiskIndexes.OversizedLastBatch | libursa/OnDiskIndex.cpp:102-114 | for every size of the buffer, two indexes, each a faithful image of its files, whose merge reads one batch larger than the buffer |
| OnDiskIndexes.CompletesExactly | libursa/OnDiskIndex.cpp:121-187 | a merge is not given up if and only if each n-gram but the last fits into the buffer by itself |
| OnDiskIndexes.MergeGram | libursa/OnDiskIndex.cpp:160-173 | splicing the runs of all inputs for one n-gram writes the encoding of the merged run |
| OnDiskIndexes.MergeBatch | libursa/OnDiskIndex.cpp:151-174 | a batch extends the output and the offset table by just its n-grams |
| OnDiskIndexes.MergeLoop | libursa/OnDiskIndex.cpp:141-181 | the batches together cover every n-gram; or the merge is given up, or a batch is larger than the buffer, and exactly when |
| OnDiskIndexes.MergeCore | libursa/OnDiskIndex.cpp:121-187 | unless it ends early in one of these two ways, the output is the encoded merged runs followed by their offsets, whatever the size of the buffer |
| OnDiskIndexes.OnDiskMerge | libursa/OnDiskIndex.cpp:190-212 | the merged file, exactly when each of the two errors occurs, and exactly when a write beyond the buffer makes the outcome undefined |
| OnDiskIndexes.MergedRunIsRun | libursa/OnDiskIndex.cpp:161-171 | merged runs are strictly increasing and below the total number of files |
| OnDiskIndexes.MergeEqualsRebuild | libursa/OnDiskIndex.cpp:121-212 | merging indexes built from groups of files gives the very file that building one index from all of them gives |
| Queries.MinOfHolds | libursa/QueryResult.cpp:26-67 | MIN_OF holds when at least so many of its parts do, also for a count of zero or above the number of parts |
| Queries.HoldsMonotone | libursa/Query.cpp:234-304 | a file that satisfies more leaves satisfies no fewer queries |
| QueryOptimizer.SimplifySubqueries | libursa/QueryOptimizer.cpp:23-33 | replaces each subquery by its optimized form |
| QueryOptimizer.FlattenTrivialOperations | libursa/QueryOptimizer.cpp:38-48 | the pass and its report of a change, which is made exactly if the query changes |
| QueryOptimizer.InlineSuboperations | libursa/QueryOptimizer.cpp:53-69 | likewise |
| QueryOptimizer.DeduplicatePrimitives | libursa/QueryOptimizer.cpp:74-92 | likewise |
| QueryOptimizer.SimplifyMinof | libursa/QueryOptimizer.cpp:99-113 | likewise |
| QueryOptimizer.PropagateDegenerateQueries | libursa/QueryOptimizer.cpp:119-145 | likewise, and the unsigned count never drops below zero because it was not zero before |
| QueryOptimizer.Iterate | libursa/QueryOptimizer.cpp:210-217 | one iteration, in which the count that may be lowered has been seen to be positive |
| QueryOptimizer.ReorderSubqueries | libursa/QueryOptimizer.cpp:194-200 | the parts of an AND come out in order of cost, are the same parts, and keep their order where the cost is equal; nothing else is touched |
| QueryOptimizer.QOptimize | libursa/QueryOptimizer.cpp:202-220 | the loop ends, with the optimized form of the query |
| QueryOptimizer.PassSmaller | libursa/QueryOptimizer.cpp:202-220 | an iteration makes a query smaller, by nodes and then by MIN_OF nodes, unless it leaves it as it is, which is when it is settled |
| QueryOptimizer.OptimizedSame | libursa/QueryOptimizer.cpp:202-220 | the optimized query denotes the same set, whatever files the n-grams occur in |
| QueryOptimizer.OptimizedNormal | libursa/QueryOptimizer.cpp:202-220 | the result is in normal form at every level: nothing nested, trivial, degenerate or repeated, and ANDs sorted |
| QueryOptimizer.OptimizedFixed | libursa/QueryOptimizer.cpp:202-220 | exactly the queries in normal form are left alone, so the optimizer is idempotent |
| QueryOptimizer.OptimizedFits | libursa/QueryOptimizer.cpp:202-220 | no count is raised and no n-gram of another type appears |
| QueryOptimizer.GramsKept | libursa/QueryOptimizer.cpp:38-69 | flattening and inlining keep all n-grams of a query, in their order |
| QueryOptimizer.CostExactly | libursa/QueryOptimizer.cpp:155-184 | n-grams come before AND, MIN_OF and OR, and are ordered by the size of their index and then by number |
| QueryOptimizer.StableSortSorts | libursa/QueryOptimizer.cpp:187-200 | the parts of a reordered AND are in order of cost |
| QueryOptimizer.StableSortPermutes | libursa/QueryOptimizer.cpp:187-200 | and are the same parts |
| QueryOptimizer.StableSortIsStable | libursa/QueryOptimizer.cpp:187-200 | parts of equal cost keep their order |
| QueryPlan.PlanPattern | libursa/Query.cpp:141-194 | the loop with its jumps and `skip_to` computes the planned n-grams |
| QueryPlan.PlanOne | libursa/Query.cpp:155-191 | what one iteration plans, and where it goes on |
| QueryPlan.PlanRest | libursa/Query.cpp:174-190 | hashes and trigrams are planned where no text or wide n-gram was; exactly which is stated by `PlannedWindows.PlanExactly` |
| QueryPlan.Plan | libursa/Query.cpp:199-212 | plans every pattern of a query and keeps its form |
| QueryPlan.PlanIsSound | libursa/Query.cpp:141-194 | everything planned is the n-gram of some window of the pattern, of an available type |
| PlannedWindows.PlanExactly | libursa/Query.cpp:141-194 | exactly which n-grams are planned, without loop, jumps and `skip_to`: all text and wide windows; a hash unless a text window starts at the same place, or a wide one there or up to four bytes before; a trigram unless a text window starts there or one byte before, or a wide one there or up to five bytes before |
| PlannedWindows.PlanHoldsExactly | libursa/Query.cpp:141-194 | a file satisfies the plan of a pattern if and only if it has the n-grams of all these windows |
| PlannedWindows.HashesAndTrigrams | libursa/Query.cpp:174-190 | with hashes and trigrams only, the plan asks for every window of the pattern that has an n-gram |
| QueryPlan.PlannedHolds | libursa/Query.cpp:199-212 | a planned query is its query with each pattern judged by its plan |
| QueryPlan.PatternFoundExactly | libursa/Query.cpp:141-194 | of a file that contains the pattern, the plan holds if and only if the generator for `wide8` saw all its wide windows, should there be such an index |
| QueryPlan.WidePatternMissed | libursa/Query.cpp:155-164 | a file that contains a pattern which no plan that uses `wide8` finds |
| QueryPlan.WideExactly | libursa/Utils.cpp:125-155 | a wide n-gram is in a file if and only if its window is there at an even count |
| QueryPlan.SeenAfterGap | libursa/Utils.cpp:125-155 | an occurrence after a byte outside the alphabet, or at the start of the file, is seen |
| QueryPlan.NoFalseNegatives | libursa/Query.cpp:141-212 | a file that satisfies a query of AND, OR and MIN_OF over patterns satisfies its plan, for every set of index types |
| QueryPlan.NoLessSelective | libursa/Query.cpp:150-193 | leaving out trigrams that longer n-grams cover lets no file through that trigrams alone would not |
| QueryPlan.PlannedFits | libursa/Query.cpp:199-212 | a plan only asks for types that there are indexes of |
| SortedRuns.MeetExactly | libursa/SortedRun.cpp:70-83 | the intersection is strictly increasing and holds exactly the common ids |
| SortedRuns.JoinExactly | libursa/SortedRun.cpp:55-68 | the union is strictly increasing and holds exactly the ids of either run |
| SortedRuns.SortedRun.DoOr | libursa/SortedRun.cpp:55-68 | this run becomes the union, whether the other one is compressed or not |
| SortedRuns.SortedRun.DoAnd | libursa/SortedRun.cpp:70-83 | this run becomes the intersection, which is written over it while it is read |
| SortedRuns.SortedRun.IntersectPlain | libursa/SortedRun.cpp:78-82 | the write position never passes the read position |
| SortedRuns.SortedRun.IntersectCompressed | libursa/SortedRun.cpp:75-78 | the same against a compressed run |
| SortedRuns.UnionPlain | libursa/SortedRun.cpp:63-66 | the merge of two plain runs |
| SortedRuns.UnionCompressed | libursa/SortedRun.cpp:59-62 | the merge with a compressed run |
| SortedRuns.SortedRun.Decompress | libursa/SortedRun.cpp:85-94 | changes the representation and not the ids |
| SortedRuns.FindMin | libursa/SortedRun.cpp:114-122 | the first of the heads with the lowest id |
| SortedRuns.CountAndAdvance | libursa/SortedRun.cpp:128-139 | counts the heads that start with that id and moves them on, erasing those that end while the list is walked |
| SortedRuns.PickFrom | libursa/SortedRun.cpp:113-148 | the ids in at least `cutoff` lists, although it stops once fewer heads than that remain |
| SortedRuns.PickCommon | libursa/SortedRun.cpp:96-149 | the same from the runs themselves, which keep their ids |
| QueryResults.QueryResult.DoOr | libursa/QueryResult.cpp:5-13 | union of sets of which either may be "everything" |
| QueryResults.QueryResult.DoAnd | libursa/QueryResult.cpp:15-24 | intersection of such sets |
| QueryResults.NontrivialSources | libursa/QueryResult.cpp:28-35 | each source that is everything lowers the cutoff, empty ones are left out |
| QueryResults.MeetAll | libursa/QueryResult.cpp:48-55 | a cutoff equal to the number of sources is an AND |
| QueryResults.JoinAll | libursa/QueryResult.cpp:57-64 | a cutoff of one is an OR |
| QueryResults.DoMinOf | libursa/QueryResult.cpp:26-76 | exactly the ids in at least `cutoff` of the sources, for any cutoff |
| QueryRun.Run | libursa/Query.cpp:234-304 | the result holds exactly the ids that the set semantics gives |
| QueryRun.RunAnd | libursa/Query.cpp:245-258 | also when it stops at an empty result |
| QueryRun.RunOr | libursa/Query.cpp:259-270 | also when it stops at "everything" |
| QueryRun.RunMinOf | libursa/Query.cpp:271-302 | also when enough parts are everything, or too many are empty |
| QueryRun.RunParts | libursa/Query.cpp:277-299 | what is known of the parts when the loop ends, early or not |
| OnDiskFileIndexes.ForEachFilename | libursa/OnDiskFileIndex.cpp:55-67 | gives the lines of the list, without empty ones |
| OnDiskFileIndexes.LinesOfNames | libursa/OnDiskFileIndex.cpp:55-67 | reading a stored list of names from the start of name k gives the names from k on |
| OnDiskFileIndexes.NextLineIs | libursa/OnDiskFileIndex.cpp:55-67 | in any file, each line up to the next line break counts unless it is empty, and so does a last one without a line break |
| OnDiskFileIndexes.GenerateNamecacheFile | libursa/OnDiskFileIndex.cpp:7-25 | the table of where each name starts |
| OnDiskFileIndexes.OnDiskFileIndex.GetFileName | libursa/OnDiskFileIndex.cpp:42-53 | the name of a file found through that table is its name |
| OnDiskDatasets.LookupBuilt | libursa/OnDiskDataset.cpp:69-94 | looking up an n-gram gives the list of files that contain it |
| OnDiskDatasets.OnDiskDataset.Execute | libursa/OnDiskDataset.cpp:96-115 | plan, optimizer, run and lookup of names together give the names of exactly the files that satisfy the plan, in order |
| OnDiskDatasets.OnDiskDataset.WriteNames | libursa/OnDiskDataset.cpp:106-114 | the names of a result, which may be "everything" |
| OnDiskDatasets.NoFileLost | libursa/OnDiskDataset.cpp:96-115 | every file that satisfies the query pattern by pattern is among the results |
| OnDiskDatasets.FoundBoth | libursa/OnDiskDataset.cpp:134-212 | a query on two datasets together gives the results of one followed by those of the other |
| DatasetMerging.ReadRunOffsets | libursa/OnDiskIndex.cpp:214-219 | the offsets read from a file are those that were written |
| DatasetMerging.GetIndexWithType | libursa/OnDiskDataset.cpp:214-222 | an index of the type, or the error if there is none |
| DatasetMerging.CheckMerge | libursa/OnDiskDataset.cpp:139-172 | which of the three checks fails first, if any |
| DatasetMerging.MergeType | libursa/OnDiskDataset.cpp:180-192 | if the merge of one type succeeds, its index is the index of all files together; and exactly when it does not |
| DatasetMerging.MergeTypes | libursa/OnDiskDataset.cpp:179-192 | all types are merged exactly if each can be, and otherwise the error is that of one which cannot |
| DatasetMerging.MergeNames | libursa/OnDiskDataset.cpp:196-206 | the list of names is that of all datasets in order |
| DatasetMerging.Merge | libursa/OnDiskDataset.cpp:134-212 | exactly when it fails, and with which error; otherwise it stores a dataset that is built from all files, with the taints of the first |
| DatasetMerging.FoundJoined | libursa/OnDiskDataset.cpp:134-212 | any number of datasets joined answer as they do one after the other |
| DatasetMerging.Load | libursa/OnDiskDataset.cpp:34-63 | a stored dataset can be loaded and is what was stored |
| DatasetMerging.QueryMerged | libursa/OnDiskDataset.cpp:96-212 | end to end: merging, loading and executing any query gives the names that the sources give, one dataset after the other |
| DatasetBuilders.DatasetBuilder.Index | libursa/DatasetBuilder.cpp:68-81 | which error occurs, if any; a file is added to every index and its name to the list, the errors of names and of opening change nothing, a ninth file for bitmaps leaves its name behind; and if there was room, the builder can be saved |
| DatasetBuilders.DatasetBuilder.RoomWhenEmpty | libursa/DatasetBuilder.cpp:83-88 | a builder without files has room for every file that the indexer sends to it |
| DatasetBuilders.DatasetBuilder.Clear | libursa/DatasetBuilder.cpp:90-105 | starts anew with index builders of the same kind that have seen nothing |
| DatasetBuilders.DatasetBuilder.Save | libursa/DatasetBuilder.cpp:32-56 | with builders of either kind, stores a dataset built from exactly the files added, without taints |
| DatabaseStates.IdIsNoName | libursa/DatabaseName.cpp:20-29 | no id is a file name, so dropping by either cannot hit a wrong dataset |
| DatabaseStates.IdOfName | libursa/DatabaseName.cpp:20-29 | the id in a name of the form type.id.rest |
| DatabaseStates.ApplyAllEvolves | libursa/Database.cpp:248-307 | the permitted changes of a commit keep the database sound and reach no further than the locks and names of their task |
| DatabaseStates.CollectKept | libursa/Database.cpp:219-246 | garbage collection removes the unneeded datasets, and their files, and nothing else |
| DatabaseStates.CollectExactly | libursa/Database.cpp:219-246 | afterwards exactly the working and the held datasets are loaded |
| Databases.Database.CanAcquireLock | libursa/Database.cpp:73-80 | true exactly if no task holds the lock |
| Databases.Database.AllocateTask | libursa/Database.cpp:84-99 | a task is allocated under a new id if all locks are free, and otherwise nothing happens |
| Databases.Database.FindWorkingDataset | libursa/Database.cpp:27-34 | the first working dataset with the id |
| Databases.Database.LoadDatasetFile | libursa/Database.cpp:139-143 | a new object, loaded and working |
| Databases.Database.UpdateIteratorAt | libursa/Database.cpp:145-160 | stores the new position, and drops the iterator when all its files were read |
| Databases.Database.DropDataset | libursa/Database.cpp:162-171 | takes a dataset out of the working list and leaves it loaded |
| Databases.Database.DestroyDataset | libursa/Database.cpp:173-183 | frees a dataset and removes its file |
| Databases.Database.ToggleTaintOf | libursa/OnDiskDataset.cpp:26-32 | toggles a taint of a working dataset, in memory and on disk |
| Databases.Database.CommitTask | libursa/Database.cpp:248-307 | the changes are applied one after the other and their task is erased; what this leaves behind for each command is stated in `BrokerEffects` |
| Databases.Database.CollectGarbage | libursa/Database.cpp:219-246 | the loops over names and datasets are the collection of the step model |
| Databases.EraseCalled | libursa/Database.cpp:162-171 | erasing from a list while it is walked leaves exactly the others, in order |
| Databases.EraseAndFree | libursa/Database.cpp:173-183 | likewise, and frees exactly the erased ones |
| OnDiskIterators.OnDiskIterator.PopNames | libursa/OnDiskIterator.cpp:65-79 | gives as many of the next names as were asked for, or all that are left, and moves both positions behind them; the end of the file before that loses the byte position |
| OnDiskIterators.OffsetIsLengths | libursa/OnDiskIterator.cpp:65-79 | the byte position is the sum of the lengths of the names read, each plus one |
| Daemon.FindDataset | libursa/DatabaseSnapshot.cpp:24-32 | the first dataset of the snapshot with the id |
| Daemon.ExecuteTaint | libursa/Daemon.cpp:193-209 | a toggle exactly if the taint is not as requested; it fails exactly if there is no such dataset |
| Daemon.ExecuteDrop | libursa/Daemon.cpp:211-216 | always succeeds, and asks for just one drop, by the name given |
| Daemon.ExecutePop | libursa/DatabaseSnapshot.cpp:34-56 | replies with the next names of the list and asks for the position behind them |
| Daemon.LockedDatasets | libursa/DatabaseSnapshot.cpp:337-349 | the datasets of the locks, or none if one is not in the snapshot |
| Daemon.ExecuteCompact | libursa/DatabaseSnapshot.cpp:337-376 | asks to drop every merged dataset and to insert the new one, which holds their files and has their taints and index types; or for nothing. It fails exactly if a dataset is not there, their taints or types differ, or a batch is too big |
| Daemon.ChecksPass | libursa/OnDiskDataset.cpp:143-172 | whether all datasets have the taints and the index types of the first |
| Compaction.GetCompatibleDatasets | libursa/OnDiskDataset.cpp:249-271 | groups the datasets by taints and index types |
| Compaction.GetCompactCandidates | libursa/OnDiskDataset.cpp:273-325 | the smart choice: the longest chain of sizes in which each is less than twice the one before |
| Compaction.ChainHolds | libursa/OnDiskDataset.cpp:308-317 | within a chain every size is less than twice the one before, and the chain cannot go on |
| Compaction.SmartExactly | libursa/OnDiskDataset.cpp:273-325 | the smart choice begins with the smallest dataset, every next one is less than twice as large, and all others are at least twice the last; it is empty only if all others are at least twice the smallest |
| Compaction.IsDatasetLocked | libursa/DatabaseSnapshot.cpp:250-258 | whether some task has a lock on the dataset |
| Compaction.ApplyLimits | libursa/DatabaseSnapshot.cpp:295-305 | drops from the end until both limits are met |
| Compaction.ChooseOf | libursa/DatabaseSnapshot.cpp:271-310 | what would be merged of one class |
| Compaction.BeginningIsLeast | libursa/DatabaseSnapshot.cpp:295-305 | of all parts of the same length, the beginning of the sorted list has the fewest files |
| Compaction.ChoiceFits | libursa/DatabaseSnapshot.cpp:271-310 | the choice is part of the class, unlocked and within the limits |
| Compaction.ChoiceIsGreatest | libursa/DatabaseSnapshot.cpp:295-305 | no part of the candidates that is within the limits has more datasets |
| Compaction.ChoiceIsLeast | libursa/DatabaseSnapshot.cpp:295-305 | nor one with as many datasets and fewer files |
| Compaction.RatingExactly | libursa/DatabaseSnapshot.cpp:312-318 | the rating is the number of datasets less their average number of files, rounded down |
| Compaction.FindCompactCandidate | libursa/DatabaseSnapshot.cpp:260-335 | the list returned is that of the class with the highest rating. It is empty or has at least two datasets, all of one class, unlocked, within both limits, in smart mode from the chain of similar sizes, as many as any choice of that class could have; and not empty if two such datasets fit |
| Compaction.BestIsBest | libursa/DatabaseSnapshot.cpp:260-335 | that the class with the highest rating has these properties |
| BrokerChoice.ChosenIsGood | libursa/DatabaseSnapshot.cpp:260-335 | whatever a compaction chooses are different working datasets that no task has locked |
| BrokerSteps.ReadyKeeps | src/NetworkService.cpp:121-139 | a worker that reports for the first time keeps the invariant |
| BrokerSteps.RequestKeeps | src/NetworkService.cpp:141-189 | a request, accepted or refused, keeps the invariant |
| BrokerSteps.OutcomeOk | libursa/Daemon.cpp:218-239 | whatever a command asks for is within what its locks permit |
| BrokerSteps.WorkKeeps | libursa/Daemon.cpp:218-239 | finishing a command keeps the invariant |
| BrokerResponse.CommitOthers | src/NetworkService.cpp:88-119 | a commit leaves the snapshot, locks and pending changes of every other task sound |
| BrokerResponse.ResponseKeeps | src/NetworkService.cpp:88-119 | commit, erasure of its task and garbage collection together keep the invariant |
| BrokerResponse.StepKeeps | src/NetworkService.cpp:121-189 | every step keeps the invariant |
| BrokerResponse.RunKeeps | src/NetworkService.cpp:47-86 | so it holds in every state of every run: busy workers match tasks one to one, only idle workers are queued and none twice, and no two tasks share a lock |
| BrokerResponse.PopDelivers | libursa/Database.cpp:145-160 | committing a pop appends its reply to what has been delivered, which stays a prefix of the list |
| BrokerResponse.OwnLocks | libursa/Database.cpp:73-99 | two busy workers hold no lock in common |
| BrokerSafety.SnapshotsAreSafe | src/NetworkService.cpp:96-119 | nothing that a busy worker can reach through its snapshot has been destroyed, and working datasets are loaded |
| BrokerSafety.GarbageIsCollected | src/NetworkService.cpp:96-119 | after each commit exactly the working datasets and those of active snapshots are loaded |
| BrokerSafety.CompactionIsNotRefused | src/NetworkService.cpp:141-189 | whatever it chooses, a compaction gets its locks and becomes a task |
| BrokerSafety.CommitDrops | libursa/Database.cpp:248-307 | a commit takes a dataset out of use only under its lock, or as an explicit drop of it |
| BrokerSafety.LockedDatasetStays | libursa/Database.cpp:248-307 | a locked dataset leaves the working set only by the commit of the holder or of an explicit drop that names it |
| BrokerClasses.RunKeepsAlike | libursa/Database.cpp:248-307 | in every run the datasets that a compaction has locked keep the same taints and index types |
| BrokerClasses.CompactionChecksPass | libursa/OnDiskDataset.cpp:139-172 | so when a compaction works, the checks of its merge pass, whatever was dropped or tainted meanwhile |
| BrokerClasses.ChosenFits | libursa/DatabaseSnapshot.cpp:295-310 | the datasets that a compaction locks are no more, and have no more files together, than is allowed |
| BrokerClasses.CompactsIfPossible | libursa/DatabaseSnapshot.cpp:260-335 | in full mode something is compacted whenever two unlocked working datasets of one class fit the limits |
| BrokerSafety.TaintAsRequested | libursa/Daemon.cpp:193-209 | after a successful taint command is committed the dataset has its taints with or without the one named, although it was logged as a toggle against an older snapshot, and nothing else in use has changed |
| BrokerSafety.PopsDeliverTheList | libursa/DatabaseSnapshot.cpp:34-56 | replies to pops continue each other without gap or repetition, and the iterator is dropped exactly when the list is exhausted |
| BrokerSafety.PopsAsMany | libursa/DatabaseSnapshot.cpp:34-56 | each reply has as many names as were asked for, or all that are left |
| BrokerSafety.PopIsStored | libursa/Database.cpp:145-160 | the new position is stored on disk, and a list that was read to its end is removed from there |
| BrokerEffects.SelectAsRequested | libursa/Database.cpp:134-137 | after a select into an iterator is committed, the iterator is there, is the stored list at its start, nothing of it has been delivered, and other iterators are as they were |
| BrokerEffects.DropAsRequested | libursa/Database.cpp:162-171 | after a drop is committed exactly the datasets that are not called so are in use, unchanged |
| BrokerEffects.IndexAsRequested | libursa/DatabaseSnapshot.cpp:134-161 | after an index command the datasets that were in use still are, followed by exactly those the worker has written, with their files |
| BrokerEffects.ReindexAsRequested | libursa/DatabaseSnapshot.cpp:163-192 | after a reindex command the old dataset is gone, all others are in use, and the new ones are exactly those the worker has written |
| BrokerEffects.CompactionsInherit | libursa/DatabaseSnapshot.cpp:354-376 | in every run the dataset that a committed compaction loads has the files of the merged ones, one after the other, and the taints and index types of each of them |
| BrokerEffects.NothingRequested | src/NetworkService.cpp:88-119 | a failed command, and one that only reads, change no dataset in use and no iterator |
| BrokerCompaction.CompactionExactly | libursa/DatabaseSnapshot.cpp:354-376 | a committed compaction loses no file and adds just the files of merged datasets that were dropped meanwhile; so it conserves the files if and only if there are none |
| BrokerDrop.DropIsUndone | libursa/Daemon.cpp:211-216 | a run from the start: two workers report, a compaction of two datasets is asked for, one of them is dropped and the drop committed, and the commit of the compaction brings back all its files |
| BrokerDrop.SomeScene | libursa/Daemon.cpp:211-216 | there is such a run for any files |
| BrokerCompaction.RunKeepsLockedWork | libursa/Database.cpp:248-307 | in every run without such drops the datasets locked by compactions stay in use |
| BrokerCompaction.CompactionsConserve | libursa/DatabaseSnapshot.cpp:354-376 | in every run from the start without such drops, the commit of a compaction leaves the multiset of working file names as it was |
| NetworkServices.NetworkService.WorkerReady | src/NetworkService.cpp:121-139 | the worker is queued last, and nothing else changes |
| NetworkServices.NetworkService.DispatchLocks | libursa/Daemon.cpp:241-286 | the locks of each command; those of a compaction are of datasets that it may choose |
| NetworkServices.NetworkService.Request | src/NetworkService.cpp:141-189 | the worker that has waited longest gets a task for the very command asked for, with its locks, the next id and the database as it was; this happens if and only if no task holds one of these locks, which is always so for a compaction, and otherwise nothing changes. It is a step and keeps the invariant |
| NetworkServices.NetworkService.WorkerFinished | libursa/Daemon.cpp:218-239 | the outcome is with the task of the worker, and the files it has written are in the database |
| NetworkServices.NetworkService.WorkingSnapshots | src/NetworkService.cpp:110-118 | collects exactly the datasets that busy workers hold |
| NetworkServices.NetworkService.Response | src/NetworkService.cpp:88-119 | the worker is queued last and has no task, its task is erased and no other, and the changes are committed as in the step model |
| Indexers.Indexer.MergeDatasets | libursa/Indexer.cpp:75-83 | merging created datasets keeps every file exactly as often as before, in fewer datasets |
| Indexers.Indexer.Spill | libursa/Indexer.cpp:64-88 | writes the files of a builder and merges until too few datasets are of similar size, which ends |
| Indexers.Indexer.MakeSpill | libursa/Indexer.cpp:64-91 | saves a builder, whose 32-bit offsets do not overflow, moves its files to a dataset, and empties it |
| Indexers.Indexer.MakeRoom | libursa/Indexer.cpp:24-26 | after a spill the builder has room for the file, although this is not asked again |
| Indexers.Indexer.Index | libursa/Indexer.cpp:14-36 | each file is indexed once, those of more than 20 MiB with bitmaps, and skipped ones not at all, whatever was spilled on the way; both builders can still be saved without an overflow |
| Indexers.Indexer.Finalize | libursa/Indexer.cpp:93-103 | every indexed file is in the datasets as often as it was indexed, and the builders are empty |
| Indexers.Indexer.IndexFiles | libursa/DatabaseSnapshot.cpp:134-161 | for every list of targets the datasets hold each file as often as it was to be taken, and no save on the way overflows; the only error is a file whose size cannot be found out |

## Left out

- OnDiskIndexes.OnDiskMerge: what the code does when a batch is larger than the buffer is undefined. The model ends there with a result of its own, `Undefined`, and so do the members that use it.
- DatasetBuilders.DatasetBuilder.Index: what opening a file gives comes from the environment (an empty name cannot be opened), and so does the number of files of one builder, which must stay below 2^32.
- Indexers.Indexer.IndexFiles: the size of a file does not change between `file_size` and opening it, and there are fewer than 2^32 targets.
- Indexers.Indexer.MergeDatasets: only merges that succeed are modelled. `DatasetMerging.Merge` says when one fails; the error ends the whole command, none of whose changes are then committed.
- Daemon.ExecuteCompact: whether a batch is too big depends on the contents of the indexes and is given by the environment here; `DatasetMerging.Merge` says when it is.
- Compaction.ChooseOf: `std::sort` promises no order among datasets of equal size; the model takes the stable one. What is stated of `Compaction.FindCompactCandidate`, and of the broker, does not depend on it.
- QueryRun.Run: counts are below 2^31, as the parser gives them; above that the conversion to `int` would change them.
- Comparison of queries: `operator==` ignores the count and the n-gram (libursa/Query.cpp:43-46); the model uses structural equality, and the passes do not use the operator.
- Commands that index, reindex, select or list are modelled by the changes they ask for (`Broker.Outcome`); their own loops over paths and datasets are not, nor the taint filter of a select.
- An exception in the middle of a commit; `Reload` is applied like the other changes but no command asks for it.
- Iterators that expire by the clock, and changes of the configuration, which would only add easy steps.
- Real races of threads: a worker reads its snapshot and writes its files in one step, at any moment between the steps of the broker.
- The order in which index types and classes of datasets are visited is arbitrary in the source and in the model; a choice among classes of equal rating is any of them.
- Files as sequences of bytes: file descriptors, memory maps, `rename`, `fsync` and failures of the disk are not modelled. Fresh names and the sizes of datasets come from the environment.
- The query parser, JSON, ZeroMQ, prefetching, counters, logging and progress.
- DatabaseUpgrader and the command-line tools.
