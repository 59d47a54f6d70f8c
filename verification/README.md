# Cuckoo filters in Dafny

A model of the repository's three cuckoo filters and proofs about it. A filter is a table of buckets
of four slots. A key has a fingerprint and two candidate buckets; the second is the first, XORed with
the fingerprint's hash. The filters differ in how they let threads share the table.

| part | files | form |
|---|---|---|
| buckets and words | `Bits`, `HashIndex`, `Words`, `PointerUtils` | functions on numbers and 64-bit words, a class for the in-place updates |
| lock-free filter, any interleaving | `LockFreeModel`, `LockFreeInvariant`, `LockFreeSteps`, `LockFreeOps`, `LockFreeWrites`, `LockFreeSafety`, `LockFreeTheorems`, `LockFreeCounters`, `LockFreeSlots`, `LockFreeMoves`, `LockFreeFind`, `LockFreeKeys`, `LockFreeAnswers`, `LockFreeRounds`, `LockFreeHelp`, `LockFreeProgress` | a transition system with one step per table read or compare-and-swap, an inductive invariant, theorems over all runs |
| three runs of it | `Chains`, `LockFreeRun`, `LockFreeFalseMiss`, `LockFreeTwice`, `LockFreeErased` | runs from an empty table, step by step; the last for every world with such a key |
| lock-free filter, no interference | `SoloSpec`, `SoloInsert`, `SoloFilter` | a class with the source's loops, proved against functions of the table |
| one-lock filter | `SeqSpec`, `SeqFilter`, `FalseNegative`, `TenthSwap` | a class with the source's loops, proved against functions of the table, and the sizes for which it finds what it stored |
| fine-grained filter | `FineModel`, `FineSafety`, `FineTheorems`, `FineAnswers`, `FineRace` | a transition system with one step per lock operation, slot look, slot write or unlocked swap, and a run that races |
| what a caller sees | `TableBag`, `ClassBag`, `AbstractFilter`, `Equivalence` | a bag of classes, histories of answers, both filters asked the same calls |
| freeing retired entries | `Reclamation`, `SoloFilter` | functions of the retired list, and the in-place compaction |

The seen-from-outside object is a bag of *classes*. A class is a fingerprint with the unordered pair of
buckets it may be in; a slot's class follows from its bucket and fingerprint, and moving a fingerprint
to its alternate bucket keeps it, because taking the alternate twice leads back.

How the lock-free steps follow `cuckoo_filter/lock_free_filter.cpp`:

| step | lines | step | lines |
|---|---|---|---|
| `InsertBegin` | 59-70 | `HelpRead1` | 365-383 |
| `InsertReadSlot`, `InsertSwap` | 75-114 | `HelpMark` | 374-375 |
| `StartWalk`, `NextLane`, `Retry` | 72, 116-146 | `HelpRead2` | 385-393, 413 |
| `PathLook` | 478-510 | `HelpCheck` | 397-399 |
| `SourceLook` | 512-522 | `HelpCopy` | 394, 402-404 |
| `DestLook` | 523-533 | `HelpClear` | 406-409 |
| `FindBegin` | 159-168 | `HelpSameEntry`, `HelpOccupied` | 413-425 |
| `FindFirst`, `FindSecond` | 170-212 | `RemoveSwap` | 245-268 |
| `FindCounter1`, `FindCounter2` | 214-227, 308-316 | | |

## What is assumed

- Every read and every compare-and-swap of a table word is one atomic, sequentially consistent step; so
  is the unlocked swap of the fine-grained filter.
- The table size is a power of two wherever classes or placement matter: for no other size does the
  alternate of the alternate lead back (`InvolutiveIffPowerOfTwo`), nor is an inserted key always found
  (`FindsIffPowerOfTwo`). Locks, counters, the course of an insert and the freeing of entries are proved
  for every positive size.
- Keys are arbitrary: some may have one bucket instead of two. Where a theorem needs two it says so of
  the one key it is about (`World.Movable`). `LostIffErased` says exactly when an entry is lost, whatever
  the keys, and `NeverLostIff` that having two buckets is what makes a key's entries safe.
- Fingerprints are not empty. `md5_fingerprint` and `jenkins_hash` are otherwise arbitrary functions,
  and the answers of `rand` and `std::shuffle` are arguments or free choices.
- A counter that would pass 65535 stops the program, as `create_pointer` does.
- Addresses are not reused during a run: nothing calls `free_hazard_pointers`.

## Where the code and its texts differ

The model follows the code.

- `test/benchmark.cpp:11` gives the filters 256000 buckets, which is no power of two (`BenchmarkSize`): with it
  a kicked fingerprint may come to a bucket in which its key is never looked for.
- `remove` is meant to take an entry out. While another thread is moving the entry, the remove can take the copy,
  and a helper makes another from the marked source: one insert, two successful removes, and the entry retired
  twice (`TakenTwice`). `TakenAgainWasCopied` says that there is no other way.
- `reports/final_report.md:80` presents the second, counter-comparing round of `find` as the end of false
  misses. `check_counter` asks for two updates of each slot, and one move between the two reads is enough
  for a miss: `FalseMiss` is such a run. `MissedIffMoved`, `FalseMissMoved` and `SteadyMissIsTrue` say what a
  miss does mean.
- `reports/final_report.md:106` has the empty slot shifted along the whole path. Line 515 of
  `cuckoo_filter/lock_free_filter.cpp` reads `route[depth]`, not `route[i]`: each call moves the last entry
  only (`LockFreeFilter.Relocate`), and the retry loop of `insert` does the rest (`LockFreeFilter.Insert`).
- Lines 413-425 of `cuckoo_filter/lock_free_filter.cpp` are commented as finishing a move and as taking back
  a mark. Both swaps aim at the destination. The second never succeeds, so a mark stays on when the destination
  is occupied; the first succeeds only for an entry with one bucket, and erases it
  (`FallThroughWritesIff`).

## Model

| member | source | states |
|---|---|---|
| `HashIndex.InvolutiveIffPowerOfTwo` | cuckoo_filter/lock_free_filter.cpp:318-321 | Taking the alternate bucket twice leads back, for every bucket and hash below the size, if and only if the size is a power of two. |
| `HashIndex.AlternateBreaks` | cuckoo_filter/seq_filter.cpp:90-93 | For every other size there are a bucket and a hash, below the size, for which it does not, and for which the bucket, its alternate and the alternate of that are three. |
| `HashIndex.BenchmarkSize` | test/benchmark.cpp:11 | The size the benchmark uses is no power of two. |
| `HashIndex.SameBucketIff` | cuckoo_filter/lock_free_filter.cpp:318-321 | A fingerprint's two buckets are one exactly when its hash is zero modulo the size. |
| `PointerUtils.CreateThenGet` | cuckoo_filter/pointer_utils.cpp:62-73 | Packing is refused exactly for counters above 65535; otherwise counter, aligned address and mark read back. |
| `PointerUtils.GetThenCreate` | cuckoo_filter/pointer_utils.cpp:6-8 | Every 64-bit word is the packing of its own three parts. |
| `PointerUtils.MisalignedLeaks` | cuckoo_filter/pointer_utils.cpp:62-73 | The address reads back from a packed word if and only if it is aligned and within 48 bits. |
| `PointerUtils.SameWordIff` | cuckoo_filter/pointer_utils.cpp:6-53 | Two words are equal exactly when their three parts are: a swap of words compares all three. |
| `PointerUtils.ViewIsFaithful` | cuckoo_filter/include/pointer_utils.h:12-37 | Words are equal exactly when the slot contents they stand for in the filter models are. |
| `PointerUtils.NewCounterReadsBack` | cuckoo_filter/pointer_utils.cpp:19-29 | Replacing the counter keeps address and mark. |
| `PointerUtils.NewRealPointerReadsBack` | cuckoo_filter/pointer_utils.cpp:40-48 | Replacing the address by an aligned one keeps counter and mark. |
| `PointerUtils.NewMarkReadsBack` | cuckoo_filter/pointer_utils.cpp:55-60 | Replacing the mark keeps counter and address. |
| `PointerUtils.TablePointer.UpdateCounter` | cuckoo_filter/pointer_utils.cpp:10-17 | In place, the same as the copying form; a counter that does not fit changes nothing. |
| `PointerUtils.TablePointer.UpdateRealPointer` | cuckoo_filter/pointer_utils.cpp:35-38 | In place, the same as the copying form. |
| `PointerUtils.TablePointer.UpdateMarked` | cuckoo_filter/pointer_utils.cpp:50-53 | In place, the same as the copying form. |
| `LockFreeSafety.StepInv` | cuckoo_filter/lock_free_filter.cpp:59-426 | Every step of every operation and helper keeps the invariant of table, copies and threads, lowers no counter and forgets no history. |
| `LockFreeSafety.RunInv` | cuckoo_filter/lock_free_filter.cpp:59-426 | So the invariant holds in every state of every run, with any number of threads. |
| `LockFreeTheorems.RemovedWasTaken` | cuckoo_filter/lock_free_filter.cpp:256-266 | For every size: an entry counts as removed only after a remove's swap took it out. |
| `LockFreeTheorems.NoLoss` | cuckoo_filter/lock_free_filter.cpp:364-426 | An entry with two buckets whose inserting swap succeeded, and that no remove took out since, is in its cell or the counterpart in the same lane, in every later state. |
| `LockFreeMoves.LostIffErased` | cuckoo_filter/lock_free_filter.cpp:364-426 | For every entry, one bucket or two: inserted and never taken by a remove, it is in none of its cells if and only if a fall-through swap erased it. |
| `LockFreeMoves.ArrivesByCopy` | cuckoo_filter/lock_free_filter.cpp:385-404 | An inserted entry comes into a cell only by a copy from its other cell. |
| `LockFreeErased.Erasure` | cuckoo_filter/lock_free_filter.cpp:412-418 | For every filter and key with one bucket, given seven addresses: a run from the empty table, with path discovery, in which an entry of the key is inserted, no remove ever takes it, and at the end it is in no cell. |
| `LockFreeErased.NeverLostIff` | cuckoo_filter/lock_free_filter.cpp:364-426 | Given seven addresses for a key's entries: no run loses one of them without a remove, if and only if the key's two buckets differ. |
| `LockFreeTheorems.TwoCopiesAtMost` | cuckoo_filter/lock_free_filter.cpp:402-409 | Two cells with one entry are counterparts in one lane with different counters; the older is marked and some thread is between making the copy and clearing it. |
| `LockFreeTheorems.QuiescentDistinct` | cuckoo_filter/lock_free_filter.cpp:46-53 | With no thread in a relocation, no address is stored twice, so the deleting loops delete each entry once. |
| `LockFreeTheorems.CopiedOnce` | cuckoo_filter/lock_free_filter.cpp:385-411 | However many threads help one marked word, a second copy of it is made only after a remove took the entry out. |
| `LockFreeTwice.TakenTwice` | cuckoo_filter/lock_free_filter.cpp:385-411 | A run from an empty table in which one entry, inserted once and the only one with its fingerprint, is taken out by two removes. |
| `LockFreeMoves.BackWasCopied` | cuckoo_filter/lock_free_filter.cpp:385-411 | After a remove took an entry, a slot that holds it unmarked got it by a copy made since. |
| `LockFreeMoves.TakenAgainWasCopied` | cuckoo_filter/lock_free_filter.cpp:256-266 | So in every run, between two takes of one entry it was copied. |
| `LockFreeTheorems.FallThroughWritesIff` | cuckoo_filter/lock_free_filter.cpp:412-425 | One of the two last swaps of a helper changes the table if and only if the entry has one bucket, its word is unchanged and the counter fits; it is then the first of the two, and the entry is gone. |
| `LockFreeTheorems.WellPlaced` | cuckoo_filter/lock_free_filter.cpp:79-107 | In every reachable state a stored entry is in one of its two buckets, in the lane it was inserted in. |
| `LockFreeCounters.MarkedNotNull` | cuckoo_filter/lock_free_filter.cpp:364-379 | For every size: a marked word is never null, and what a slot holds was inserted. |
| `LockFreeCounters.HelpersHoldEntries` | cuckoo_filter/lock_free_filter.cpp:381-388 | For every size: a helper past the mark check holds an inserted entry, never a null pointer. |
| `LockFreeCounters.CountersGrow` | cuckoo_filter/lock_free_filter.cpp:394-408 | For every size: no slot's counter falls in any run, and none passes 65535. |
| `LockFreeSlots.SlotLife` | cuckoo_filter/lock_free_filter.cpp:75-114 | In every run a step changes one slot at most: it stores an entry in an empty slot or takes an unmarked one out, both at the same counter, marks an entry, copies one in at a larger counter, or clears a marked one at the next counter. |
| `LockFreeKeys.CallIsOfKey` | cuckoo_filter/lock_free_filter.cpp:59-70 | For every size: every call is about one key from its begin to its end; the fingerprint and the two buckets are that key's. |
| `LockFreeProgress.EachCanStep` | cuckoo_filter/lock_free_filter.cpp:59-537 | Whatever the other threads are at, and if they never go on, each thread has a step of its own until the program is stopped. |
| `LockFreeProgress.AnyOrder` | cuckoo_filter/lock_free_filter.cpp:116-130 | A try may take the four lanes in any order. |
| `LockFreeAnswers.InsertAnswers` | cuckoo_filter/lock_free_filter.cpp:72-150 | For every size: an insert answers true exactly with its own successful swap, and false only when, in one round, it has read its eight slots one after the other, all full, and then given up each of the four lanes: path discovery passed ten full slots, each leading to the next, counted from where it last started over. |
| `LockFreeAnswers.FailedIsNowhere` | cuckoo_filter/lock_free_filter.cpp:138-150 | After an insert answered false its entry is in no cell in any later state. |
| `LockFreeAnswers.MovesLast` | cuckoo_filter/lock_free_filter.cpp:512-533 | What an insert's relocation moves is the slot that path discovery passed last before the empty one, or, if it had just started over, that of bucket 0; and the entry's other slot was empty when looked at. |
| `LockFreeAnswers.RelocationEnds` | cuckoo_filter/lock_free_filter.cpp:488-537 | A relocation succeeds at once in an empty slot, or when the loop back has made as many rounds as path discovery passed slots. |
| `LockFreeHelp.CallEnds` | cuckoo_filter/lock_free_filter.cpp:357-430 | For every size: a call of `help_relocate` ends only with an unmarked source, which is empty if the call was to start a move; with the copy made and the source changed; with the entry found in its destination; or with the destination found taken, or its copying swap lost after the source was read, the destination read empty, and the source read again unchanged. |
| `LockFreeHelp.CopyWrites` | cuckoo_filter/lock_free_filter.cpp:394-404 | A copy comes unmarked, with a counter one above the larger of its source's and its destination's. |
| `LockFreeHelp.StopsAtLimit` | cuckoo_filter/lock_free_filter.cpp:394-415 | For every size: the program is stopped only when some slot's counter is 65535. |
| `LockFreeTheorems.SourceRaised` | cuckoo_filter/lock_free_filter.cpp:405-409 | After the copy the source holds the very same word until it has a larger counter, whoever clears it and whatever is inserted there later. |
| `LockFreeTheorems.ClearRaises` | cuckoo_filter/lock_free_filter.cpp:405-409 | After the clearing swap, successful or not, the source's counter is larger than when it was copied. |
| `LockFreeRounds.RoundDecides` | cuckoo_filter/lock_free_filter.cpp:170-227 | For every size: after its four reads, of the first, the second, the first and the second cell, a find goes on to the next lane if and only if it is not so that the first counter rose by two at least, the second by two at least, and the second came to three more than the first began with. |
| `LockFreeRounds.PassedIfNotCleared` | cuckoo_filter/lock_free_filter.cpp:308-316 | A find whose entry came into the first cell before the second read, went back, and came again before the third, passes the lane if and only if at its last read the second cell still holds the word copied last, at too small a counter; once that cell is cleared it reads the lane again. |
| `LockFreeRounds.FindAnswers` | cuckoo_filter/lock_free_filter.cpp:166-235 | For every size: a find answers the location of an unmarked entry of its fingerprint that it just read there, or 8 after passing all four lanes in one search. |
| `LockFreeRounds.RemoveAnswers` | cuckoo_filter/lock_free_filter.cpp:238-272 | For every size: a remove answers true exactly with its own successful swap, and false only after passing all four lanes in one search. |
| `LockFreeRounds.LostSwapSearchesOn` | cuckoo_filter/lock_free_filter.cpp:244-268 | A remove whose swap lost searches again from the first lane, for the same fingerprint and buckets. |
| `LockFreeRounds.MarkIsHelped` | cuckoo_filter/lock_free_filter.cpp:174-201 | A find, path discovery or a loop back that meets a marked entry helps that very slot, and then reads its lane or its path again from there. |
| `LockFreeFind.MissedIffMoved` | cuckoo_filter/lock_free_filter.cpp:170-212 | Between a find's two reads of a lane: an unremoved entry of its class that was not in the first cell is not in the second if and only if some thread copied it from the second to the first in between, some thread's swap then cleared the second, and none copied it back. |
| `LockFreeFind.MissedEntryMoved` | cuckoo_filter/lock_free_filter.cpp:170-212 | So a find that passes a lane without meeting such an entry had it move into the first cell between its two reads. |
| `LockFreeFind.FalseMissMoved` | cuckoo_filter/lock_free_filter.cpp:166-235 | A find about to report a miss, while an entry of the key present at its begin is still not removed, passed the entry's lane while the entry moved from the second cell to the first. |
| `LockFreeTheorems.MissRaisesCounter` | cuckoo_filter/lock_free_filter.cpp:214-227 | A find that passes a lane in which such an entry is has seen the first counter rise. |
| `LockFreeTheorems.SteadyMissIsTrue` | cuckoo_filter/lock_free_filter.cpp:214-235 | A find that passed every lane with the first counter unchanged and reports a miss is right: each matching entry present at its begin was taken out. |
| `LockFreeTheorems.HitIsOfClass` | cuckoo_filter/lock_free_filter.cpp:175-211 | A find's hit, under any interference, is an inserted entry of the asked fingerprint, buckets and lane. |
| `LockFreeTheorems.TakesOfClass` | cuckoo_filter/lock_free_filter.cpp:245-266 | What a remove's swap takes out is an inserted entry of the asked fingerprint, buckets and lane. |
| `LockFreeFalseMiss.FalseMiss` | cuckoo_filter/lock_free_filter.cpp:308-316 | A run from an empty table, with path discovery, in which a find reports a miss although a matching entry is stored from before its begin to after its end. |
| `LockFreeTheorems.TakenLeaves` | cuckoo_filter/lock_free_filter.cpp:256-266 | After a remove's swap the entry is in no cell, or in one that is marked and that some thread is about to clear. |
| `LockFreeTheorems.GoneForGood` | cuckoo_filter/lock_free_filter.cpp:238-268 | An entry in no cell and no helper's hands never comes back. |
| `SoloSpec.HelpCases` | cuckoo_filter/lock_free_filter.cpp:357-430 | What a call does alone, in every case: nothing without a mark that it is not to set; the move; the mark that stays when the destination is another's; the end of an entry whose two buckets are one; the stop at counter 65535. |
| `SoloSpec.HelpMoves` | cuckoo_filter/lock_free_filter.cpp:357-411 | Alone, a call on an entry whose destination is empty moves it there with both counters raised, or stops the program if the counter does not fit. |
| `SoloSpec.HelpKeepsEntryIff` | cuckoo_filter/lock_free_filter.cpp:412-418 | A call keeps its entry in the lane if and only if the entry's two buckets differ. |
| `SoloSpec.PathDistinct` | cuckoo_filter/lock_free_filter.cpp:482-507 | A replacement path that ends meets no bucket twice. |
| `SoloSpec.MoveLastShortens` | cuckoo_filter/lock_free_filter.cpp:512-534 | Moving the last entry of a path shortens that path by exactly one hop. |
| `SoloSpec.HopsOtherLane` | cuckoo_filter/lock_free_filter.cpp:482-507 | A path depends on its own lane only. |
| `SoloSpec.MoveRearranges` | cuckoo_filter/lock_free_filter.cpp:401-411 | A move keeps every entry in its lane and bucket pair, and the bag of classes. |
| `SoloSpec.MoveKeepsLanes` | cuckoo_filter/lock_free_filter.cpp:401-411 | For every size: a move keeps every entry in its lane, and brings in none. |
| `SoloInsert.CanFreeIff` | cuckoo_filter/lock_free_filter.cpp:488-508 | A bucket can be freed exactly if, in one of its four lanes, one of the first ten slots of the path is empty. |
| `SoloInsert.RelocationShortens` | cuckoo_filter/lock_free_filter.cpp:512-534 | A relocation shortens its lane's path by one hop and leaves the bucket's other three paths as they were. |
| `SoloInsert.OneMoreRelocation` | cuckoo_filter/lock_free_filter.cpp:131-145 | For every size: each relocation lowers the hops left and keeps the answer to whether some lane can be freed, so that after one success the insert cannot fail. |
| `SoloInsert.RelocationsBounded` | cuckoo_filter/lock_free_filter.cpp:72-146 | At most 4 * 8 + 1 = 33 relocations happen. |
| `SoloFilter.LockFreeFilter.constructor` | cuckoo_filter/lock_free_filter.cpp:8-22 | A new filter of any positive size stores nothing and has retired nothing; size zero stops the program. |
| `SoloFilter.LockFreeFilter.HelpRelocate` | cuckoo_filter/lock_free_filter.cpp:357-430 | The loops compute the function that `HelpMoves` and `HelpKeepsEntryIff` are about. |
| `SoloFilter.LockFreeFilter.DiscoverPath` | cuckoo_filter/lock_free_filter.cpp:474-510 | Finds a path exactly when an empty slot is at most nine hops away, with the number of hops and the last bucket. |
| `SoloFilter.LockFreeFilter.Relocate` | cuckoo_filter/lock_free_filter.cpp:470-537 | Succeeds exactly then, and moves the last entry of the path and nothing else. |
| `SoloFilter.LockFreeFilter.FillEmpty` | cuckoo_filter/lock_free_filter.cpp:76-110 | Puts the entry into the first empty slot of the eight, lane by lane, if there is one. |
| `SoloFilter.LockFreeFilter.KickOne` | cuckoo_filter/lock_free_filter.cpp:120-137 | For every order of the lanes, succeeds exactly when some lane can be freed; a failure changes nothing. |
| `SoloFilter.LockFreeFilter.InsertEntry` | cuckoo_filter/lock_free_filter.cpp:72-146 | For every size and all shuffles the retry loop ends, after at most 33 moves and no more than the hops left allow; the moves are those that `HelpRelocate` counts as it makes its copies. |
| `SoloFilter.LockFreeFilter.Insert` | cuckoo_filter/lock_free_filter.cpp:59-150 | For every size: true exactly when one of the eight slots is empty or a lane of the first bucket can be freed; moves are made exactly in the latter case; then the entry is added and every other stays in its lane; false leaves the table unchanged. For a power of two every other stays in its bucket pair too, and the bag gets one of the class. |
| `SoloFilter.LockFreeFilter.Find` | cuckoo_filter/lock_free_filter.cpp:157-236 | For every size the first place of the key's fingerprint in its two buckets, or the report that there is none; for a power of two a place is found exactly when the class is stored. |
| `SoloFilter.LockFreeFilter.Remove` | cuckoo_filter/lock_free_filter.cpp:238-272 | Takes the first such place, and retires its entry, which is then neither stored nor retired twice; false exactly when there is none. For a power of two it takes one of the class, exactly when it is stored. |
| `SoloFilter.LockFreeFilter.Destroy` | cuckoo_filter/lock_free_filter.cpp:44-57 | Deletes exactly the stored entries, each once. |
| `SeqSpec.KickOnceConserves` | cuckoo_filter/seq_filter.cpp:68-71 | One swap keeps table and hand together: no class is made or lost. |
| `SeqSpec.KickLoopConserves` | cuckoo_filter/seq_filter.cpp:67-82 | So does the whole kick chain, for every answer of `rand`. |
| `SeqSpec.KickLoopFailsIff` | cuckoo_filter/seq_filter.cpp:67-87 | The chain fails exactly when each bucket it comes to is full on arrival. |
| `SeqSpec.KickOnceExchanges` | cuckoo_filter/seq_filter.cpp:68-71 | A swap exchanges what is in hand with the picked slot and no other, and goes on to the alternate bucket of what it took. |
| `SeqSpec.InsertFailsIff` | cuckoo_filter/seq_filter.cpp:27-88 | An insert fails exactly when both of the key's buckets are full and so is each bucket its swaps come to, one for each of the ten answers of `rand`. |
| `SeqSpec.InsertFillsFirst` | cuckoo_filter/seq_filter.cpp:37-60 | Where one of the key's buckets has room, the insert fills the first empty slot of the first that has, and changes no other. |
| `TenthSwap.TenSwapsSucceed` | cuckoo_filter/seq_filter.cpp:67-87 | A history from the empty filter whose last insert succeeds with its tenth swap and would not with nine. |
| `SeqSpec.InsertMeaning` | cuckoo_filter/seq_filter.cpp:27-88 | A true insert adds exactly one of the key's class; a false one adds it too but drops exactly one class, so as many are stored as before. |
| `SeqSpec.RemoveMeaning` | cuckoo_filter/seq_filter.cpp:132-173 | True exactly when the key's class is stored, and takes exactly one of it. |
| `ClassBag.KeyStoredIff` | cuckoo_filter/seq_filter.cpp:104-124 | A key's class is stored exactly when one of its two buckets has its fingerprint. |
| `SeqFilter.SequentialFilter.constructor` | cuckoo_filter/seq_filter.cpp:6-10 | A new filter, of whatever size, stores nothing. |
| `SeqFilter.SequentialFilter.Kick` | cuckoo_filter/seq_filter.cpp:67-87 | For every size the loop computes the kick chain of `KickLoopConserves` and `KickLoopFailsIff`. |
| `SeqFilter.SequentialFilter.Insert` | cuckoo_filter/seq_filter.cpp:27-88 | Table and answer are those of `InsertMeaning`, and a step of the bag. |
| `SeqFilter.SequentialFilter.Find` | cuckoo_filter/seq_filter.cpp:95-130 | True exactly when the key's class is stored. |
| `SeqFilter.SequentialFilter.Remove` | cuckoo_filter/seq_filter.cpp:132-173 | Table and answer are those of `RemoveMeaning`, and a step of the bag. |
| `SeqFilter.RefinesBag` | cuckoo_filter/seq_filter.cpp:27-173 | Every history of calls and answers is a history of the bag of classes. |
| `FalseNegative.FindsIffPowerOfTwo` | cuckoo_filter/seq_filter.cpp:27-130 | After any successful inserts into an empty filter each inserted key is found, whatever the hash functions and the answers of `rand`, if and only if the size is a power of two. |
| `AbstractFilter.HistoryDetermined` | cuckoo_filter/seq_filter.cpp:27-173 | While no insert fails, the calls alone determine all answers and the final bag. |
| `Equivalence.AskBoth` | cuckoo_filter/lock_free_filter.cpp:59-272 | The same calls put to both filters, neither failing an insert, get the same answers and leave the same bag, whatever the random choices. |
| `FineSafety.RunInOrder` | cuckoo_filter/fine_grained_locked_filter.cpp:28-178 | For every size: locks and program points are in order in every state of every run. |
| `FineModel.SharedMutexIff` | cuckoo_filter/include/fine_grained_locked_filter.h:114 | Two buckets share a mutex exactly if their numbers differ by a multiple of eight. |
| `FineAnswers.CallIsOfKey` | cuckoo_filter/fine_grained_locked_filter.cpp:32-34 | For every size: a call's buckets, and its fingerprint until an insert swaps, are those of one key. |
| `FineAnswers.FindAnswers` | cuckoo_filter/fine_grained_locked_filter.cpp:99-135 | For every size, in every run: a find answers true exactly on a look at its fingerprint in a slot of one of its key's buckets, and false only after it looked at the four slots of the first and then the four of the second, none of which held it when looked at. |
| `FineAnswers.KeptIsFound` | cuckoo_filter/fine_grained_locked_filter.cpp:99-135 | So a fingerprint that is in one slot of either bucket throughout the call is found. |
| `FineAnswers.RemoveAnswers` | cuckoo_filter/fine_grained_locked_filter.cpp:137-178 | A remove answers true exactly with its write, of a slot it saw its fingerprint in, and false only after both buckets. |
| `FineAnswers.InsertAnswers` | cuckoo_filter/fine_grained_locked_filter.cpp:28-92 | An insert answers true exactly with its write of a slot it saw empty, and false only after it saw both of its buckets full, made ten swaps, and saw the bucket each led to full. |
| `FineAnswers.AnySlot` | cuckoo_filter/fine_grained_locked_filter.cpp:70-72 | A swap may take any of the four slots of its bucket. |
| `FineAnswers.EitherBucket` | cuckoo_filter/fine_grained_locked_filter.cpp:61-62 | The first swap may be in either of the key's buckets. |
| `FineSafety.RunInv` | cuckoo_filter/fine_grained_locked_filter.cpp:28-178 | For a power of two so are the books of inserts, removes and drops. |
| `FineTheorems.Conservation` | cuckoo_filter/fine_grained_locked_filter.cpp:36-171 | For every run and state i: table, hands of kicking threads, removed and dropped classes together are the inserts begun in every state up to i if and only if no write before i hit a slot that was not what its thread had seen. |
| `FineTheorems.ConservationWithRaces` | cuckoo_filter/fine_grained_locked_filter.cpp:36-171 | In every run, what such writes overwrote and what such removes left make up exactly the difference. |
| `FineTheorems.WriteRightIff` | cuckoo_filter/fine_grained_locked_filter.cpp:72-91 | From a state in which all inserts begun are accounted for, a write leads to another such state if and only if its slot still is what the thread saw. |
| `FineTheorems.WrongWriteWasSwapped` | cuckoo_filter/fine_grained_locked_filter.cpp:72-79 | For every size, in every run, a write on a slot that is not what its thread saw comes only after another thread's unlocked swap of that slot, made between the look and the write. |
| `FineRace.RaceLoses` | cuckoo_filter/fine_grained_locked_filter.cpp:72-79 | From every accounted-for state with one insert about to fill a slot it saw empty and another about to swap a fingerprint into that bucket, two steps lead to a state that does not account for all inserts. |
| `FineRace.RaceRun` | cuckoo_filter/fine_grained_locked_filter.cpp:36-91 | Such a state is reached: a run from the empty filter whose last step loses a fingerprint. |
| `FineTheorems.MutexDiscipline` | cuckoo_filter/fine_grained_locked_filter.cpp:36-171 | For every size: a thread holds at most one mutex, the one of the bucket it scans, and a writer is that mutex's only holder. |
| `FineTheorems.NoDeadlock` | cuckoo_filter/fine_grained_locked_filter.cpp:107-171 | For every size: while a call is unfinished some thread can take a step of its call. |
| `Reclamation.KeptOrFreed` | cuckoo_filter/lock_free_filter.cpp:454-461 | Every retired address is kept or freed, as often as it was retired: kept if marked as in use, freed if not. |
| `Reclamation.FreedOnce` | cuckoo_filter/lock_free_filter.cpp:454-461 | If none was retired twice, none is freed twice and none is both freed and kept. |
| `Reclamation.CollectHazards` | cuckoo_filter/lock_free_filter.cpp:437-447 | Collects exactly the non-null hazard pointers of the threads given. |
| `SoloFilter.LockFreeFilter.FreeHazardPointers` | cuckoo_filter/lock_free_filter.cpp:432-468 | The in-place compaction keeps the marked addresses in order and frees the others, and no address is freed, retired or stored more than once in all. |
| `SoloFilter.FreedForGood` | cuckoo_filter/lock_free_filter.cpp:353-468 | In every valid state the addresses freed so far, those retired and those stored are disjoint, and none was freed twice. |
| `SoloFilter.Serve` | cuckoo_filter/lock_free_filter.cpp:59-468 | Over any sequence of inserts, removes and frees nothing is freed twice, nor while it is stored or retired. |

## Left out

- NoLoss: promises nothing for an entry with one bucket, which the code may erase; LostIffErased says when.
- MissedIffMoved: for keys with two buckets, as are FalseMissMoved, MissRaisesCounter and SteadyMissIsTrue; an entry with one bucket cannot move, and LostIffErased says when it is not there.
- CopiedOnce: says nothing of an entry already removed, because a stale copy of it can be made from a source that is still marked, as TakenTwice shows.
- SteadyMissIsTrue: a miss that saw a first counter rise may be false, as FalseMiss shows, and nothing is said of it beyond FalseMissMoved.
- Termination of `relocate` and of the retry loop of `insert` under interference: other threads can keep them going.
- Linearizability of the lock-free `remove` and `find`: the code does not give it, as TakenTwice and FalseMiss show.
- Lock-freedom, fairness, throughput and false-positive rates.
- Hazard-pointer safety over whole runs: pointers are not checked again after being marked, nothing calls `free_hazard_pointers`, and `thread_count` is set by `reset` only; `CollectHazards` is given all threads' pointers.
- The new entry a failed lock-free insert has allocated is never freed; the model keeps it in its heap.
- `reset`: it repeats the deleting loops of the destructor and the constructor's set-up.
- Weak memory, and the plain reads and the unlocked swap as C++ data races.
- The mutex of the one-lock filter: its calls are modelled as not overlapping.
- MD5, the hash function, `rand`, `std::shuffle` and clocks: parameters or free choices.
- Verbose output, `size`, the pointer printer, tests, benchmark and scripts.
