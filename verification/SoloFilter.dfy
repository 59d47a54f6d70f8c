/** The lock-free filter as one thread uses it while no other thread runs. */
module SoloFilter {
  import opened Bits
  import opened HashIndex
  import opened Words
  import opened TableBag
  import opened ClassBag
  import opened AbstractFilter
  import opened Reclamation
  import opened SoloSpec
  import opened SoloInsert

  class LockFreeFilter {
    const params: Params
    var table: Slots
    var heap: Heap
    /** This thread's retired addresses, a vector. */
    var retired: seq<nat>
    /** History: all that has been deleted so far. */
    ghost var freed: seq<nat>
    /** History: the copies a relocation has made so far. */
    ghost var moves: nat
    /** A counter did not fit, and the program was stopped. */
    var aborted: bool

    /**
      What holds between calls, whatever the size: no marks, and no address
      twice among those stored, those retired and those freed.
     */
    ghost predicate InOrder()
      reads this
    {
      && params.Valid()
      && SlotsOk(params, heap, table) && Unmarked(params, table) && Distinct(params, table)
      && !aborted
      && Disposed(params, heap, table, multiset(retired) + multiset(freed))
    }

    /** ... and what is stored is a bag of classes. */
    ghost predicate Valid()
      reads this
    {
      Usual(params) && InOrder()
    }

    ghost function Contents(): multiset<Class>
      reads this
      requires params.Valid() && SlotsOk(params, heap, table)
    {
      Bag(params, Strings(params, heap, table))
    }

    /** A capacity of zero stops the program. */
    constructor (p: Params)
      ensures params == p && (aborted <==> p.size == 0)
      ensures !aborted ==> SlotsOk(params, heap, table) && Contents() == multiset{} && retired == freed == []
      ensures !aborted ==> InOrder()
    {
      params := p;
      heap := [""];
      retired, freed, moves := [], [], 0;
      aborted := p.size == 0;
      var row := seq(SLOTS, (i: nat) => EMPTY);
      table := seq(p.size, (b: nat) => row);
      new;
      if !aborted {
        NothingStored(params, heap, table);
      }
    }

    // ----- moving entries -----

    /** Mark the source, if this call is to start the move, and read it. */
    method ReadSource(tableIdx: nat, slotIdx: nat, initiator: bool) returns (ptr1: Word)
      requires Shaped(params, table) && tableIdx < params.size && slotIdx < SLOTS
      requires table[tableIdx][slotIdx].mark ==> table[tableIdx][slotIdx].ptr != NULL
      modifies this`table
      ensures Shaped(params, table) && ptr1 == table[tableIdx][slotIdx]
      ensures table == WithMark(old(table), tableIdx, slotIdx, initiator)
    {
      ptr1 := table[tableIdx][slotIdx];
      assert table[tableIdx][slotIdx := ptr1] == table[tableIdx] && table[tableIdx := table[tableIdx]] == table;
      assert ptr1.mark ==> ptr1.(mark := true) == ptr1;
      while initiator && !ptr1.mark
        invariant Shaped(params, table) && ptr1 == table[tableIdx][slotIdx]
        invariant !ptr1.mark || !initiator ==> table == old(table)
        invariant ptr1.mark && initiator ==> table == WithMark(old(table), tableIdx, slotIdx, true)
        decreases !ptr1.mark
      {
        if ptr1.ptr == NULL {
          return;
        }
        table := Put(table, tableIdx, slotIdx, ptr1.(mark := true));
        ptr1 := table[tableIdx][slotIdx];
      }
    }

    method HelpRelocate(tableIdx: nat, slotIdx: nat, initiator: bool)
      requires params.Valid() && SlotsOk(params, heap, table) && !aborted
      requires tableIdx < params.size && slotIdx < SLOTS
      requires table[tableIdx][slotIdx].mark ==> table[tableIdx][slotIdx].ptr != NULL
      modifies this`table, this`aborted, this`moves
      ensures moves == old(moves) + Copies(params, heap, old(table), tableIdx, slotIdx, initiator)
      ensures var r := Help(params, heap, old(table), tableIdx, slotIdx, initiator);
              aborted == r.Aborted? && (r.Ran? ==> table == r.table)
      ensures aborted ==> AtLimit(params, table)
    {
      var ptr1 := ReadSource(tableIdx, slotIdx, initiator);
      if !ptr1.mark {
        return;
      }
      var newHash := params.NextIndex(tableIdx, heap[ptr1.ptr]);
      var ptr2 := table[newHash][slotIdx];
      if ptr2.ptr == NULL {
        var count := Max(ptr1.counter, ptr2.counter) + 1;
        if count > MAX_COUNTER {
          aborted := true;
          return;
        }
        // Nothing changed since the reads: the source is as it was, and the swap succeeds.
        table := Put(table, newHash, slotIdx, Word(count, ptr1.ptr, false));
        moves := moves + 1;
        if table[tableIdx][slotIdx] == ptr1 {
          table := Put(table, tableIdx, slotIdx, Word(ptr1.counter + 1, NULL, false));
        }
        return;
      }
      if ptr1.counter + 1 > MAX_COUNTER {
        aborted := true;
        return;
      }
      if ptr1.ptr == ptr2.ptr {
        if ptr2 == ptr1 {
          table := Put(table, newHash, slotIdx, Word(ptr1.counter + 1, NULL, false));
        }
        return;
      }
      // Another entry is in the way: the last swap would need its word to be the source's.
      assert ptr2 != ptr1;
    }

    /** Follow the path from a slot until an empty one, noting the buckets passed. */
    method DiscoverPath(start: nat, slotIdx: nat, route: array<nat>) returns (found: bool, depth: nat)
      requires params.Valid() && SlotsOk(params, heap, table) && Unmarked(params, table)
      requires start < params.size && slotIdx < SLOTS && route.Length == MAX_KICKS
      modifies route
      ensures found == (LaneHops(params, heap, table, start, slotIdx) <= 9)
      ensures found ==> depth == LaneHops(params, heap, table, start, slotIdx)
      ensures found && depth > 0 ==> route[depth - 1] == PathBucket(params, heap, table, start, slotIdx, depth - 1)
    {
      found, depth := false, 0;
      var tableIdx := start;
      while !found && depth < MAX_KICKS
        invariant depth <= MAX_KICKS && tableIdx < params.size
        invariant depth <= LaneHops(params, heap, table, start, slotIdx)
        invariant tableIdx == PathBucket(params, heap, table, start, slotIdx, depth)
        invariant depth > 0 ==> route[depth - 1] == PathBucket(params, heap, table, start, slotIdx, depth - 1)
        invariant found ==> depth < MAX_KICKS && depth == LaneHops(params, heap, table, start, slotIdx)
        decreases !found, MAX_KICKS - depth
      {
        HopsAlong(params, heap, table, start, slotIdx, LIMIT, depth);
        PathStep(params, heap, table, start, slotIdx, depth);
        var ptr1 := table[tableIdx][slotIdx];
        // Marks are met only when other threads run; there is nobody to help.
        assert !ptr1.mark;
        if ptr1.ptr != NULL {
          route[depth] := tableIdx;
          tableIdx := params.NextIndex(tableIdx, heap[ptr1.ptr]);
          depth := depth + 1;
        } else {
          found := true;
        }
      }
    }

    /**
      Move the last entry of the slot's path into the empty slot that ends it.
      The loop back over the path asks for the last bucket every time, so it
      makes one move only.
     */
    method Relocate(start: nat, slotIdx: nat) returns (found: bool)
      requires params.Valid() && SlotsOk(params, heap, table) && Unmarked(params, table) && !aborted
      requires start < params.size && slotIdx < SLOTS
      modifies this`table, this`aborted, this`moves
      ensures moves == old(moves) + if !aborted && 0 < LaneHops(params, heap, old(table), start, slotIdx) <= 9
                                    then 1 else 0
      ensures var d := LaneHops(params, heap, old(table), start, slotIdx);
              && found == (d <= 9)
              && (d == 0 || d > 9 ==> table == old(table) && !aborted)
              && (0 < d <= 9 && !aborted ==> table == MoveLast(params, heap, old(table), start, slotIdx, d))
      ensures aborted ==> AtLimit(params, table)
    {
      var route := new nat[MAX_KICKS](i => 0);
      var depth;
      found, depth := DiscoverPath(start, slotIdx, route);
      if found && depth > 0 {
        RouteBack(start, slotIdx, depth, route[depth - 1]);
      }
    }

    /** The loop back over a path of `d` hops, whose last bucket is `source`. */
    method RouteBack(ghost start: nat, slotIdx: nat, d: nat, source: nat)
      requires params.Valid() && SlotsOk(params, heap, table) && Unmarked(params, table) && !aborted
      requires start < params.size && slotIdx < SLOTS
      requires 0 < d == LaneHops(params, heap, table, start, slotIdx) <= LIMIT
      requires source == PathBucket(params, heap, table, start, slotIdx, d - 1)
      modifies this`table, this`aborted, this`moves
      ensures moves == old(moves) + if aborted then 0 else 1
      ensures !aborted ==> table == MoveLast(params, heap, old(table), start, slotIdx, d)
      ensures aborted ==> AtLimit(params, table)
    {
      MoveLastIsMove(params, heap, table, start, slotIdx);
      HelpMoves(params, heap, table, source, slotIdx);
      var i: int := d - 1;
      while i >= 0
        invariant -1 <= i < d && !aborted
        invariant i == d - 1 ==> table == old(table) && moves == old(moves)
        invariant i < d - 1 ==>
                    moves == old(moves) + 1 && table == MoveLast(params, heap, old(table), start, slotIdx, d)
      {
        var sourcePtr := table[source][slotIdx];
        assert !sourcePtr.mark;
        if sourcePtr.ptr != NULL {
          var dest := NextOf(params, heap, table, source, slotIdx);
          // The path's end is still empty: path discovery is not started over.
          assert table[dest][slotIdx].ptr == NULL;
          HelpRelocate(source, slotIdx, true);
          if aborted {
            return;
          }
        }
        i := i - 1;
      }
    }

    // ----- the three calls -----

    /** Put a new entry into the first empty slot of the eight, lane by lane. */
    method FillEmpty(hash1: nat, hash2: nat, entry: nat) returns (done: bool, ghost b: nat, ghost s: nat)
      requires Shaped(params, table) && hash1 < params.size && hash2 < params.size
      modifies this`table
      ensures done == HasEmpty(params, old(table), hash1, hash2)
      ensures done ==>
                && (b == hash1 || b == hash2) && s < SLOTS && old(table)[b][s].ptr == NULL
                && table == Put(old(table), b, s, Word(old(table)[b][s].counter, entry, false))
                && (b == hash1 || old(table)[hash1][s].ptr != NULL)
                && (forall l | 0 <= l < s :: old(table)[hash1][l].ptr != NULL && old(table)[hash2][l].ptr != NULL)
      ensures !done ==> table == old(table)
    {
      b, s := 0, 0;
      for i := 0 to SLOTS
        invariant table == old(table)
        invariant forall l | 0 <= l < i :: table[hash1][l].ptr != NULL && table[hash2][l].ptr != NULL
      {
        var ptr1 := table[hash1][i];
        if ptr1.ptr == NULL {
          table := Put(table, hash1, i, Word(ptr1.counter, entry, false));
          return true, hash1, i;
        }
        ptr1 := table[hash2][i];
        if ptr1.ptr == NULL {
          table := Put(table, hash2, i, Word(ptr1.counter, entry, false));
          return true, hash2, i;
        }
      }
      return false, 0, 0;
    }

    /** Relocate in one lane of a full bucket, trying the lanes in the given order. */
    method KickOne(bucket: nat, order: seq<nat>) returns (success: bool, ghost lane: nat)
      requires params.Valid() && SlotsOk(params, heap, table) && Unmarked(params, table) && !aborted
      requires bucket < params.size && IsOrder(order)
      requires forall l | 0 <= l < SLOTS :: table[bucket][l].ptr != NULL
      modifies this`table, this`aborted, this`moves
      ensures moves == old(moves) + if success && !aborted then 1 else 0
      ensures success == CanFree(params, heap, old(table), bucket)
      ensures !success ==> table == old(table) && !aborted
      ensures success && !aborted ==>
                && lane < SLOTS && 0 < LaneHops(params, heap, old(table), bucket, lane) <= LIMIT
                && table == MoveLast(params, heap, old(table), bucket, lane,
                                     LaneHops(params, heap, old(table), bucket, lane))
      ensures aborted ==> AtLimit(params, table)
    {
      lane := 0;
      ghost var t0 := table;
      for i := 0 to SLOTS
        invariant table == t0 && !aborted && moves == old(moves)
        invariant Tried(params, heap, t0, bucket, order[..i])
      {
        var found := Relocate(bucket, order[i]);
        if found {
          return true, order[i];
        }
        assert order[..i + 1] == order[..i] + [order[i]];
      }
      assert order[..SLOTS] == order;
      return false, 0;
    }

    /**
      `shuffles(n)` is the order of the lanes the n-th shuffle produces. For
      every size: when the call succeeds, after how many moves at most, and
      that it keeps all entries in their lanes.
     */
    method Insert(key: string, shuffles: nat -> seq<nat>) returns (ok: bool)
      requires InOrder() && forall n :: IsOrder(shuffles(n))
      modifies this`table, this`heap, this`aborted, this`moves
      ensures heap == old(heap) + [params.md5(key)] && SlotsOk(params, heap, old(table))
      ensures old(moves) <= moves <= old(moves) + 33
      ensures aborted ==> AtLimit(params, table)
      ensures !aborted ==>
                && InOrder()
                && ok == (|| HasEmpty(params, old(table), params.Bucket1(key), params.Bucket2(key))
                          || CanFree(params, old(heap), old(table), params.Bucket1(key)))
                && InsertEnds(params, heap, old(table), table, |old(heap)|, key, ok, moves - old(moves))
                && (ok <==> InTable(params, table, |old(heap)|))
      ensures !aborted && Usual(params) ==>
                Answers(params, old(Contents()), InsertCall(key), ok, Contents())
    {
      var hash1 := params.Bucket1(key);
      var entry := |heap|;
      ghost var was, t0 := heap, table;
      NewEntryChangesNothing(params, heap, table, hash1, params.md5(key));
      heap := heap + [params.md5(key)];
      ok := InsertEntry(key, entry, shuffles);
      if !aborted {
        EndsInOrder(params, was, heap, t0, table, multiset(retired) + multiset(freed), key, ok, moves - old(moves));
        EndsAnswer(params, was, heap, t0, table, key, ok, moves - old(moves));
      }
    }

    /** One round of the retry loop: fill an empty slot, else free one. */
    method Round(hash1: nat, hash2: nat, entry: nat, order: seq<nat>) returns (r: RoundEnd, ghost b: nat, ghost s: nat)
      requires params.Valid() && SlotsOk(params, heap, table) && Unmarked(params, table) && !aborted
      requires hash1 < params.size && hash2 < params.size && IsOrder(order)
      modifies this`table, this`aborted, this`moves
      ensures moves == old(moves) + if r.Relocated? then 1 else 0
      ensures RoundMeans(params, heap, old(table), table, hash1, hash2, entry, r, b, s)
      ensures aborted == r.Stopped?
      ensures r.Stopped? ==> AtLimit(params, table)
    {
      var done, success;
      done, b, s := FillEmpty(hash1, hash2, entry);
      if done {
        return Filled, b, s;
      }
      success, s := KickOne(hash1, order);
      return if !success then Full else if aborted then Stopped else Relocated, b, s;
    }

    /** A round, and what it adds to the rounds since table `t0`. */
    method Advance(hash1: nat, hash2: nat, entry: nat, order: seq<nat>,
                   ghost t0: Slots, ghost key: string, ghost done: nat)
      returns (r: RoundEnd)
      requires params.Valid() && SlotsOk(params, heap, table) && Unmarked(params, table) && Distinct(params, table)
      requires !aborted && IsOrder(order)
      requires hash1 == params.Bucket1(key) && hash2 == params.Bucket2(key)
      requires SlotsOk(params, heap, t0) && LanesKept(params, heap, t0, table)
      requires Progress(params, heap, t0, table, hash1, hash2, done)
      requires 0 < entry < |heap| && heap[entry] == params.md5(key) && !InTable(params, t0, entry)
      modifies this`table, this`aborted, this`moves
      ensures Led(params, heap, t0, old(table), table, entry, key, r, done)
      ensures moves == old(moves) + if r.Relocated? then 1 else 0
      ensures aborted == r.Stopped?
      ensures r.Stopped? ==> AtLimit(params, table)
    {
      ghost var t1 := table;
      ghost var b, s;
      r, b, s := Round(hash1, hash2, entry, order);
      RoundLeads(params, heap, t0, t1, table, entry, key, r, b, s, done);
    }

    /** The retry loop: look for an empty slot, else relocate, until one of them fails. */
    method InsertEntry(key: string, entry: nat, shuffles: nat -> seq<nat>) returns (ok: bool)
      requires params.Valid() && SlotsOk(params, heap, table) && Unmarked(params, table) && Distinct(params, table)
      requires !aborted
      requires 0 < entry < |heap| && heap[entry] == params.md5(key) && !InTable(params, table, entry)
      requires forall n :: IsOrder(shuffles(n))
      modifies this`table, this`aborted, this`moves
      ensures old(moves) <= moves <= old(moves) + 33
      ensures aborted ==> AtLimit(params, table)
      ensures !aborted ==> InsertEnds(params, heap, old(table), table, entry, key, ok, moves - old(moves))
    {
      var hash1 := params.Bucket1(key);
      var hash2 := params.NextIndex(hash1, params.md5(key));
      ghost var t0 := table;
      NoProgressYet(params, heap, t0, hash1, hash2);
      ghost var done := 0;
      var round := 0;
      while true
        invariant SlotsOk(params, heap, table) && Unmarked(params, table) && Distinct(params, table) && !aborted
        invariant LanesKept(params, heap, t0, table) && Progress(params, heap, t0, table, hash1, hash2, done)
        invariant moves == old(moves) + done
        decreases Cost(params, heap, table, hash1, SLOTS)
      {
        RelocationsBounded(params, heap, t0, table, hash1, hash2, done);
        var r := Advance(hash1, hash2, entry, shuffles(round), t0, key, done);
        if !r.Relocated? {
          return r.Filled?;
        }
        done := done + 1;
        round := round + 1;
      }
    }

    /** Locations 0 to 3 stand for the first bucket, 4 to 7 for the second, 8 for not found. */
    method Find(key: string) returns (location: nat, word: Word)
      requires InOrder()
      ensures location <= 2 * SLOTS
      ensures if location < 2 * SLOTS then FoundFirst(params, heap, table, key, location, word)
              else MissedBefore(params, heap, table, key, SLOTS)
      ensures Usual(params) ==> (location < 2 * SLOTS <==> KeyClass(params, key) in Contents())
    {
      var fingerprint := params.md5(key);
      var hash1 := params.Bucket1(key);
      var hash2 := params.NextIndex(hash1, fingerprint);
      for slot := 0 to SLOTS
        invariant MissedBefore(params, heap, table, key, slot)
      {
        var ptr1 := table[hash1][slot];
        if ptr1.ptr != NULL && fingerprint == heap[ptr1.ptr] {
          LocationParts(params, key, slot);
          FoundIsStored(params, heap, table, key, slot);
          return slot, ptr1;
        }
        var ptr2 := table[hash2][slot];
        if ptr2.ptr != NULL && fingerprint == heap[ptr2.ptr] {
          LocationParts(params, key, slot);
          FoundIsStored(params, heap, table, key, slot + SLOTS);
          return slot + SLOTS, ptr2;
        }
        // Nothing moved between the rounds, so the counters ask for no second look.
        var ts1x := table[hash1][slot].counter;
        assert ts1x - ptr1.counter < 2;
      }
      if Usual(params) {
        KeyInSlots(params, heap, table, key);
      }
      return 2 * SLOTS, EMPTY;
    }

    method Remove(key: string) returns (ok: bool)
      requires InOrder()
      modifies this`table, this`retired
      ensures InOrder()
      ensures Usual(params) ==> Answers(params, old(Contents()), RemoveCall(key), ok, Contents())
      ensures !ok ==> table == old(table) && retired == old(retired) && MissedBefore(params, heap, table, key, SLOTS)
      ensures ok ==> exists location, word: Word ::
                && FoundFirst(params, heap, old(table), key, location, word)
                && table == Emptied(params, old(table), key, location)
                && retired == old(retired) + [word.ptr]
    {
      var location, word := Find(key);
      if location == 2 * SLOTS {
        return false;
      }
      var hashVal := if location < SLOTS then params.Bucket1(key) else params.Bucket2(key);
      TakeOut(key, hashVal, location, word);
      return true;
    }

    /** The swap that empties the place of the key's fingerprint: alone it always succeeds. */
    method TakeOut(ghost key: string, hashVal: nat, location: nat, word: Word)
      requires InOrder() && FoundFirst(params, heap, table, key, location, word)
      requires hashVal == LocationBucket(params, key, location)
      modifies this`table, this`retired
      ensures InOrder()
      ensures Usual(params) ==> Answers(params, old(Contents()), RemoveCall(key), true, Contents())
      ensures table == Emptied(params, old(table), key, location) && retired == old(retired) + [word.ptr]
    {
      EmptiedOrder(params, heap, table, hashVal, location % SLOTS);
      EmptiedAnswers(params, heap, table, hashVal, location % SLOTS, key);
      RetireOne(params, heap, table, Emptied(params, table, key, location),
                multiset(retired) + multiset(freed), word.ptr);
      OneMoreGone(retired, freed, word.ptr);
      table := Put(table, hashVal, location % SLOTS, Word(word.counter, NULL, false));
      RetireKey(word);
    }

    method RetireKey(pointer: Word)
      modifies this`retired
      ensures retired == old(retired) + [pointer.ptr]
    {
      retired := retired + [pointer.ptr];
    }

    /** The loop over the retired addresses: keep those on record, in place and in order, delete the others. */
    method Compact(record: set<nat>)
      modifies this`retired, this`freed
      ensures retired == Kept(old(retired), record) && freed == old(freed) + Freed(old(retired), record)
    {
      ghost var was, before := retired, freed;
      var oldCount := |retired|;
      var newCount := 0;
      for i := 0 to oldCount
        invariant newCount <= i && |retired| == oldCount
        invariant retired[..newCount] == Kept(was[..i], record)
        invariant freed == before + Freed(was[..i], record)
        invariant forall k | i <= k < oldCount :: retired[k] == was[k]
      {
        assert was[..i + 1][..i] == was[..i] && was[..i + 1][i] == was[i];
        if retired[i] in record {
          retired := retired[newCount := retired[i]];
          newCount := newCount + 1;
        } else {
          freed := freed + [retired[i]];
        }
      }
      assert was[..oldCount] == was;
      retired := retired[..newCount];
    }

    /** Keep the retired addresses that some thread has marked as in use, and free the others. */
    method FreeHazardPointers(hazards: seq<seq<nat>>)
      requires InOrder() && forall i | 0 <= i < |hazards| :: |hazards[i]| == 2
      modifies this`retired, this`freed
      ensures InOrder()
      ensures retired == Kept(old(retired), Marked(hazards))
      ensures freed == old(freed) + Freed(old(retired), Marked(hazards))
    {
      var record := CollectHazards(hazards);
      KeptOrFreed(retired, record);
      StillGone(retired, freed, Kept(retired, record), Freed(retired, record));
      Compact(record);
    }

    /** The destructor's loops: delete what every slot points to. */
    method Destroy() returns (deleted: seq<nat>)
      requires Shaped(params, table) && Distinct(params, table)
      ensures forall i, j | 0 <= i < j < |deleted| :: deleted[i] != deleted[j]
      ensures forall e: nat :: e in deleted <==> e != NULL && InTable(params, table, e)
    {
      deleted := [];
      for i := 0 to params.size
        invariant forall x, y | 0 <= x < y < |deleted| :: deleted[x] != deleted[y]
        invariant forall e: nat :: e in deleted <==> Before(params, table, e, i, 0)
      {
        for j := 0 to SLOTS
          invariant forall x, y | 0 <= x < y < |deleted| :: deleted[x] != deleted[y]
          invariant forall e: nat :: e in deleted <==> Before(params, table, e, i, j)
        {
          var ptr := table[i][j].ptr;
          BeforeNext(params, table, i, j);
          if ptr != NULL {
            deleted := deleted + [ptr];
          }
        }
        assert forall e: nat :: Before(params, table, e, i, SLOTS) <==> Before(params, table, e, i + 1, 0);
      }
      assert forall e: nat :: Before(params, table, e, params.size, 0) <==> e != NULL && InTable(params, table, e);
    }
  }

  /** These entries are allocated, not stored, and different. */
  ghost predicate Disposed(p: Params, h: Heap, t: Slots, gone: multiset<nat>)
    requires Shaped(p, t)
  {
    forall e: nat | e in gone :: NULL < e < |h| && !InTable(p, t, e) && gone[e] == 1
  }

  lemma StillGone(retired: seq<nat>, freed: seq<nat>, kept: seq<nat>, more: seq<nat>)
    requires multiset(retired) == multiset(kept) + multiset(more)
    ensures multiset(kept) + multiset(freed + more) == multiset(retired) + multiset(freed)
  {
  }

  lemma OneMoreGone(retired: seq<nat>, freed: seq<nat>, e: nat)
    ensures multiset(retired + [e]) + multiset(freed) == (multiset(retired) + multiset(freed)) + multiset{e}
  {
  }

  lemma RetireOne(p: Params, h: Heap, t: Slots, t': Slots, gone: multiset<nat>, e: nat)
    requires SlotsOk(p, h, t) && Shaped(p, t') && Disposed(p, h, t, gone)
    requires e != NULL && InTable(p, t, e) && !InTable(p, t', e)
    requires forall a: nat | a != NULL && InTable(p, t', a) :: InTable(p, t, a)
    ensures Disposed(p, h, t', gone + multiset{e})
  {
    forall a: nat | a in gone + multiset{e}
      ensures NULL < a < |h| && !InTable(p, t', a) && (gone + multiset{e})[a] == 1
    {
      assert a in gone || a == e;
    }
  }

  /** Entry `e` is stored in a bucket before `i`, or in bucket `i` before lane `j`. */
  ghost predicate Before(p: Params, t: Slots, e: nat, i: nat, j: nat)
    requires Shaped(p, t)
  {
    e != NULL && exists b, s :: 0 <= b < p.size && 0 <= s < SLOTS && (b < i || (b == i && s < j)) && t[b][s].ptr == e
  }

  lemma BeforeNext(p: Params, t: Slots, i: nat, j: nat)
    requires Shaped(p, t) && Distinct(p, t) && i < p.size && j < SLOTS
    ensures forall e: nat :: Before(p, t, e, i, j + 1) <==> Before(p, t, e, i, j) || (e != NULL && t[i][j].ptr == e)
    ensures !Before(p, t, t[i][j].ptr, i, j)
  {
  }

  /** The bucket a location is in. */
  function LocationBucket(p: Params, key: string, location: nat): (b: nat)
    requires p.Valid()
    ensures b < p.size
  {
    if location < SLOTS then p.Bucket1(key) else p.Bucket2(key)
  }

  predicate Holds(p: Params, h: Heap, t: Slots, key: string, b: nat, s: nat)
    requires SlotsOk(p, h, t) && b < p.size && s < SLOTS
  {
    t[b][s].ptr != NULL && h[t[b][s].ptr] == p.md5(key)
  }

  /** Neither bucket has the key's fingerprint in a lane before `lane`. */
  ghost predicate MissedBefore(p: Params, h: Heap, t: Slots, key: string, lane: nat)
    requires p.Valid() && SlotsOk(p, h, t)
  {
    forall l: nat | l < lane && l < SLOTS ::
      !Holds(p, h, t, key, p.Bucket1(key), l) && !Holds(p, h, t, key, p.Bucket2(key), l)
  }

  /** The location is the first place of the key's fingerprint, and `word` is what is there. */
  ghost predicate FoundFirst(p: Params, h: Heap, t: Slots, key: string, location: nat, word: Word)
    requires p.Valid() && SlotsOk(p, h, t)
  {
    && location < 2 * SLOTS
    && word == t[LocationBucket(p, key, location)][location % SLOTS]
    && Holds(p, h, t, key, LocationBucket(p, key, location), location % SLOTS)
    && MissedBefore(p, h, t, key, location % SLOTS)
    && (location >= SLOTS ==> !Holds(p, h, t, key, p.Bucket1(key), location % SLOTS))
  }

  lemma RowHolds(p: Params, h: Heap, t: Slots, key: string, b: nat)
    requires p.Valid() && SlotsOk(p, h, t) && b < p.size && p.md5(key) != ""
    ensures p.md5(key) in Strings(p, h, t)[b] <==> exists s: nat :: s < SLOTS && Holds(p, h, t, key, b, s)
  {
    var r := Strings(p, h, t);
    if p.md5(key) in r[b] {
      var s: nat :| s < SLOTS && r[b][s] == p.md5(key);
      assert Holds(p, h, t, key, b, s);
    }
    if s: nat :| s < SLOTS && Holds(p, h, t, key, b, s) {
      assert r[b][s] == p.md5(key);
    }
  }

  /** A key's class is stored exactly when a slot of its buckets points to its fingerprint. */
  lemma KeyInSlots(p: Params, h: Heap, t: Slots, key: string)
    requires Usual(p) && SlotsOk(p, h, t)
    ensures KeyClass(p, key) in Bag(p, Strings(p, h, t)) <==> !MissedBefore(p, h, t, key, SLOTS)
  {
    KeyStoredIff(p, Strings(p, h, t), key);
    RowHolds(p, h, t, key, p.Bucket1(key));
    RowHolds(p, h, t, key, p.Bucket2(key));
  }

  /** What is found is stored. */
  lemma FoundIsStored(p: Params, h: Heap, t: Slots, key: string, location: nat)
    requires p.Valid() && SlotsOk(p, h, t) && location < 2 * SLOTS
    requires Holds(p, h, t, key, LocationBucket(p, key, location), location % SLOTS)
    ensures Usual(p) ==> KeyClass(p, key) in Bag(p, Strings(p, h, t))
  {
    if Usual(p) {
      KeyInSlots(p, h, t, key);
    }
  }

  /** The location of a lane in either bucket, taken apart again. */
  lemma LocationParts(p: Params, key: string, slot: nat)
    requires p.Valid() && slot < SLOTS
    ensures slot % SLOTS == slot && LocationBucket(p, key, slot) == p.Bucket1(key)
    ensures (slot + SLOTS) % SLOTS == slot && LocationBucket(p, key, slot + SLOTS) == p.Bucket2(key)
  {
  }

  function Emptied(p: Params, t: Slots, key: string, location: nat): (r: Slots)
    requires p.Valid() && Shaped(p, t)
    ensures Shaped(p, r)
  {
    var b, s := LocationBucket(p, key, location), location % SLOTS;
    Put(t, b, s, Word(t[b][s].counter, NULL, false))
  }

  /** Emptying a slot that holds the key's fingerprint takes one of the key's class ... */
  lemma EmptiedBag(p: Params, h: Heap, t: Slots, b: nat, s: nat, key: string)
    requires Usual(p) && SlotsOk(p, h, t) && s < SLOTS
    requires (b == p.Bucket1(key) || b == p.Bucket2(key)) && Holds(p, h, t, key, b, s)
    ensures var t' := Put(t, b, s, Word(t[b][s].counter, NULL, false));
            && SlotsOk(p, h, t')
            && Answers(p, Bag(p, Strings(p, h, t)), RemoveCall(key), true, Bag(p, Strings(p, h, t')))
  {
    var w := Word(t[b][s].counter, NULL, false);
    StringsPut(p, h, t, b, s, w);
    BagPut(p, Strings(p, h, t), b, s, "");
    ClassEitherBucket(p, p.Bucket1(key), p.md5(key));
    var one := multiset{KeyClass(p, key)};
    assert Bag(p, Strings(p, h, Put(t, b, s, w))) + one == Bag(p, Strings(p, h, t));
    assert Bag(p, Strings(p, h, Put(t, b, s, w))) == Bag(p, Strings(p, h, t)) - one;
  }

  lemma EmptiedAnswers(p: Params, h: Heap, t: Slots, b: nat, s: nat, key: string)
    requires p.Valid() && SlotsOk(p, h, t) && s < SLOTS
    requires (b == p.Bucket1(key) || b == p.Bucket2(key)) && Holds(p, h, t, key, b, s)
    ensures var t' := Put(t, b, s, Word(t[b][s].counter, NULL, false));
            && SlotsOk(p, h, t')
            && (Usual(p) ==> Answers(p, Bag(p, Strings(p, h, t)), RemoveCall(key), true, Bag(p, Strings(p, h, t'))))
  {
    if Usual(p) {
      EmptiedBag(p, h, t, b, s, key);
    }
  }

  /** ... and that entry only. */
  lemma EmptiedOrder(p: Params, h: Heap, t: Slots, b: nat, s: nat)
    requires SlotsOk(p, h, t) && Unmarked(p, t) && Distinct(p, t) && b < p.size && s < SLOTS && t[b][s].ptr != NULL
    ensures var t' := Put(t, b, s, Word(t[b][s].counter, NULL, false));
            && SlotsOk(p, h, t') && Unmarked(p, t') && Distinct(p, t')
            && InTable(p, t, t[b][s].ptr) && !InTable(p, t', t[b][s].ptr)
            && forall a: nat | a != NULL && InTable(p, t', a) :: InTable(p, t, a)
  {
    var t': Slots := Put(t, b, s, Word(t[b][s].counter, NULL, false));
    assert InTable(p, t, t[b][s].ptr);
  }

  /** How a round of the retry loop ends. */
  datatype RoundEnd = Filled | Full | Relocated | Stopped

  ghost predicate RoundMeans(p: Params, h: Heap, t: Slots, t': Slots, b1: nat, b2: nat, e: nat,
                             r: RoundEnd, b: nat, s: nat)
    requires p.Valid() && SlotsOk(p, h, t) && b1 < p.size && b2 < p.size
  {
    && (r.Filled? <==> HasEmpty(p, t, b1, b2))
    && (r.Full? <==> !HasEmpty(p, t, b1, b2) && !CanFree(p, h, t, b1))
    && match r
       case Filled =>
         && (b == b1 || b == b2) && s < SLOTS && t[b][s].ptr == NULL
         && t' == Put(t, b, s, Word(t[b][s].counter, e, false))
       case Full => t' == t
       case Relocated =>
         && (forall l | 0 <= l < SLOTS :: t[b1][l].ptr != NULL)
         && s < SLOTS && 0 < LaneHops(p, h, t, b1, s) <= LIMIT
         && t' == MoveLast(p, h, t, b1, s, LaneHops(p, h, t, b1, s))
       case Stopped => true
  }

  /** When an insert succeeds, after how many moves, and what it leaves. */
  ghost predicate InsertEnds(p: Params, h: Heap, t0: Slots, t: Slots, e: nat, key: string, ok: bool, done: int)
    requires p.Valid() && SlotsOk(p, h, t0)
  {
    var b1, b2 := p.Bucket1(key), p.Bucket2(key);
    && ok == (HasEmpty(p, t0, b1, b2) || CanFree(p, h, t0, b1))
    && (done == 0 <==> !ok || HasEmpty(p, t0, b1, b2))
    && 0 <= done && (done > 0 ==> done + Lanes(p, h, t0, b1, SLOTS) <= Cost(p, h, t0, b1, SLOTS) + 1)
    && if ok then FilledFrom(p, h, t0, t, e, key) else t == t0
  }

  /** None of these lanes can be freed. */
  ghost predicate Tried(p: Params, h: Heap, t: Slots, b: nat, lanes: seq<nat>)
    requires p.Valid() && SlotsOk(p, h, t) && b < p.size
  {
    forall s | s in lanes :: s < SLOTS && LaneHops(p, h, t, b, s) > LIMIT
  }

  ghost predicate InTable(p: Params, t: Slots, e: nat)
    requires Shaped(p, t)
  {
    exists b, s :: 0 <= b < p.size && 0 <= s < SLOTS && t[b][s].ptr == e
  }

  ghost predicate AtLimit(p: Params, t: Slots) {
    Shaped(p, t) && exists b, s :: 0 <= b < p.size && 0 <= s < SLOTS && t[b][s].counter >= 65535
  }

  lemma NothingStored(p: Params, h: Heap, t: Slots)
    requires p.Valid() && SlotsOk(p, h, t)
    requires forall b, s | 0 <= b < |t| && 0 <= s < SLOTS :: t[b][s].ptr == NULL
    ensures Bag(p, Strings(p, h, t)) == multiset{}
  {
    var r := Strings(p, h, t);
    forall c: Class
      ensures c !in Bag(p, r)
    {
      BagUpToHas(Classes(p), r, |r|, c);
    }
  }

  /** A new entry in the heap is in no slot, and changes neither the bag nor any path. */
  lemma NewEntryChangesNothing(p: Params, h: Heap, t: Slots, b: nat, f: string)
    requires p.Valid() && SlotsOk(p, h, t) && b < p.size
    ensures SlotsOk(p, h + [f], t) && Strings(p, h + [f], t) == Strings(p, h, t)
    ensures CanFree(p, h + [f], t, b) <==> CanFree(p, h, t, b)
    ensures !InTable(p, t, |h|)
  {
    forall s: nat | s < SLOTS
      ensures LaneHops(p, h + [f], t, b, s) == LaneHops(p, h, t, b, s)
    {
      HopsNewEntry(p, h, t, b, s, LIMIT, f);
    }
    var l, r := Strings(p, h + [f], t), Strings(p, h, t);
    forall c | 0 <= c < p.size
      ensures l[c] == r[c]
    {
    }
  }

  /**
    Table `t'` has the new entry `e` and, each in its lane, the entries of
    `t0`; where alternates lead back, they are in their bucket pairs.
   */
  ghost predicate FilledFrom(p: Params, h: Heap, t0: Slots, t': Slots, e: nat, key: string)
    requires p.Valid() && SlotsOk(p, h, t0)
  {
    && SlotsOk(p, h, t') && Distinct(p, t') && Unmarked(p, t')
    && InTable(p, t', e)
    && (forall a: nat, s: nat | a != e && a != NULL && s < SLOTS :: InLane(p, t', a, s) <==> InLane(p, t0, a, s))
    && (IsPow2(p.size) ==> StaysIn(p, h, t0, t'))
    && (Usual(p) ==> Bag(p, Strings(p, h, t')) == Bag(p, Strings(p, h, t0)) + multiset{KeyClass(p, key)})
  }

  lemma FilledFromHolds(p: Params, h: Heap, t0: Slots, t: Slots, b: nat, s: nat, e: nat, key: string)
    requires p.Valid() && SlotsOk(p, h, t0) && SlotsOk(p, h, t) && Distinct(p, t) && Unmarked(p, t)
    requires LanesKept(p, h, t0, t)
    requires (b == p.Bucket1(key) || b == p.Bucket2(key)) && s < SLOTS && t[b][s].ptr == NULL
    requires 0 < e < |h| && h[e] == p.md5(key) && !InTable(p, t0, e)
    ensures FilledFrom(p, h, t0, Put(t, b, s, Word(t[b][s].counter, e, false)), e, key)
  {
    KeptTable(p, h, t0, t, e);
    FilledOrder(p, h, t, b, s, e);
    if IsPow2(p.size) {
      FilledStays(p, h, t0, t, b, s, e);
    }
    if Usual(p) {
      FilledBag(p, h, t, b, s, e, key);
    }
  }

  lemma FilledEnds(p: Params, h: Heap, t0: Slots, t: Slots, t': Slots, b: nat, s: nat, e: nat, key: string, done: nat)
    requires p.Valid() && SlotsOk(p, h, t0) && SlotsOk(p, h, t) && Distinct(p, t) && Unmarked(p, t)
    requires LanesKept(p, h, t0, t) && Progress(p, h, t0, t, p.Bucket1(key), p.Bucket2(key), done)
    requires (b == p.Bucket1(key) || b == p.Bucket2(key)) && s < SLOTS && t[b][s].ptr == NULL
    requires t' == Put(t, b, s, Word(t[b][s].counter, e, false))
    requires 0 < e < |h| && h[e] == p.md5(key) && !InTable(p, t0, e)
    ensures InsertEnds(p, h, t0, t', e, key, true, done)
  {
    FilledFromHolds(p, h, t0, t, b, s, e, key);
    assert HasEmpty(p, t, p.Bucket1(key), p.Bucket2(key));
  }

  lemma FullEnds(p: Params, h: Heap, t0: Slots, t: Slots, e: nat, key: string, done: nat)
    requires p.Valid() && SlotsOk(p, h, t0) && SlotsOk(p, h, t)
    requires Progress(p, h, t0, t, p.Bucket1(key), p.Bucket2(key), done)
    requires !HasEmpty(p, t, p.Bucket1(key), p.Bucket2(key)) && !CanFree(p, h, t, p.Bucket1(key))
    ensures InsertEnds(p, h, t0, t, e, key, false, done)
  {
  }

  /** What a round adds to the rounds before it: the insert's end, or one more relocation. */
  ghost predicate Led(p: Params, h: Heap, t0: Slots, t: Slots, t': Slots, e: nat, key: string, r: RoundEnd, done: nat)
    requires p.Valid() && SlotsOk(p, h, t0) && SlotsOk(p, h, t)
  {
    match r
    case Filled => InsertEnds(p, h, t0, t', e, key, true, done)
    case Full => InsertEnds(p, h, t0, t', e, key, false, done)
    case Relocated =>
      && SlotsOk(p, h, t') && Distinct(p, t') && Unmarked(p, t')
      && LanesKept(p, h, t0, t') && Progress(p, h, t0, t', p.Bucket1(key), p.Bucket2(key), done + 1)
      && Cost(p, h, t', p.Bucket1(key), SLOTS) < Cost(p, h, t, p.Bucket1(key), SLOTS)
    case Stopped => true
  }

  lemma RoundLeads(p: Params, h: Heap, t0: Slots, t: Slots, t': Slots, e: nat, key: string,
                   r: RoundEnd, b: nat, s: nat, done: nat)
    requires p.Valid() && SlotsOk(p, h, t0) && SlotsOk(p, h, t) && Distinct(p, t) && Unmarked(p, t)
    requires LanesKept(p, h, t0, t) && Progress(p, h, t0, t, p.Bucket1(key), p.Bucket2(key), done)
    requires RoundMeans(p, h, t, t', p.Bucket1(key), p.Bucket2(key), e, r, b, s)
    requires 0 < e < |h| && h[e] == p.md5(key) && !InTable(p, t0, e)
    ensures Led(p, h, t0, t, t', e, key, r, done)
  {
    match r {
      case Filled => FilledEnds(p, h, t0, t, t', b, s, e, key, done);
      case Full => FullEnds(p, h, t0, t, e, key, done);
      case Relocated =>
        OneMoreRelocation(p, h, t0, t, p.Bucket1(key), p.Bucket2(key), s, done);
        RelocationRearranges(p, h, t, p.Bucket1(key), s);
        KeptTwice(p, h, t0, t, t');
      case Stopped =>
    }
  }

  /** What keeps entries in their lanes brings in no entry. */
  lemma KeptTable(p: Params, h: Heap, t0: Slots, t: Slots, e: nat)
    requires p.Valid() && SlotsOk(p, h, t0) && SlotsOk(p, h, t) && LanesKept(p, h, t0, t) && e != NULL
    ensures InTable(p, t, e) <==> InTable(p, t0, e)
  {
    InTableLane(p, t0, e);
    InTableLane(p, t, e);
  }

  lemma InTableLane(p: Params, t: Slots, e: nat)
    requires Shaped(p, t)
    ensures InTable(p, t, e) <==> exists s: nat :: s < SLOTS && InLane(p, t, e, s)
  {
    if b, s :| 0 <= b < p.size && 0 <= s < SLOTS && t[b][s].ptr == e {
      assert InLane(p, t, e, s);
    }
  }

  lemma FilledBag(p: Params, h: Heap, t: Slots, b: nat, s: nat, e: nat, key: string)
    requires Usual(p) && SlotsOk(p, h, t)
    requires (b == p.Bucket1(key) || b == p.Bucket2(key)) && s < SLOTS && t[b][s].ptr == NULL
    requires 0 < e < |h| && h[e] == p.md5(key)
    ensures var t' := Put(t, b, s, Word(t[b][s].counter, e, false));
            SlotsOk(p, h, t') && Bag(p, Strings(p, h, t')) == Bag(p, Strings(p, h, t)) + multiset{KeyClass(p, key)}
  {
    StringsPut(p, h, t, b, s, Word(t[b][s].counter, e, false));
    BagPut(p, Strings(p, h, t), b, s, h[e]);
    ClassEitherBucket(p, p.Bucket1(key), h[e]);
  }

  lemma FilledOrder(p: Params, h: Heap, t: Slots, b: nat, s: nat, e: nat)
    requires p.Valid() && SlotsOk(p, h, t) && Distinct(p, t) && Unmarked(p, t)
    requires b < p.size && s < SLOTS && t[b][s].ptr == NULL && 0 < e < |h| && !InTable(p, t, e)
    ensures var t' := Put(t, b, s, Word(t[b][s].counter, e, false));
            && SlotsOk(p, h, t') && Distinct(p, t') && Unmarked(p, t') && InTable(p, t', e)
            && forall a: nat, l: nat | a != e && a != NULL && l < SLOTS :: InLane(p, t', a, l) <==> InLane(p, t, a, l)
  {
    var t': Slots := Put(t, b, s, Word(t[b][s].counter, e, false));
    assert t'[b][s].ptr == e;
    forall a: nat, l: nat | a != e && a != NULL && l < SLOTS
      ensures InLane(p, t', a, l) <==> InLane(p, t, a, l)
    {
      if c :| 0 <= c < p.size && t[c][l].ptr == a {
        assert t'[c][l].ptr == a;
      }
      if c :| 0 <= c < p.size && t'[c][l].ptr == a {
        assert t[c][l].ptr == a;
      }
    }
  }

  lemma FilledStays(p: Params, h: Heap, t0: Slots, t: Slots, b: nat, s: nat, e: nat)
    requires p.Valid() && SlotsOk(p, h, t0) && SlotsOk(p, h, t) && StaysIn(p, h, t0, t)
    requires b < p.size && s < SLOTS && t[b][s].ptr == NULL && e < |h|
    ensures var t' := Put(t, b, s, Word(t[b][s].counter, e, false));
            SlotsOk(p, h, t') && StaysIn(p, h, t0, t')
  {
  }

  /** What the class holds between calls holds after an insert. */
  lemma EndsInOrder(p: Params, h: Heap, h': Heap, t0: Slots, t: Slots, gone: multiset<nat>, key: string,
                    ok: bool, done: int)
    requires p.Valid() && SlotsOk(p, h, t0) && Unmarked(p, t0) && Distinct(p, t0) && Disposed(p, h, t0, gone)
    requires h' == h + [p.md5(key)] && SlotsOk(p, h', t0) && InsertEnds(p, h', t0, t, |h|, key, ok, done)
    ensures SlotsOk(p, h', t) && Unmarked(p, t) && Distinct(p, t) && Disposed(p, h', t, gone)
  {
    forall e: nat | e in gone
      ensures NULL < e < |h'| && !InTable(p, t, e) && gone[e] == 1
    {
      assert e < |h|;
      InTableLane(p, t0, e);
      InTableLane(p, t, e);
    }
  }

  /** ... and its answer is one of the bag of classes. */
  lemma EndsAnswer(p: Params, h: Heap, h': Heap, t0: Slots, t: Slots, key: string, ok: bool, done: int)
    requires p.Valid() && SlotsOk(p, h, t0) && h' == h + [p.md5(key)] && SlotsOk(p, h', t0)
    requires InsertEnds(p, h', t0, t, |h|, key, ok, done) && SlotsOk(p, h', t)
    requires Strings(p, h', t0) == Strings(p, h, t0)
    ensures Usual(p) ==> Answers(p, Bag(p, Strings(p, h, t0)), InsertCall(key), ok, Bag(p, Strings(p, h', t)))
  {
    if !ok {
      Unchanged(p, Bag(p, Strings(p, h, t0)), key);
    }
  }

  /** A failed insert answers for a bag that did not change: it dropped the new key's own class. */
  lemma Unchanged(p: Params, bag: multiset<Class>, key: string)
    requires p.Valid()
    ensures Answers(p, bag, InsertCall(key), false, bag)
  {
    assert bag + multiset{KeyClass(p, key)} == bag + multiset{KeyClass(p, key)};
  }

  // ----- any sequence of calls -----

  /** A call of the filter, or of the routine that frees retired entries, with the hazard pointers it finds. */
  datatype Request =
    | Insertion(key: string, shuffles: nat -> seq<nat>)
    | Removal(key: string)
    | Freeing(hazards: seq<seq<nat>>)

  ghost predicate RequestOk(r: Request) {
    match r
    case Insertion(_, shuffles) => forall n :: IsOrder(shuffles(n))
    case Removal(_) => true
    case Freeing(hazards) => forall i | 0 <= i < |hazards| :: |hazards[i]| == 2
  }

  /** What is freed stays freed once: it is never stored, retired or freed again. */
  lemma FreedForGood(f: LockFreeFilter)
    requires f.InOrder()
    ensures NoRepeats(f.freed) && NoRepeats(f.retired)
    ensures forall e | e in f.freed :: e !in f.retired && !InTable(f.params, f.table, e)
    ensures forall e | e in f.retired :: !InTable(f.params, f.table, e)
  {
    var gone := multiset(f.retired) + multiset(f.freed);
    forall e: nat
      ensures multiset(f.freed)[e] <= 1 && multiset(f.retired)[e] <= 1
    {
      assert gone[e] == multiset(f.retired)[e] + multiset(f.freed)[e] && (e in gone ==> gone[e] == 1);
    }
    Multiplicity(f.freed);
    Multiplicity(f.retired);
    forall e | e in f.freed
      ensures e !in f.retired && !InTable(f.params, f.table, e)
    {
      assert e in multiset(f.freed) && e in gone;
    }
    forall e | e in f.retired
      ensures !InTable(f.params, f.table, e)
    {
      assert e in multiset(f.retired) && e in gone;
    }
  }

  method ServeOne(f: LockFreeFilter, r: Request)
    requires f.InOrder() && RequestOk(r)
    modifies f
    ensures !f.aborted ==> f.InOrder()
    ensures old(f.freed) <= f.freed
  {
    match r {
      case Insertion(key, shuffles) => var ok := f.Insert(key, shuffles);
      case Removal(key) => var ok := f.Remove(key);
      case Freeing(hazards) => f.FreeHazardPointers(hazards);
    }
  }

  /** Over any sequence of inserts, removes and frees nothing is freed twice, nor while it is stored or retired. */
  method Serve(f: LockFreeFilter, requests: seq<Request>)
    requires f.InOrder() && forall i | 0 <= i < |requests| :: RequestOk(requests[i])
    modifies f
    ensures old(f.freed) <= f.freed
    ensures !f.aborted ==>
              && f.InOrder() && NoRepeats(f.freed)
              && forall e | e in f.freed :: e !in f.retired && !InTable(f.params, f.table, e)
  {
    for i := 0 to |requests|
      invariant f.InOrder() && old(f.freed) <= f.freed
    {
      ServeOne(f, requests[i]);
      if f.aborted {
        return;
      }
    }
    FreedForGood(f);
  }
}
