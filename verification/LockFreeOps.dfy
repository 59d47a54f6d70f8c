/** The reads of insert, find and remove keep the invariant. */
module LockFreeOps {
  import opened HashIndex
  import opened Words
  import opened LockFreeModel
  import opened LockFreeInvariant
  import opened LockFreeSteps

  lemma MovesBetween(w: World, key: string, p: nat, slot: nat)
    requires w.Ok() && w.fingerprint(p) == w.params.md5(key)
    ensures w.other(Cell(w.params.Bucket1(key), slot), p) == Cell(w.params.Bucket2(key), slot)
    ensures w.other(Cell(w.params.Bucket2(key), slot), p) == Cell(w.params.Bucket1(key), slot)
  {
    NextIndexTwice(w.params, w.params.Bucket1(key), w.params.md5(key));
  }

  lemma BucketsOfKey(w: World, key: string, p: nat)
    requires w.Ok() && w.fingerprint(p) == w.params.md5(key) && p != NULL
    ensures Buckets(w, p, w.params.Bucket1(key), w.params.Bucket2(key))
  {
    forall slot: nat {
      MovesBetween(w, key, p, slot);
    }
  }

  lemma InsertBeginKeeps(w: World, s: State, s': State, t: nat)
    requires w.Ok() && Inv(w, s) && t in s.threads && InsertBegin(w, s, s', t)
    ensures Inv(w, s') && Grows(s, s')
  {
    var key: string, entry: nat :|
      && entry != NULL && entry !in s.addresses
      && w.fingerprint(entry) == w.params.md5(key)
      && s' == WithOp(s, t, InsertRead(entry, w.params.Bucket1(key), w.params.Bucket2(key), 0, false))
               .(addresses := s.addresses + {entry});
    BucketsOfKey(w, key, entry);
    assert forall p | p in s.info :: EntryOk(w, s, p);
    OpKeeps(w, s, s', t, s'.threads[t].op);
  }

  lemma InsertReadKeeps(w: World, s: State, s': State, t: nat)
    requires Inv(w, s) && t in s.threads && InsertReadSlot(w, s, s', t)
    ensures Inv(w, s') && Grows(s, s')
  {
    assert ThreadOk(w, s, t);
    var op := s.threads[t].op;
    if op.k < 2 * SLOTS {
      assert CellOk(s, ScanCell(op.h1, op.h2, op.k));
    }
    OpKeeps(w, s, s', t, s'.threads[t].op);
  }

  // ----- relocate's own reads -----

  /** A thread that goes on with its insert, and calls for help meanwhile or not, keeps the invariant. */
  lemma WalkKeeps(w: World, s: State, s': State, t: nat, op: Op, help: Help)
    requires Inv(w, s) && t in s.threads && Inserting(s.threads[t].op) && s.threads[t].help.NoHelp?
    requires s' == Act(s, t, op, help) && !HasSource(help)
    requires OpOk(w, s, op) && HelpOk(w, s, help)
    requires Inserting(op) ==> op.entry == s.threads[t].op.entry
    ensures Inv(w, s') && Grows(s, s')
  {
    SameSourceFits(w, s, t, help);
    OpUnmoved(w, s, s', op);
    LocalKeeps(w, s, s', t, op, help);
  }

  lemma PathLookKeeps(w: World, s: State, s': State, t: nat)
    requires Inv(w, s) && t in s.threads && PathLook(w, s, s', t)
    ensures Inv(w, s') && Grows(s, s')
  {
    assert ThreadOk(w, s, t);
    var op := s.threads[t].op;
    var c := Cell(op.walk.bucket, op.walk.order[op.walk.turn]);
    assert CellOk(s, c);
    if At(s, c).ptr != NULL {
      PlacesPair(w, s, At(s, c).ptr, c);
    }
    WalkKeeps(w, s, s', t, s'.threads[t].op, s'.threads[t].help);
  }

  lemma SourceLookKeeps(w: World, s: State, s': State, t: nat)
    requires Inv(w, s) && t in s.threads && SourceLook(w, s, s', t)
    ensures Inv(w, s') && Grows(s, s')
  {
    assert ThreadOk(w, s, t);
    var op := s.threads[t].op;
    var c := SourceCell(op);
    assert CellOk(s, c);
    if At(s, c).ptr != NULL {
      PlacesPair(w, s, At(s, c).ptr, c);
    }
    WalkKeeps(w, s, s', t, s'.threads[t].op, s'.threads[t].help);
  }

  lemma DestLookKeeps(w: World, s: State, s': State, t: nat)
    requires Inv(w, s) && t in s.threads && DestLook(w, s, s', t)
    ensures Inv(w, s') && Grows(s, s')
  {
    assert ThreadOk(w, s, t);
    WalkKeeps(w, s, s', t, s'.threads[t].op, s'.threads[t].help);
  }

  lemma InsertSwapFailedKeeps(w: World, s: State, s': State, t: nat)
    requires Inv(w, s) && t in s.threads && InsertSwap(w, s, s', t)
    requires At(s, ScanCell(s.threads[t].op.h1, s.threads[t].op.h2, s.threads[t].op.k)) != s.threads[t].op.expected
    ensures Inv(w, s') && Grows(s, s')
  {
    assert ThreadOk(w, s, t);
    OpKeeps(w, s, s', t, s'.threads[t].op);
  }

  lemma QueryOfKey(w: World, s: State, key: string, forRemove: bool)
    requires w.Ok()
    ensures QueryOk(w, s, Query(w.params.md5(key), w.params.Bucket1(key), w.params.Bucket2(key),
                                forRemove, Present(s), true))
  {
    forall p, slot: nat | w.fingerprint(p) == w.params.md5(key)
      ensures w.other(Cell(w.params.Bucket1(key), slot), p) == Cell(w.params.Bucket2(key), slot)
      ensures w.other(Cell(w.params.Bucket2(key), slot), p) == Cell(w.params.Bucket1(key), slot)
    {
      MovesBetween(w, key, p, slot);
    }
  }

  lemma FindBeginKeeps(w: World, s: State, s': State, t: nat)
    requires w.Ok() && Inv(w, s) && t in s.threads && FindBegin(w, s, s', t)
    ensures Inv(w, s') && Grows(s, s')
  {
    var key: string, forRemove: bool :|
      s' == WithOp(s, t, FindRead1(
        Query(w.params.md5(key), w.params.Bucket1(key), w.params.Bucket2(key), forRemove, Present(s), true), 0));
    QueryOfKey(w, s, key, forRemove);
    OpKeeps(w, s, s', t, s'.threads[t].op);
  }

  lemma FindFirstKeeps(w: World, s: State, s': State, t: nat)
    requires Inv(w, s) && t in s.threads && FindFirst(w, s, s', t)
    ensures Inv(w, s') && Grows(s, s')
  {
    assert ThreadOk(w, s, t);
    var op := s.threads[t].op;
    if op.slot >= SLOTS {
      OpKeeps(w, s, s', t, s'.threads[t].op);
    } else {
      var c := Cell(op.q.h1, op.slot);
      assert CellOk(s, c);
      if At(s, c).mark {
        SameSourceFits(w, s, t, Read1(c, false));
        HelpKeeps(w, s, s', t, Read1(c, false));
      } else {
        FirstReadKeeps(w, s, s', t);
      }
    }
  }

  lemma FirstReadKeeps(w: World, s: State, s': State, t: nat)
    requires Inv(w, s) && t in s.threads && FindFirst(w, s, s', t) && ThreadOk(w, s, t)
    requires var op := s.threads[t].op; op.slot < SLOTS && !At(s, Cell(op.q.h1, op.slot)).mark
    ensures Inv(w, s') && Grows(s, s')
  {
    var op := s.threads[t].op;
    var c := Cell(op.q.h1, op.slot);
    SteadyStable(w, s, s', op.q, op.slot);
    if At(s, c).ptr != NULL && w.fingerprint(At(s, c).ptr) == op.q.fp {
      FoundIsOfClass(w, s, op.q, c);
    }
    OpKeeps(w, s, s', t, s'.threads[t].op);
  }

  /** A matching entry that is still due is in one of the two cells looked at. */
  lemma MatchIsNear(w: World, s: State, q: Query, slot: nat, p: nat)
    requires TableInv(w, s) && QueryOk(w, s, q) && Matches(w, s, q, slot, p) && p !in s.removed
    ensures At(s, Cell(q.h1, slot)).ptr == p || At(s, Cell(q.h2, slot)).ptr == p
  {
    assert EntryOk(w, s, p) && NotLost(s, p);
    assert w.other(Cell(q.h1, slot), p) == Cell(q.h2, slot);
    assert w.other(Cell(q.h2, slot), p) == Cell(q.h1, slot);
    assert w.other(Home(s, p), p) == Away(s, p);
  }

  /** Missing the second cell too means the entry came into the first one meanwhile. */
  lemma SecondMiss(w: World, s: State, q: Query, slot: nat, ts1: nat, watch: set<nat>)
    requires TableInv(w, s) && OpOk(w, s, FindRead2(q, slot, ts1, watch))
    requires var ptr2 := At(s, Cell(q.h2, slot)); ptr2.ptr == NULL || w.fingerprint(ptr2.ptr) != q.fp
    ensures forall p | p in watch && Matches(w, s, q, slot, p) && p !in s.removed ::
              At(s, Cell(q.h1, slot)).ptr == p && At(s, Cell(q.h1, slot)).counter > ts1
  {
    forall p | p in watch && Matches(w, s, q, slot, p) && p !in s.removed
      ensures At(s, Cell(q.h1, slot)).ptr == p && At(s, Cell(q.h1, slot)).counter > ts1
    {
      assert EntryOk(w, s, p);
      MatchIsNear(w, s, q, slot, p);
    }
  }

  /** A marked second word: start the slot over, after helping. */
  lemma RestartAndHelpKeeps(w: World, s: State, s': State, t: nat, c: Cell)
    requires Inv(w, s) && t in s.threads && s.threads[t].op.FindRead2? && w.Valid(c)
    requires s' == WithHelp(WithOp(s, t, FindRead1(s.threads[t].op.q, s.threads[t].op.slot)), t, Read1(c, false))
    requires !HasSource(s.threads[t].help)
    ensures Inv(w, s') && Grows(s, s')
  {
    assert ThreadOk(w, s, t);
    var op := s.threads[t].op;
    SteadyStable(w, s, s', op.q, op.slot);
    SameSourceFits(w, s, t, Read1(c, false));
    LocalKeeps(w, s, s', t, FindRead1(op.q, op.slot), Read1(c, false));
  }

  lemma SecondReadMisses(w: World, s: State, s': State, t: nat, op': Op)
    requires Inv(w, s) && t in s.threads && s.threads[t].op.FindRead2? && ThreadOk(w, s, t)
    requires var op := s.threads[t].op;
             var ptr2 := At(s, Cell(op.q.h2, op.slot));
             && (ptr2.ptr == NULL || w.fingerprint(ptr2.ptr) != op.q.fp)
             && op' == FindAgain1(op.q, op.slot, op.ts1, ptr2.counter, op.watch)
    requires s' == WithOp(s, t, op')
    ensures Inv(w, s') && Grows(s, s')
  {
    var op := s.threads[t].op;
    SecondMiss(w, s, op.q, op.slot, op.ts1, op.watch);
    SteadyStable(w, s, s', op.q, op.slot);
    OpKeeps(w, s, s', t, op');
  }

  lemma SecondReadFinds(w: World, s: State, s': State, t: nat, op': Op)
    requires Inv(w, s) && t in s.threads && s.threads[t].op.FindRead2? && ThreadOk(w, s, t)
    requires var op := s.threads[t].op;
             var c := Cell(op.q.h2, op.slot);
             && w.Valid(c) && At(s, c).ptr != NULL && !At(s, c).mark && w.fingerprint(At(s, c).ptr) == op.q.fp
             && op' == Found(op.q, op.slot + SLOTS, At(s, c))
    requires s' == WithOp(s, t, op')
    ensures Inv(w, s') && Grows(s, s')
  {
    var op := s.threads[t].op;
    FoundIsOfClass(w, s, op.q, Cell(op.q.h2, op.slot));
    assert (op.slot + SLOTS) % SLOTS == op.slot;
    OpKeeps(w, s, s', t, op');
  }

  lemma FindSecondKeeps(w: World, s: State, s': State, t: nat)
    requires Inv(w, s) && t in s.threads && FindSecond(w, s, s', t)
    ensures Inv(w, s') && Grows(s, s')
  {
    assert ThreadOk(w, s, t);
    var op := s.threads[t].op;
    var c := Cell(op.q.h2, op.slot);
    var ptr2 := At(s, c);
    assert CellOk(s, c);
    if ptr2.mark {
      RestartAndHelpKeeps(w, s, s', t, c);
    } else if ptr2.ptr == NULL || w.fingerprint(ptr2.ptr) != op.q.fp {
      SecondReadMisses(w, s, s', t, s'.threads[t].op);
    } else {
      SecondReadFinds(w, s, s', t, s'.threads[t].op);
    }
  }

  lemma FindCounter1Keeps(w: World, s: State, s': State, t: nat)
    requires Inv(w, s) && t in s.threads && FindCounter1(w, s, s', t)
    ensures Inv(w, s') && Grows(s, s')
  {
    assert ThreadOk(w, s, t);
    SteadyStable(w, s, s', s.threads[t].op.q, s.threads[t].op.slot);
    OpKeeps(w, s, s', t, s'.threads[t].op);
  }

  lemma FindCounter2Keeps(w: World, s: State, s': State, t: nat)
    requires Inv(w, s) && t in s.threads && FindCounter2(w, s, s', t)
    ensures Inv(w, s') && Grows(s, s')
  {
    assert ThreadOk(w, s, t);
    var op := s.threads[t].op;
    var q' := s'.threads[t].op.q;
    forall p, lane: nat | q'.steady && p in q'.start && lane < s'.threads[t].op.slot && Matches(w, s', q', lane, p)
      ensures p in s'.removed
    {
      assert Matches(w, s, op.q, lane, p);
      assert p in op.watch || p in s.removed;
    }
    OpKeeps(w, s, s', t, s'.threads[t].op);
  }

  /** A word with the query's fingerprint in one of its two buckets is of its class. */
  lemma FoundIsOfClass(w: World, s: State, q: Query, c: Cell)
    requires TableInv(w, s) && QueryOk(w, s, q) && w.Valid(c) && c.bucket in {q.h1, q.h2}
    requires At(s, c).ptr != NULL && w.fingerprint(At(s, c).ptr) == q.fp
    ensures OfClass(w, s, q, c.slot, At(s, c).ptr)
  {
    var p := At(s, c).ptr;
    assert CellOk(s, c) && EntryOk(w, s, p);
    assert w.other(Cell(q.h1, c.slot), p) == Cell(q.h2, c.slot) && w.other(Cell(q.h2, c.slot), p) == Cell(q.h1, c.slot);
    assert w.other(Away(s, p), p) == Home(s, p);
  }

  lemma RemoveSwapFailedKeeps(w: World, s: State, s': State, t: nat)
    requires Inv(w, s) && t in s.threads && RemoveSwap(w, s, s', t)
    requires At(s, LocationCell(s.threads[t].op.q, s.threads[t].op.location)) != s.threads[t].op.expected
    ensures Inv(w, s') && Grows(s, s')
  {
    assert ThreadOk(w, s, t);
    OpKeeps(w, s, s', t, s'.threads[t].op);
  }
}
