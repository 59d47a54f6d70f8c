/** The compare-and-swaps that succeed keep the invariant. */
module LockFreeWrites {
  import opened Words
  import opened LockFreeModel
  import opened LockFreeInvariant
  import opened LockFreeSteps

  /** A word that thread `u` is about to clear keeps its witness. */
  lemma StillBeingCleared(s: State, s': State, t: nat, c: Cell)
    requires BeingCleared(s, c) && t in s.threads && At(s', c) == At(s, c)
    requires s.threads.Keys <= s'.threads.Keys
    requires forall u | u in s.threads && u != t :: s'.threads[u] == s.threads[u]
    requires s.threads[t].help == Clear(c, At(s, c)) ==> s'.threads[t].help == s.threads[t].help
    ensures BeingCleared(s', c)
  {
    var u :| u in s.threads && s.threads[u].help == Clear(c, At(s, c));
    assert u in s'.threads && s'.threads[u].help == Clear(c, At(s', c));
  }

  // ----- marking the source -----

  lemma MarkKeeps(w: World, s: State, s': State, t: nat)
    requires Inv(w, s) && t in s.threads && HelpMark(w, s, s', t)
    ensures Inv(w, s') && Grows(s, s')
  {
    assert ThreadOk(w, s, t);
    var h := s.threads[t].help;
    SameSourceFits(w, s, t, Read1(h.cell, true));
    if At(s, h.cell) != h.ptr1 {
      HelpKeeps(w, s, s', t, Read1(h.cell, true));
    } else {
      MarkKeepsTable(w, s, s', t);
      assert CellOk(s, h.cell);
      assert Grows(s, s') && NoneCopied(s, s');
      OtherEntriesPending(w, s, s', t);
      OpStable(w, s, s', s.threads[t].op);
      ThreadsKeep(w, s, s', t, s.threads[t].op, Read1(h.cell, true));
    }
  }

  lemma OtherEntriesPending(w: World, s: State, s': State, t: nat)
    requires ThreadInv(w, s) && s'.info == s.info
    ensures OthersPending(s, s', t)
    ensures t in s.threads && Inserting(s.threads[t].op) ==> s.threads[t].op.entry !in s'.info
  {
    assert forall u | u in s.threads :: ThreadOk(w, s, u);
  }

  lemma MarkKeepsTable(w: World, s: State, s': State, t: nat)
    requires Inv(w, s) && t in s.threads && HelpMark(w, s, s', t)
    requires At(s, s.threads[t].help.cell) == s.threads[t].help.ptr1
    ensures TableInv(w, s') && CopiesInv(s')
  {
    assert ThreadOk(w, s, t);
    var h := s.threads[t].help;
    assert forall c :: At(s', c) == if c == h.cell then h.ptr1.(mark := true) else At(s, c);
    forall c | w.Valid(c) ensures CellOk(s', c) { assert CellOk(s, c); }
    forall p | p in s'.info ensures EntryOk(w, s', p) && NotLost(s', p) {
      assert EntryOk(w, s, p) && NotLost(s, p);
    }
    forall c, word | (c, word) in s'.moved ensures MovedOk(w, s', c, word) {
      assert MovedOk(w, s, c, word);
    }
    forall p | p in s'.info ensures CopiesOk(s', p) {
      assert CopiesOk(s, p);
      forall c | BeingCleared(s, c) && At(s', c) == At(s, c) ensures BeingCleared(s', c) {
        StillBeingCleared(s, s', t, c);
      }
    }
  }

  // ----- taking an entry out -----

  lemma RemoveKeeps(w: World, s: State, s': State, t: nat)
    requires Inv(w, s) && t in s.threads && RemoveSwap(w, s, s', t)
    requires At(s, LocationCell(s.threads[t].op.q, s.threads[t].op.location)) == s.threads[t].op.expected
    ensures Inv(w, s') && Grows(s, s')
  {
    assert ThreadOk(w, s, t);
    var op := s.threads[t].op;
    RemoveKeepsTable(w, s, s', t);
    assert Grows(s, s') && NoneCopied(s, s');
    OtherEntriesPending(w, s, s', t);
    SameSourceFits(w, s, t, NoHelp);
    ThreadsKeep(w, s, s', t, Idle(1), NoHelp);
  }

  lemma RemoveKeepsTable(w: World, s: State, s': State, t: nat)
    requires Inv(w, s) && t in s.threads && RemoveSwap(w, s, s', t)
    requires At(s, LocationCell(s.threads[t].op.q, s.threads[t].op.location)) == s.threads[t].op.expected
    ensures TableInv(w, s') && CopiesInv(s')
  {
    assert ThreadOk(w, s, t);
    var op := s.threads[t].op;
    var cell := LocationCell(op.q, op.location);
    assert forall c :: At(s', c) == if c == cell then Word(op.expected.counter, NULL, false) else At(s, c);
    forall c | w.Valid(c) ensures CellOk(s', c) { assert CellOk(s, c); }
    forall p | p in s'.info ensures EntryOk(w, s', p) && NotLost(s', p) {
      assert EntryOk(w, s, p) && NotLost(s, p);
    }
    forall c, word | (c, word) in s'.moved ensures MovedOk(w, s', c, word) {
      assert MovedOk(w, s, c, word);
    }
    RemoveKeepsCopies(w, s, s', t);
  }

  lemma RemoveKeepsCopies(w: World, s: State, s': State, t: nat)
    requires Inv(w, s) && t in s.threads && RemoveSwap(w, s, s', t) && ThreadOk(w, s, t)
    requires At(s, LocationCell(s.threads[t].op.q, s.threads[t].op.location)) == s.threads[t].op.expected
    ensures CopiesInv(s')
  {
    var op := s.threads[t].op;
    var cell := LocationCell(op.q, op.location);
    assert forall c :: At(s', c) == if c == cell then Word(op.expected.counter, NULL, false) else At(s, c);
    forall p | p in s'.info ensures CopiesOk(s', p) {
      assert CopiesOk(s, p) && EntryOk(w, s, p);
      forall c | BeingCleared(s, c) && At(s', c) == At(s, c) ensures BeingCleared(s', c) {
        StillBeingCleared(s, s', t, c);
      }
    }
  }

  // ----- putting an entry in -----

  lemma InsertKeeps(w: World, s: State, s': State, t: nat)
    requires Inv(w, s) && t in s.threads && InsertSwap(w, s, s', t)
    requires At(s, ScanCell(s.threads[t].op.h1, s.threads[t].op.h2, s.threads[t].op.k)) == s.threads[t].op.expected
    ensures Inv(w, s') && Grows(s, s')
  {
    assert ThreadOk(w, s, t);
    var op := s.threads[t].op;
    InsertKeepsTable(w, s, s', t);
    assert Grows(s, s') && NoneCopied(s, s');
    InsertLeavesPending(w, s, s', t);
    SameSourceFits(w, s, t, NoHelp);
    ThreadsKeep(w, s, s', t, Idle(1), NoHelp);
  }

  lemma InsertLeavesPending(w: World, s: State, s': State, t: nat)
    requires ThreadInv(w, s) && t in s.threads && Inserting(s.threads[t].op)
    requires s'.info.Keys == s.info.Keys + {s.threads[t].op.entry}
    ensures OthersPending(s, s', t)
  {
    forall u | u in s.threads && u != t && Inserting(s.threads[u].op)
      ensures s.threads[u].op.entry !in s'.info
    {
      assert ThreadOk(w, s, u) && ThreadsOk(w, s, u, t);
      assert s.threads[u].op.entry !in s'.info.Keys;
    }
  }

  lemma InsertKeepsTable(w: World, s: State, s': State, t: nat)
    requires Inv(w, s) && t in s.threads && InsertSwap(w, s, s', t)
    requires At(s, ScanCell(s.threads[t].op.h1, s.threads[t].op.h2, s.threads[t].op.k)) == s.threads[t].op.expected
    ensures TableInv(w, s') && CopiesInv(s')
  {
    assert ThreadOk(w, s, t);
    var op := s.threads[t].op;
    var cell := ScanCell(op.h1, op.h2, op.k);
    assert forall c :: At(s', c) == if c == cell then Word(op.expected.counter, op.entry, false) else At(s, c);
    forall c | w.Valid(c) ensures CellOk(s', c) { assert CellOk(s, c); }
    forall p | p in s'.info ensures EntryOk(w, s', p) && NotLost(s', p) {
      if p != op.entry {
        assert EntryOk(w, s, p) && NotLost(s, p);
      }
    }
    forall c, word | (c, word) in s'.moved ensures MovedOk(w, s', c, word) {
      assert MovedOk(w, s, c, word);
    }
    InsertKeepsCopies(w, s, s', t);
  }

  lemma InsertKeepsCopies(w: World, s: State, s': State, t: nat)
    requires Inv(w, s) && t in s.threads && InsertSwap(w, s, s', t) && ThreadOk(w, s, t)
    requires At(s, ScanCell(s.threads[t].op.h1, s.threads[t].op.h2, s.threads[t].op.k)) == s.threads[t].op.expected
    ensures CopiesInv(s')
  {
    var op := s.threads[t].op;
    var cell := ScanCell(op.h1, op.h2, op.k);
    assert forall c :: At(s', c) == if c == cell then Word(op.expected.counter, op.entry, false) else At(s, c);
    forall p | p in s'.info ensures CopiesOk(s', p) {
      if p == op.entry {
        assert CellOk(s, Home(s', p)) && CellOk(s, Away(s', p));
      } else {
        assert CopiesOk(s, p) && EntryOk(w, s, p);
        forall c | BeingCleared(s, c) && At(s', c) == At(s, c) ensures BeingCleared(s', c) {
          StillBeingCleared(s, s', t, c);
        }
      }
    }
  }

  // ----- clearing the source -----

  lemma ClearKeeps(w: World, s: State, s': State, t: nat)
    requires Inv(w, s) && t in s.threads && HelpClear(w, s, s', t)
    ensures Inv(w, s') && Grows(s, s')
  {
    assert ThreadOk(w, s, t);
    var h := s.threads[t].help;
    SameSourceFits(w, s, t, NoHelp);
    if h.ptr1.counter + 1 > MAX_COUNTER {
      AbortKeeps(w, s, s', t);
    } else if At(s, h.cell) != h.ptr1 {
      HelpKeeps(w, s, s', t, NoHelp);
    } else {
      ClearKeepsTable(w, s, s', t);
      assert CellOk(s, h.cell);
      assert Grows(s, s') && NoneCopied(s, s');
      OtherEntriesPending(w, s, s', t);
      OpStable(w, s, s', s.threads[t].op);
      ThreadsKeep(w, s, s', t, s.threads[t].op, NoHelp);
    }
  }

  lemma ClearKeepsTable(w: World, s: State, s': State, t: nat)
    requires Inv(w, s) && t in s.threads && HelpClear(w, s, s', t)
    requires var h := s.threads[t].help; At(s, h.cell) == h.ptr1 && h.ptr1.counter + 1 <= MAX_COUNTER
    ensures TableInv(w, s') && CopiesInv(s')
  {
    assert ThreadOk(w, s, t);
    var h := s.threads[t].help;
    var q := h.ptr1.ptr;
    PlacesPair(w, s, q, h.cell);
    assert MovedOk(w, s, h.cell, h.ptr1);
    assert forall c :: At(s', c) == if c == h.cell then Word(h.ptr1.counter + 1, NULL, false) else At(s, c);
    forall c | w.Valid(c) ensures CellOk(s', c) { assert CellOk(s, c); }
    forall p | p in s'.info ensures EntryOk(w, s', p) && NotLost(s', p) {
      assert EntryOk(w, s, p) && NotLost(s, p);
      if p == q {
        assert EntryOk(w, s, p);
      }
    }
    forall c, word | (c, word) in s'.moved ensures MovedOk(w, s', c, word) {
      assert MovedOk(w, s, c, word);
      PlacesPair(w, s, word.ptr, c);
    }
    forall p | p in s'.info ensures CopiesOk(s', p) {
      assert CopiesOk(s, p) && EntryOk(w, s, p);
      forall c | BeingCleared(s, c) && c != h.cell ensures BeingCleared(s', c) {
        StillBeingCleared(s, s', t, c);
      }
    }
  }

  // ----- erasing an entry whose two cells are one -----

  lemma EraseKeeps(w: World, s: State, s': State, t: nat)
    requires Inv(w, s) && t in s.threads && (HelpSameEntry(w, s, s', t) || HelpOccupied(w, s, s', t))
    requires var h := s.threads[t].help; w.other(h.cell, h.ptr1.ptr) == h.cell && At(s, h.cell) == h.ptr1
    ensures Inv(w, s') && Grows(s, s')
  {
    assert ThreadOk(w, s, t);
    var h := s.threads[t].help;
    assert h.SameEntry?;
    SameSourceFits(w, s, t, NoHelp);
    if h.ptr1.counter + 1 > MAX_COUNTER {
      AbortKeeps(w, s, s', t);
    } else {
      EraseKeepsTable(w, s, s', t);
      assert CellOk(s, h.cell);
      assert Grows(s, s') && NoneCopied(s, s');
      OtherEntriesPending(w, s, s', t);
      OpStable(w, s, s', s.threads[t].op);
      ThreadsKeep(w, s, s', t, s.threads[t].op, NoHelp);
    }
  }

  lemma EraseKeepsTable(w: World, s: State, s': State, t: nat)
    requires Inv(w, s) && t in s.threads && HelpSameEntry(w, s, s', t)
    requires var h := s.threads[t].help;
             w.other(h.cell, h.ptr1.ptr) == h.cell && At(s, h.cell) == h.ptr1 && h.ptr1.counter + 1 <= MAX_COUNTER
    ensures TableInv(w, s') && CopiesInv(s')
  {
    assert ThreadOk(w, s, t);
    var h := s.threads[t].help;
    PlacesPair(w, s, h.ptr1.ptr, h.cell);
    assert forall c :: At(s', c) == if c == h.cell then Word(h.ptr1.counter + 1, NULL, false) else At(s, c);
    forall c | w.Valid(c) ensures CellOk(s', c) { assert CellOk(s, c); }
    forall p | p in s'.info ensures EntryOk(w, s', p) && NotLost(s', p) {
      assert EntryOk(w, s, p) && NotLost(s, p);
    }
    forall c, word | (c, word) in s'.moved ensures MovedOk(w, s', c, word) {
      assert MovedOk(w, s, c, word);
      PlacesPair(w, s, word.ptr, c);
    }
    forall p | p in s'.info ensures CopiesOk(s', p) {
      assert CopiesOk(s, p) && EntryOk(w, s, p);
      forall c | BeingCleared(s, c) && c != h.cell ensures BeingCleared(s', c) {
        StillBeingCleared(s, s', t, c);
      }
    }
  }

  // ----- copying to the destination -----

  lemma CopyKeeps(w: World, s: State, s': State, t: nat)
    requires Inv(w, s) && t in s.threads && HelpCopy(w, s, s', t)
    ensures Inv(w, s') && Grows(s, s')
  {
    assert ThreadOk(w, s, t);
    var h := s.threads[t].help;
    var d := w.other(h.cell, h.ptr1.ptr);
    if Max(h.ptr1.counter, h.ptr2.counter) + 1 > MAX_COUNTER {
      AbortKeeps(w, s, s', t);
    } else if At(s, d) != h.ptr2 {
      SameSourceFits(w, s, t, Occupied(h.cell, h.ptr1));
      HelpKeeps(w, s, s', t, Occupied(h.cell, h.ptr1));
    } else {
      CopyKeepsTable(w, s, s', t);
      CopyGrows(w, s, s', t);
      CopyKeepsThreads(w, s, s', t);
    }
  }

  /** This step's copy goes through. */
  ghost predicate Copies(w: World, s: State, s': State, t: nat) {
    && HasTable(w, s) && t in s.threads && HelpCopy(w, s, s', t)
    && var h := s.threads[t].help;
       && Max(h.ptr1.counter, h.ptr2.counter) + 1 <= MAX_COUNTER
       && At(s, w.other(h.cell, h.ptr1.ptr)) == h.ptr2
  }

  lemma CopyGrows(w: World, s: State, s': State, t: nat)
    requires Inv(w, s) && Copies(w, s, s', t)
    ensures Grows(s, s')
  {
    assert ThreadOk(w, s, t);
  }

  lemma CopyKeepsTable(w: World, s: State, s': State, t: nat)
    requires Inv(w, s) && Copies(w, s, s', t)
    ensures TableInv(w, s') && CopiesInv(s')
  {
    assert ThreadOk(w, s, t);
    var h := s.threads[t].help;
    var q := h.ptr1.ptr;
    var d := w.other(h.cell, q);
    PlacesPair(w, s, q, h.cell);
    var count := Max(h.ptr1.counter, h.ptr2.counter) + 1;
    assert forall c :: At(s', c) == if c == d then Word(count, q, false) else At(s, c);
    forall c | w.Valid(c) ensures CellOk(s', c) { assert CellOk(s, c); }
    forall p | p in s'.info ensures EntryOk(w, s', p) && NotLost(s', p) {
      assert EntryOk(w, s, p) && NotLost(s, p);
    }
    forall c, word | (c, word) in s'.moved ensures MovedOk(w, s', c, word) {
      if (c, word) != (h.cell, h.ptr1) {
        assert MovedOk(w, s, c, word);
      }
    }
    CopyKeepsCopies(w, s, s', t);
  }

  lemma CopyKeepsCopies(w: World, s: State, s': State, t: nat)
    requires Inv(w, s) && Copies(w, s, s', t) && ThreadOk(w, s, t)
    ensures CopiesInv(s')
  {
    var h := s.threads[t].help;
    var q := h.ptr1.ptr;
    var d := w.other(h.cell, q);
    PlacesPair(w, s, q, h.cell);
    var count := Max(h.ptr1.counter, h.ptr2.counter) + 1;
    assert forall c :: At(s', c) == if c == d then Word(count, q, false) else At(s, c);
    forall p | p in s'.info ensures CopiesOk(s', p) {
      assert CopiesOk(s, p) && EntryOk(w, s, p);
      if p == q {
        assert s'.threads[t].help == Clear(h.cell, h.ptr1);
        assert At(s', h.cell) == h.ptr1 ==> BeingCleared(s', h.cell);
      } else {
        forall c | BeingCleared(s, c) && c != d ensures BeingCleared(s', c) {
          StillBeingCleared(s, s', t, c);
        }
      }
    }
  }

  lemma CopyKeepsThreads(w: World, s: State, s': State, t: nat)
    requires Inv(w, s) && Copies(w, s, s', t) && Grows(s, s')
    ensures ThreadInv(w, s')
  {
    var h := s.threads[t].help;
    var op := s.threads[t].op;
    OtherEntriesPending(w, s, s', t);
    forall u | u in s'.threads
      ensures ThreadOk(w, s', u)
    {
      assert ThreadOk(w, s, u);
      OpStable(w, s, s', s.threads[u].op);
      if u == t {
        PlacesPair(w, s, h.ptr1.ptr, h.cell);
        SeenMarkedStable(s, s', h.cell, h.ptr1);
      } else {
        CopySeenBy(w, s, s', t, u);
      }
    }
    SameSourceFits(w, s, t, Clear(h.cell, h.ptr1));
    ThreadPairsKeep(w, s, s', t, op, Clear(h.cell, h.ptr1));
  }

  /** What another helper relies on survives the copy. */
  lemma CopySeenBy(w: World, s: State, s': State, t: nat, u: nat)
    requires Inv(w, s) && Copies(w, s, s', t) && Grows(s, s')
    requires u in s.threads && u != t
    ensures HelpOk(w, s', s.threads[u].help)
  {
    var h, g := s.threads[t].help, s.threads[u].help;
    assert ThreadOk(w, s, t) && ThreadOk(w, s, u);
    if HasSource(g) {
      var d := w.other(h.cell, h.ptr1.ptr);
      PlacesPair(w, s, h.ptr1.ptr, h.cell);
      PlacesPair(w, s, g.ptr1.ptr, g.cell);
      SeenMarkedStable(s, s', g.cell, g.ptr1);
      assert ThreadsOk(w, s, t, u) && ThreadsOk(w, s, u, t);
      assert forall c :: c != d ==> At(s', c) == At(s, c);
      if g.ptr1.ptr == h.ptr1.ptr {
        assert EntryOk(w, s, g.ptr1.ptr);
        assert g.cell == h.cell || g.cell == d;
      }
    }
  }
}
