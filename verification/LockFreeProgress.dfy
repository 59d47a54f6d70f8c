/** No thread of the lock-free filter ever waits: in every state of every run each has a step of its own. */
module LockFreeProgress {
  import opened Words
  import opened LockFreeModel
  import opened LockFreeInvariant
  import opened LockFreeSteps
  import opened LockFreeSafety

  ghost predicate CanStep(w: World, s: State, t: nat) {
    exists s' :: Step(w, s, s', t)
  }

  lemma HelperCanStep(w: World, s: State, t: nat)
    requires w.Ok() && Inv(w, s) && !s.aborted && t in s.threads && !s.threads[t].help.NoHelp?
    ensures CanStep(w, s, t)
  {
    assert ThreadOk(w, s, t);
    var h := s.threads[t].help;
    if HasSource(h) {
      PlacesPair(w, s, h.ptr1.ptr, h.cell);
    }
    if h.Read1? || h.Read2? || h.Check? {
      ReaderCanStep(w, s, t);
    } else {
      SwapperCanStep(w, s, t);
    }
  }

  lemma ReaderCanStep(w: World, s: State, t: nat)
    requires w.params.Valid() && HasTable(w, s) && !s.aborted && t in s.threads
    requires var h := s.threads[t].help; h.Read1? || h.Read2? || h.Check?
    requires w.Valid(s.threads[t].help.cell)
    requires var h := s.threads[t].help; HasSource(h) ==> w.Valid(w.other(h.cell, h.ptr1.ptr))
    ensures CanStep(w, s, t)
  {
    var h := s.threads[t].help;
    var word := s.table[h.cell];
    if h.Read1? {
      var s' := WithHelp(s, t, if word.mark then Read2(h.cell, h.initiator, word)
                               else if h.initiator && word.ptr != NULL then Mark(h.cell, word) else NoHelp);
      assert HelpRead1(w, s, s', t) && Step(w, s, s', t);
    } else if h.Read2? {
      var ptr2 := s.table[w.other(h.cell, h.ptr1.ptr)];
      var s' := WithHelp(s, t, if ptr2.ptr == NULL then Check(h.cell, h.initiator, h.ptr1, ptr2)
                               else if h.ptr1.ptr == ptr2.ptr then SameEntry(h.cell, h.ptr1)
                               else Occupied(h.cell, h.ptr1));
      assert HelpRead2(w, s, s', t) && Step(w, s, s', t);
    } else {
      var s' := WithHelp(s, t, if word == h.ptr1 then Copy(h.cell, h.ptr1, h.ptr2) else Read1(h.cell, h.initiator));
      assert HelpCheck(w, s, s', t) && Step(w, s, s', t);
    }
  }

  lemma SwapperCanStep(w: World, s: State, t: nat)
    requires w.params.Valid() && HasTable(w, s) && !s.aborted && t in s.threads
    requires var h := s.threads[t].help; h.Mark? || h.Copy? || h.Clear? || h.SameEntry? || h.Occupied?
    requires w.Valid(s.threads[t].help.cell)
    requires var h := s.threads[t].help; HasSource(h) ==> w.Valid(w.other(h.cell, h.ptr1.ptr))
    ensures CanStep(w, s, t)
  {
    var h := s.threads[t].help;
    if h.Mark? {
      var swapped := if s.table[h.cell] == h.ptr1 then WriteCell(s, h.cell, h.ptr1.(mark := true)) else s;
      var s' := WithHelp(swapped, t, Read1(h.cell, true));
      assert HelpMark(w, s, s', t) && Step(w, s, s', t);
    } else if h.Copy? {
      CopierCanStep(w, s, t);
    } else if h.ptr1.counter + 1 > MAX_COUNTER {
      var s' := s.(aborted := true);
      assert HelpClear(w, s, s', t) || HelpSameEntry(w, s, s', t) || HelpOccupied(w, s, s', t);
      assert Step(w, s, s', t);
    } else {
      LastCanStep(w, s, t);
    }
  }

  lemma CopierCanStep(w: World, s: State, t: nat)
    requires w.params.Valid() && HasTable(w, s) && !s.aborted && t in s.threads && s.threads[t].help.Copy?
    requires var h := s.threads[t].help; w.Valid(w.other(h.cell, h.ptr1.ptr))
    ensures CanStep(w, s, t)
  {
    var h := s.threads[t].help;
    var d, count := w.other(h.cell, h.ptr1.ptr), Max(h.ptr1.counter, h.ptr2.counter) + 1;
    var s' := if count > MAX_COUNTER then s.(aborted := true)
              else if s.table[d] == h.ptr2
              then WithHelp(WriteCell(s, d, Word(count, h.ptr1.ptr, false)), t, Clear(h.cell, h.ptr1))
                   .(moved := s.moved + {(h.cell, h.ptr1)})
              else WithHelp(s, t, Occupied(h.cell, h.ptr1));
    assert HelpCopy(w, s, s', t) && Step(w, s, s', t);
  }

  lemma LastCanStep(w: World, s: State, t: nat)
    requires w.params.Valid() && HasTable(w, s) && !s.aborted && t in s.threads
    requires var h := s.threads[t].help; (h.Clear? || h.SameEntry? || h.Occupied?) && h.ptr1.counter + 1 <= MAX_COUNTER
    requires var h := s.threads[t].help; w.Valid(h.cell) && w.Valid(w.other(h.cell, h.ptr1.ptr))
    ensures CanStep(w, s, t)
  {
    var h := s.threads[t].help;
    var c := if h.Clear? then h.cell else w.other(h.cell, h.ptr1.ptr);
    var word := if h.Occupied? then Word(h.ptr1.counter + 1, h.ptr1.ptr, true)
                else Word(h.ptr1.counter + 1, NULL, false);
    var s' := WithHelp(if s.table[c] == h.ptr1 then WriteCell(s, c, word) else s, t, NoHelp);
    assert HelpClear(w, s, s', t) || HelpSameEntry(w, s, s', t) || HelpOccupied(w, s, s', t);
    assert Step(w, s, s', t);
  }

  // ----- operations -----

  lemma InserterCanStep(w: World, s: State, t: nat)
    requires w.Ok() && Inv(w, s) && !s.aborted && t in s.threads && s.threads[t].help.NoHelp?
    requires s.threads[t].op.InsertRead? || s.threads[t].op.InsertCas?
    ensures CanStep(w, s, t)
  {
    assert ThreadOk(w, s, t);
    var op := s.threads[t].op;
    var c := ScanCell(op.h1, op.h2, op.k);
    if op.InsertCas? {
      var s' := if s.table[c] == op.expected
                then WithOp(WriteCell(s, c, Word(op.expected.counter, op.entry, false)), t, Idle(1))
                     .(info := s.info[op.entry := Info(c.slot, op.h1, op.h2)])
                else WithOp(s, t, InsertRead(op.entry, op.h1, op.h2, op.k + 1, true));
      assert InsertSwap(w, s, s', t) && Step(w, s, s', t);
    } else if op.k < 2 * SLOTS {
      var s' := WithOp(s, t, if s.table[c].ptr == NULL then InsertCas(op.entry, op.h1, op.h2, op.k, s.table[c])
                             else InsertRead(op.entry, op.h1, op.h2, op.k + 1, op.foundEmpty));
      assert InsertReadSlot(w, s, s', t) && Step(w, s, s', t);
    } else {
      OrderOk();
      var s' := WithOp(s, t, if op.foundEmpty then InsertRead(op.entry, op.h1, op.h2, 0, false)
                             else StartWalk(op.entry, op.h1, op.h2, ORDER, 0));
      assert InsertReadSlot(w, s, s', t) && Step(w, s, s', t);
    }
  }

  /** A try may take the lanes in any order. */
  lemma AnyOrder(w: World, s: State, t: nat, order: seq<nat>)
    requires w.params.Valid() && HasTable(w, s) && !s.aborted && t in s.threads && s.threads[t].help.NoHelp?
    requires s.threads[t].op.InsertRead? && s.threads[t].op.k == 8 && !s.threads[t].op.foundEmpty && IsOrder(order)
    ensures var op := s.threads[t].op;
            exists s' :: Step(w, s, s', t) && t in s'.threads && s'.threads[t].op.Discover?
                         && s'.threads[t].op.walk.order == order && s'.threads[t].op.entry == op.entry
  {
    var op := s.threads[t].op;
    var s' := WithOp(s, t, StartWalk(op.entry, op.h1, op.h2, order, 0));
    assert InsertReadSlot(w, s, s', t) && Step(w, s, s', t);
  }

  lemma WalkerCanStep(w: World, s: State, t: nat)
    requires w.Ok() && Inv(w, s) && !s.aborted && t in s.threads && s.threads[t].help.NoHelp?
    requires s.threads[t].op.Discover?
    ensures CanStep(w, s, t)
  {
    assert ThreadOk(w, s, t);
    var op := s.threads[t].op;
    var c := Cell(op.walk.bucket, op.walk.order[op.walk.turn]);
    assert w.Valid(c);
    var ptr1 := s.table[c];
    var s' := if ptr1.mark then WithHelp(s, t, Read1(c, false))
              else if ptr1.ptr == NULL then
                WithOp(s, t, if op.depth == 0 then Retry(op.entry, op.h1, op.h2)
                             else Back(op.entry, op.h1, op.h2, op.walk, op.depth - 1, op.depth - 1, false))
              else if op.depth + 1 < MAX_KICKS then
                WithOp(s, t, Discover(op.entry, op.h1, op.h2, Further(w, op, ptr1.ptr), op.depth + 1))
              else WithOp(s, t, NextLane(op));
    assert PathLook(w, s, s', t) && Step(w, s, s', t);
  }

  lemma MoverCanStep(w: World, s: State, t: nat)
    requires w.Ok() && Inv(w, s) && !s.aborted && t in s.threads && s.threads[t].help.NoHelp?
    requires s.threads[t].op.Back? || s.threads[t].op.BackDest?
    ensures CanStep(w, s, t)
  {
    assert ThreadOk(w, s, t);
    var op := s.threads[t].op;
    var c := SourceCell(op);
    assert w.Valid(c);
    if op.Back? {
      var source := s.table[c];
      var s' := if source.mark && !op.again then WithHelp(WithOp(s, t, op.(again := true)), t, Read1(c, false))
                else if source.ptr == NULL then WithOp(s, t, BackNext(op))
                else WithOp(s, t, BackDest(op.entry, op.h1, op.h2, op.walk, op.top, op.i, source.ptr));
      assert SourceLook(w, s, s', t) && Step(w, s, s', t);
    } else {
      var d := w.other(c, op.ptr);
      var s' := if s.table[d].ptr != NULL
                then WithOp(s, t, Discover(op.entry, op.h1, op.h2, op.walk.(route := NoRoute()), op.i + 1))
                else WithHelp(WithOp(s, t, BackNext(op)), t, Read1(c, true));
      assert DestLook(w, s, s', t) && Step(w, s, s', t);
    }
  }

  lemma FinderCanStep(w: World, s: State, t: nat)
    requires w.Ok() && Inv(w, s) && !s.aborted && t in s.threads && s.threads[t].help.NoHelp?
    requires s.threads[t].op.FindRead1? || s.threads[t].op.FindRead2?
    ensures CanStep(w, s, t)
  {
    assert ThreadOk(w, s, t);
    var op := s.threads[t].op;
    if op.FindRead1? && op.slot >= SLOTS {
      var s' := WithOp(s, t, NotFound(op.q));
      assert FindFirst(w, s, s', t) && Step(w, s, s', t);
    } else if op.FindRead1? {
      var c := Cell(op.q.h1, op.slot);
      assert w.Valid(c);
      var ptr1 := s.table[c];
      var s' := if ptr1.ptr != NULL && ptr1.mark then WithHelp(s, t, Read1(c, false))
                else WithOp(s, t, if ptr1.ptr != NULL && op.q.fp == w.fingerprint(ptr1.ptr)
                                  then Found(op.q, op.slot, ptr1)
                                  else FindRead2(op.q, op.slot, ptr1.counter, Present(s)));
      assert FindFirst(w, s, s', t) && Step(w, s, s', t);
    } else {
      var c := Cell(op.q.h2, op.slot);
      assert w.Valid(c);
      var ptr2 := s.table[c];
      var s' := if ptr2.ptr != NULL && ptr2.mark
                then WithHelp(WithOp(s, t, FindRead1(op.q, op.slot)), t, Read1(c, false))
                else WithOp(s, t, if ptr2.ptr != NULL && op.q.fp == w.fingerprint(ptr2.ptr)
                                  then Found(op.q, op.slot + SLOTS, ptr2)
                                  else FindAgain1(op.q, op.slot, op.ts1, ptr2.counter, op.watch));
      assert FindSecond(w, s, s', t) && Step(w, s, s', t);
    }
  }

  lemma RereaderCanStep(w: World, s: State, t: nat)
    requires w.Ok() && Inv(w, s) && !s.aborted && t in s.threads && s.threads[t].help.NoHelp?
    requires s.threads[t].op.FindAgain1? || s.threads[t].op.FindAgain2?
    ensures CanStep(w, s, t)
  {
    assert ThreadOk(w, s, t);
    var op := s.threads[t].op;
    var c := Cell(if op.FindAgain1? then op.q.h1 else op.q.h2, op.slot);
    assert w.Valid(c);
    var n := s.table[c].counter;
    if op.FindAgain1? {
      var s' := WithOp(s, t, FindAgain2(op.q, op.slot, op.ts1, op.ts2, n, op.watch));
      assert FindCounter1(w, s, s', t) && Step(w, s, s', t);
    } else {
      var s' := WithOp(s, t, if CheckCounter(op.ts1, op.ts2, op.ts1x, n) then FindRead1(op.q, op.slot)
                             else FindRead1(op.q.(steady := op.q.steady && op.ts1x == op.ts1), op.slot + 1));
      assert FindCounter2(w, s, s', t) && Step(w, s, s', t);
    }
  }

  lemma RemoverCanStep(w: World, s: State, t: nat)
    requires w.Ok() && Inv(w, s) && !s.aborted && t in s.threads && s.threads[t].help.NoHelp?
    requires s.threads[t].op.RemoveCas?
    ensures CanStep(w, s, t)
  {
    assert ThreadOk(w, s, t);
    var op := s.threads[t].op;
    var c := LocationCell(op.q, op.location);
    assert w.Valid(c);
    var s' := if s.table[c] == op.expected
              then WithOp(WriteCell(s, c, Word(op.expected.counter, NULL, false)), t, Idle(1))
                   .(removed := s.removed + {op.expected.ptr})
              else WithOp(s, t, FindRead1(op.q.(start := Present(s), steady := true), 0));
    assert RemoveSwap(w, s, s', t) && Step(w, s, s', t);
  }

  lemma IdlerCanStep(w: World, s: State, t: nat)
    requires w.params.Valid() && HasTable(w, s) && !s.aborted && t in s.threads && s.threads[t].help.NoHelp?
    requires s.threads[t].op.Idle?
    ensures CanStep(w, s, t)
  {
    var q := Query(w.params.md5(""), w.params.Bucket1(""), w.params.Bucket2(""), false, Present(s), true);
    var s' := WithOp(s, t, FindRead1(q, 0));
    assert FindBegin(w, s, s', t) && Step(w, s, s', t);
  }

  /** Whatever the other threads are at, and even if they never go on, each thread can take its next step. */
  lemma EachCanStep(w: World, run: seq<State>, i: nat, t: nat)
    requires w.Ok() && IsRun(w, run) && i < |run| && !run[i].aborted && t in run[i].threads
    ensures CanStep(w, run[i], t)
  {
    RunInv(w, run, i);
    StateCanStep(w, run[i], t);
  }

  lemma StateCanStep(w: World, s: State, t: nat)
    requires w.Ok() && Inv(w, s) && !s.aborted && t in s.threads
    ensures CanStep(w, s, t)
  {
    var op := s.threads[t].op;
    if !s.threads[t].help.NoHelp? {
      HelperCanStep(w, s, t);
    } else if op.Idle? {
      IdlerCanStep(w, s, t);
    } else if op.InsertRead? || op.InsertCas? {
      InserterCanStep(w, s, t);
    } else if op.Discover? {
      WalkerCanStep(w, s, t);
    } else if op.Back? || op.BackDest? {
      MoverCanStep(w, s, t);
    } else if op.FindRead1? || op.FindRead2? {
      FinderCanStep(w, s, t);
    } else if op.FindAgain1? || op.FindAgain2? {
      RereaderCanStep(w, s, t);
    } else {
      RemoverCanStep(w, s, t);
    }
  }
}
