/** Every step keeps the invariant. */
module LockFreeSteps {
  import opened Words
  import opened LockFreeModel
  import opened LockFreeInvariant

  // ----- what one step may do to the table, as other threads see it -----

  ghost predicate CellGrows(s: State, s': State, c: Cell) {
    && At(s', c).counter >= At(s, c).counter
    && (At(s, c).mark && At(s', c).counter == At(s, c).counter ==> At(s', c) == At(s, c))
    && (At(s', c).ptr in s.info && At(s', c).ptr != At(s, c).ptr ==> At(s', c).counter > At(s, c).counter)
    && (At(s', c).ptr != NULL && At(s', c).ptr == At(s, c).ptr ==> At(s', c).counter == At(s, c).counter)
  }

  ghost predicate Grows(s: State, s': State) {
    && (forall p | p in s.info :: p in s'.info && s'.info[p] == s.info[p])
    && s.addresses <= s'.addresses
    && s.removed <= s'.removed
    && s.moved <= s'.moved
    && forall c :: CellGrows(s, s', c)
  }

  /** No entry that was already inserted turned up in a new cell. */
  ghost predicate NoneCopied(s: State, s': State) {
    forall c :: At(s', c).ptr in s.info ==> At(s', c).ptr == At(s, c).ptr
  }

  lemma SteadyStable(w: World, s: State, s': State, q: Query, slot: nat)
    requires Grows(s, s') && FindingOk(w, s, q, slot)
    ensures FindingOk(w, s', q, slot)
  {
    forall p, lane: nat | q.steady && p in q.start && lane < slot && Matches(w, s', q, lane, p)
      ensures p in s'.removed
    {
      assert p in s.info.Keys;
      assert Matches(w, s, q, lane, p);
    }
  }

  lemma OpStable(w: World, s: State, s': State, op: Op)
    requires Grows(s, s') && OpOk(w, s, op)
    requires Inserting(op) ==> op.entry !in s'.info
    ensures OpOk(w, s', op)
  {
    if op.FindRead1? || op.FindRead2? || op.FindAgain1? || op.FindAgain2? {
      SteadyStable(w, s, s', op.q, op.slot);
      assert CellGrows(s, s', Cell(op.q.h1, op.slot));
    }
    if op.FindRead2? || op.FindAgain1? || op.FindAgain2? {
      forall p | p in op.watch && Matches(w, s', op.q, op.slot, p)
        ensures Matches(w, s, op.q, op.slot, p)
      {
        assert p in s.info.Keys;
      }
    }
  }

  lemma SeenMarkedStable(s: State, s': State, c: Cell, word: Word)
    requires Grows(s, s') && SeenMarked(s, c, word)
    ensures SeenMarked(s', c, word)
  {
    assert CellGrows(s, s', c);
  }

  lemma HelpStable(w: World, s: State, s': State, h: Help)
    requires Grows(s, s') && NoneCopied(s, s') && HelpOk(w, s, h) && NULL !in s.info
    ensures HelpOk(w, s', h)
  {
    if HasSource(h) {
      SeenMarkedStable(s, s', h.cell, h.ptr1);
      assert CellGrows(s, s', h.cell);
      var d := w.other(h.cell, h.ptr1.ptr);
      assert CellGrows(s, s', d);
      assert At(s', d).ptr == h.ptr1.ptr ==> At(s, d).ptr == h.ptr1.ptr;
      assert At(s', h.cell).ptr == h.ptr1.ptr ==> At(s, h.cell).ptr == h.ptr1.ptr;
    }
  }

  lemma HelpersStable(w: World, s: State, s': State, h: Help, g: Help)
    requires Grows(s, s') && HelpersOk(w, s, h, g)
    ensures HelpersOk(w, s', h, g)
  {
    if h.Copy? && HasSource(g) {
      assert CellGrows(s, s', h.cell);
      assert CellGrows(s, s', w.other(h.cell, h.ptr1.ptr));
    }
  }

  // ----- steps that write no cell -----

  function Act(s: State, t: nat, op: Op, help: Help): State {
    s.(threads := s.threads[t := Thread(op, help)])
  }

  /** The stepping thread's new place fits with every other helper. */
  ghost predicate FitsHelpers(w: World, s: State, t: nat, help: Help) {
    && HelpersOk(w, s, help, help)
    && forall u | u in s.threads && u != t ::
         HelpersOk(w, s, help, s.threads[u].help) && HelpersOk(w, s, s.threads[u].help, help)
  }

  ghost predicate FitsInserts(s: State, t: nat, op: Op)
    requires t in s.threads
  {
    Inserting(op) ==>
      || op.entry !in s.addresses
      || (Inserting(s.threads[t].op) && s.threads[t].op.entry == op.entry)
  }

  /** The thread does not walk away from a cell it has yet to clear. */
  ghost predicate LeavesNothing(s: State, t: nat, help: Help)
    requires t in s.threads
  {
    var was := s.threads[t].help;
    was.Clear? && was != help ==> At(s, was.cell) != was.ptr1
  }

  lemma LocalKeeps(w: World, s: State, s': State, t: nat, op: Op, help: Help)
    requires Inv(w, s) && t in s.threads
    requires s' == Act(s, t, op, help).(addresses := s'.addresses, aborted := s'.aborted) && s.addresses <= s'.addresses
    requires OpOk(w, s', op) && HelpOk(w, s, help)
    requires LeavesNothing(s, t, help) && FitsHelpers(w, s, t, help) && FitsInserts(s, t, op)
    ensures Inv(w, s') && Grows(s, s')
  {
    assert Grows(s, s') && NoneCopied(s, s');
    assert TableInv(w, s') by {
      forall c | w.Valid(c) ensures CellOk(s', c) { assert CellOk(s, c); }
      forall p | p in s'.info ensures EntryOk(w, s', p) && NotLost(s', p) {
        assert EntryOk(w, s, p) && NotLost(s, p);
      }
      forall c, word | (c, word) in s'.moved ensures MovedOk(w, s', c, word) {
        assert MovedOk(w, s, c, word);
      }
    }
    LocalKeepsCopies(w, s, s', t, op, help);
    assert OthersPending(s, s', t) by {
      assert forall u | u in s.threads :: ThreadOk(w, s, u);
    }
    NoNullEntry(w, s);
    HelpStable(w, s, s', help);
    ThreadsKeep(w, s, s', t, op, help);
  }

  lemma LocalKeepsCopies(w: World, s: State, s': State, t: nat, op: Op, help: Help)
    requires Inv(w, s) && t in s.threads && LeavesNothing(s, t, help)
    requires s' == Act(s, t, op, help).(addresses := s'.addresses, aborted := s'.aborted)
    ensures CopiesInv(s')
  {
    forall c | BeingCleared(s, c)
      ensures BeingCleared(s', c)
    {
      var u :| u in s.threads && s.threads[u].help == Clear(c, At(s, c));
      assert At(s', c) == At(s, c);
      assert u in s'.threads && s'.threads[u].help == Clear(c, At(s', c));
    }
    forall p | p in s'.info
      ensures CopiesOk(s', p)
    {
      assert CopiesOk(s, p);
    }
  }

  /** The threads' part of the invariant, for any step that copies no entry. */
  lemma ThreadsKeep(w: World, s: State, s': State, t: nat, op: Op, help: Help)
    requires Inv(w, s) && t in s.threads && Grows(s, s') && NoneCopied(s, s')
    requires s'.threads == s.threads[t := Thread(op, help)]
    requires OpOk(w, s', op) && HelpOk(w, s', help)
    requires FitsHelpers(w, s, t, help) && FitsInserts(s, t, op) && OthersPending(s, s', t)
    ensures ThreadInv(w, s')
  {
    NoNullEntry(w, s);
    forall u | u in s'.threads
      ensures ThreadOk(w, s', u)
    {
      if u != t {
        OtherThreadStable(w, s, s', u);
      }
    }
    ThreadPairsKeep(w, s, s', t, op, help);
  }

  lemma ThreadPairsKeep(w: World, s: State, s': State, t: nat, op: Op, help: Help)
    requires ThreadInv(w, s) && t in s.threads && Grows(s, s')
    requires s'.threads == s.threads[t := Thread(op, help)]
    requires FitsHelpers(w, s, t, help) && FitsInserts(s, t, op)
    ensures forall u, v | u in s'.threads && v in s'.threads :: ThreadsOk(w, s', u, v)
  {
    forall u, v | u in s'.threads && v in s'.threads
      ensures ThreadsOk(w, s', u, v)
    {
      HelpersStayOk(w, s, s', t, help, u, v);
      if u != v && Inserting(s'.threads[u].op) && Inserting(s'.threads[v].op) {
        InsertsStayApart(w, s, s', t, op, u, v);
      }
    }
  }

  /** No other thread's new entry got into the table. */
  ghost predicate OthersPending(s: State, s': State, t: nat) {
    forall u | u in s.threads && u != t && Inserting(s.threads[u].op) :: s.threads[u].op.entry !in s'.info
  }

  lemma NoNullEntry(w: World, s: State)
    requires TableInv(w, s)
    ensures NULL !in s.info
  {
  }

  lemma OtherThreadStable(w: World, s: State, s': State, u: nat)
    requires ThreadInv(w, s) && Grows(s, s') && NoneCopied(s, s') && NULL !in s.info
    requires u in s.threads && u in s'.threads && s'.threads[u] == s.threads[u]
    requires Inserting(s.threads[u].op) ==> s.threads[u].op.entry !in s'.info
    ensures ThreadOk(w, s', u)
  {
    assert ThreadOk(w, s, u);
    OpStable(w, s, s', s.threads[u].op);
    HelpStable(w, s, s', s.threads[u].help);
  }

  lemma InsertsStayApart(w: World, s: State, s': State, t: nat, op: Op, u: nat, v: nat)
    requires ThreadInv(w, s) && t in s.threads && FitsInserts(s, t, op)
    requires u in s.threads && v in s.threads && u in s'.threads && v in s'.threads
    requires s'.threads[u].op == if u == t then op else s.threads[u].op
    requires s'.threads[v].op == if v == t then op else s.threads[v].op
    requires u != v && Inserting(s'.threads[u].op) && Inserting(s'.threads[v].op)
    ensures s'.threads[u].op.entry != s'.threads[v].op.entry
  {
    assert ThreadsOk(w, s, u, v) && ThreadOk(w, s, u) && ThreadOk(w, s, v);
  }

  lemma HelpersStayOk(w: World, s: State, s': State, t: nat, help: Help, u: nat, v: nat)
    requires ThreadInv(w, s) && Grows(s, s')
    requires t in s.threads && FitsHelpers(w, s, t, help)
    requires s'.threads.Keys == s.threads.Keys && u in s'.threads && v in s'.threads
    requires forall x | x in s'.threads :: s'.threads[x].help == if x == t then help else s.threads[x].help
    ensures HelpersOk(w, s', s'.threads[u].help, s'.threads[v].help)
  {
    var h, g := s'.threads[u].help, s'.threads[v].help;
    assert HelpersOk(w, s, h, g) by {
      if u != t && v != t {
        assert ThreadsOk(w, s, u, v);
      }
    }
    HelpersStable(w, s, s', h, g);
  }

  /** A helper that keeps its source word, or drops it, still fits. */
  lemma SameSourceFits(w: World, s: State, t: nat, help: Help)
    requires ThreadInv(w, s) && t in s.threads
    requires help == s.threads[t].help || !help.Copy?
    requires HasSource(help) ==>
               && HasSource(s.threads[t].help)
               && help.ptr1 == s.threads[t].help.ptr1 && help.cell == s.threads[t].help.cell
    ensures FitsHelpers(w, s, t, help)
  {
    assert ThreadsOk(w, s, t, t);
    forall u | u in s.threads && u != t
      ensures HelpersOk(w, s, help, s.threads[u].help) && HelpersOk(w, s, s.threads[u].help, help)
    {
      assert ThreadsOk(w, s, t, u) && ThreadsOk(w, s, u, t);
    }
  }

  /** Only the operation changes. */
  lemma OpKeeps(w: World, s: State, s': State, t: nat, op: Op)
    requires Inv(w, s) && t in s.threads
    requires s' == WithOp(s, t, op).(addresses := s'.addresses) && s.addresses <= s'.addresses
    requires OpOk(w, s', op) && FitsInserts(s, t, op)
    ensures Inv(w, s') && Grows(s, s')
  {
    SameSourceFits(w, s, t, s.threads[t].help);
    assert ThreadOk(w, s, t);
    LocalKeeps(w, s, s', t, op, s.threads[t].help);
  }

  /** Only the help frame changes. */
  lemma HelpKeeps(w: World, s: State, s': State, t: nat, help: Help)
    requires Inv(w, s) && t in s.threads
    requires s' == WithHelp(s, t, help)
    requires HelpOk(w, s, help) && LeavesNothing(s, t, help) && FitsHelpers(w, s, t, help)
    ensures Inv(w, s') && Grows(s, s')
  {
    assert ThreadOk(w, s, t);
    OpUnmoved(w, s, s', s.threads[t].op);
    LocalKeeps(w, s, s', t, s.threads[t].op, help);
  }

  lemma OpUnmoved(w: World, s: State, s': State, op: Op)
    requires OpOk(w, s, op)
    requires s'.table == s.table && s'.info == s.info && s'.removed == s.removed && s'.addresses == s.addresses
    requires s'.moved == s.moved
    ensures OpOk(w, s', op)
  {
    OpStable(w, s, s', op);
  }

  lemma AbortKeeps(w: World, s: State, s': State, t: nat)
    requires Inv(w, s) && t in s.threads && s' == s.(aborted := true)
    ensures Inv(w, s') && Grows(s, s')
  {
    var th := s.threads[t];
    assert s.threads[t := th] == s.threads;
    assert ThreadOk(w, s, t);
    SameSourceFits(w, s, t, th.help);
    OpUnmoved(w, s, s', th.op);
    LocalKeeps(w, s, s', t, th.op, th.help);
  }

  // ----- the helper's own steps -----

  /** The two places of an entry are each other's destination. */
  lemma PlacesPair(w: World, s: State, p: nat, c: Cell)
    requires TableInv(w, s) && Places(s, p, c)
    ensures p != NULL && w.Valid(c)
    ensures var d := w.other(c, p);
            && w.Valid(d) && Places(s, p, d) && w.other(d, p) == c
            && (d != c <==> Splits(s, p)) && d.slot == c.slot
  {
    assert EntryOk(w, s, p);
  }

  lemma ReadMarkedHeld(w: World, s: State, c: Cell)
    requires TableInv(w, s) && CopiesInv(s) && w.Valid(c) && At(s, c).mark
    ensures Held(w, s, c, At(s, c))
  {
    assert CellOk(s, c);
    var p := At(s, c).ptr;
    PlacesPair(w, s, p, c);
    assert CopiesOk(s, p);
  }

  lemma HelpRead1Keeps(w: World, s: State, s': State, t: nat)
    requires Inv(w, s) && t in s.threads && HelpRead1(w, s, s', t)
    ensures Inv(w, s') && Grows(s, s')
  {
    var h := s.threads[t].help;
    var help := s'.threads[t].help;
    var ptr1 := At(s, h.cell);
    if ptr1.mark {
      ReadMarkedHeld(w, s, h.cell);
      forall u | u in s.threads && u != t
        ensures HelpersOk(w, s, help, s.threads[u].help) && HelpersOk(w, s, s.threads[u].help, help)
      {
        assert ThreadOk(w, s, u);
      }
    } else {
      SameSourceFits(w, s, t, help);
    }
    HelpKeeps(w, s, s', t, help);
  }

  lemma HelpRead2Keeps(w: World, s: State, s': State, t: nat)
    requires Inv(w, s) && t in s.threads && HelpRead2(w, s, s', t)
    ensures Inv(w, s') && Grows(s, s')
  {
    assert ThreadOk(w, s, t);
    var h := s.threads[t].help;
    PlacesPair(w, s, h.ptr1.ptr, h.cell);
    assert CellOk(s, w.other(h.cell, h.ptr1.ptr));
    SameSourceFits(w, s, t, s'.threads[t].help);
    HelpKeeps(w, s, s', t, s'.threads[t].help);
  }

  lemma HelpCheckKeeps(w: World, s: State, s': State, t: nat)
    requires Inv(w, s) && t in s.threads && HelpCheck(w, s, s', t)
    ensures Inv(w, s') && Grows(s, s')
  {
    assert ThreadOk(w, s, t);
    var h := s.threads[t].help;
    var help := s'.threads[t].help;
    if At(s, h.cell) == h.ptr1 {
      PlacesPair(w, s, h.ptr1.ptr, h.cell);
      forall u | u in s.threads && u != t
        ensures HelpersOk(w, s, help, s.threads[u].help) && HelpersOk(w, s, s.threads[u].help, help)
      {
        assert ThreadOk(w, s, u) && ThreadsOk(w, s, u, t);
      }
    } else {
      SameSourceFits(w, s, t, help);
    }
    HelpKeeps(w, s, s', t, help);
  }

  /** The swaps that end a failed relocation do not succeed with two cells, nor once the source has changed. */
  lemma FallThroughFails(w: World, s: State, c: Cell, ptr1: Word)
    requires Held(w, s, c, ptr1)
    requires w.other(c, ptr1.ptr) == c ==> At(s, c) != ptr1
    ensures At(s, w.other(c, ptr1.ptr)) != ptr1
  {
  }

  lemma FallThroughKeeps(w: World, s: State, s': State, t: nat)
    requires Inv(w, s) && t in s.threads
    requires HelpSameEntry(w, s, s', t) || HelpOccupied(w, s, s', t)
    requires var h := s.threads[t].help; w.other(h.cell, h.ptr1.ptr) == h.cell ==> At(s, h.cell) != h.ptr1
    ensures Inv(w, s') && Grows(s, s')
  {
    assert ThreadOk(w, s, t);
    var h := s.threads[t].help;
    FallThroughFails(w, s, h.cell, h.ptr1);
    if h.ptr1.counter + 1 > MAX_COUNTER {
      AbortKeeps(w, s, s', t);
    } else {
      SameSourceFits(w, s, t, NoHelp);
      HelpKeeps(w, s, s', t, NoHelp);
    }
  }
}
