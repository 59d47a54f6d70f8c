/** The promises of the lock-free filter, over every run and every interleaving. */
module LockFreeTheorems {
  import opened HashIndex
  import opened Words
  import opened LockFreeModel
  import opened LockFreeInvariant
  import opened LockFreeSteps
  import opened LockFreeOps
  import opened LockFreeWrites
  import opened LockFreeSafety

  // ----- events -----

  /** Thread t's insert puts its entry into the table. */
  ghost predicate Inserts(w: World, s: State, s': State, t: nat) {
    && HasTable(w, s) && t in s.threads && InsertSwap(w, s, s', t)
    && At(s, ScanCell(s.threads[t].op.h1, s.threads[t].op.h2, s.threads[t].op.k)) == s.threads[t].op.expected
  }

  /** Thread t's remove takes an entry out of the table. */
  ghost predicate Takes(w: World, s: State, s': State, t: nat) {
    && HasTable(w, s) && t in s.threads && RemoveSwap(w, s, s', t)
    && At(s, LocationCell(s.threads[t].op.q, s.threads[t].op.location)) == s.threads[t].op.expected
  }

  ghost predicate InsertsAt(w: World, run: seq<State>, k: nat, t: nat, p: nat, c: Cell) {
    && k + 1 < |run| && Inserts(w, run[k], run[k + 1], t)
    && var op := run[k].threads[t].op;
       p == op.entry && c == ScanCell(op.h1, op.h2, op.k)
  }

  ghost predicate TakesAt(w: World, run: seq<State>, k: nat, t: nat, p: nat) {
    && k + 1 < |run| && Takes(w, run[k], run[k + 1], t)
    && run[k].threads[t].op.expected.ptr == p
  }

  ghost predicate CopiesAt(w: World, run: seq<State>, k: nat, t: nat, c: Cell, ptr1: Word) {
    && k + 1 < |run| && Copies(w, run[k], run[k + 1], t)
    && run[k].threads[t].help.cell == c && run[k].threads[t].help.ptr1 == ptr1
  }

  /** A remove took `p` out at some step before `j`. */
  ghost predicate TakenBefore(w: World, run: seq<State>, j: nat, p: nat) {
    exists k: nat, t: nat :: k < j && TakesAt(w, run, k, t, p)
  }

  /** A run and one more step. */
  lemma Extended(w: World, run: seq<State>, s': State, t: nat)
    requires IsRun(w, run) && Step(w, run[|run| - 1], s', t)
    ensures IsRun(w, run + [s'])
  {
    var longer := run + [s'];
    forall i | 0 <= i < |longer| - 1
      ensures Next(w, longer[i], longer[i + 1])
    {
      if i < |run| - 1 {
        assert Next(w, run[i], run[i + 1]);
      }
    }
  }

  // ----- the history fields record exactly those events -----

  /** A step that only reads: it changes the thread's own place, and gives it no source. */
  ghost predicate Quiet(s: State, s': State, t: nat) {
    && t in s.threads && t in s'.threads
    && s'.table == s.table && s'.info == s.info && s'.removed == s.removed && s'.moved == s.moved
    && s'.threads == s.threads[t := s'.threads[t]]
    && (s'.threads[t].help == s.threads[t].help || s'.threads[t].help.Read1?)
  }

  lemma InsertQuiet(w: World, s: State, s': State, t: nat)
    requires w.params.Valid() && HasTable(w, s) && t in s.threads
    requires InsertBegin(w, s, s', t) || InsertReadSlot(w, s, s', t)
    ensures Quiet(s, s', t)
  {
  }

  lemma RelocateQuiet(w: World, s: State, s': State, t: nat)
    requires HasTable(w, s) && t in s.threads && RelocateStep(w, s, s', t)
    ensures Quiet(s, s', t)
  {
  }

  lemma FindQuiet(w: World, s: State, s': State, t: nat)
    requires w.params.Valid() && HasTable(w, s) && t in s.threads && FindStep(w, s, s', t)
    ensures Quiet(s, s', t)
  {
    if FindFirst(w, s, s', t) || FindSecond(w, s, s', t) {
      FindReadQuiet(w, s, s', t);
    }
  }

  lemma FindReadQuiet(w: World, s: State, s': State, t: nat)
    requires HasTable(w, s) && t in s.threads && (FindFirst(w, s, s', t) || FindSecond(w, s, s', t))
    ensures Quiet(s, s', t)
  {
  }

  lemma OpStepQuiet(w: World, s: State, s': State, t: nat)
    requires w.params.Valid() && HasTable(w, s) && t in s.threads && OpStep(w, s, s', t)
    ensures Quiet(s, s', t) || InsertSwap(w, s, s', t) || RemoveSwap(w, s, s', t)
  {
    if RelocateStep(w, s, s', t) {
      RelocateQuiet(w, s, s', t);
    } else if FindStep(w, s, s', t) {
      FindQuiet(w, s, s', t);
    } else if InsertBegin(w, s, s', t) || InsertReadSlot(w, s, s', t) {
      InsertQuiet(w, s, s', t);
    }
  }

  lemma OpStepRemoves(w: World, s: State, s': State, t: nat)
    requires w.params.Valid() && HasTable(w, s) && t in s.threads && OpStep(w, s, s', t)
    ensures s'.removed != s.removed ==> Takes(w, s, s', t) && s'.removed == s.removed + {s.threads[t].op.expected.ptr}
  {
    OpStepQuiet(w, s, s', t);
  }

  lemma HelpStepRemovesNone(w: World, s: State, s': State, t: nat)
    requires HasTable(w, s) && t in s.threads && HelpStep(w, s, s', t)
    ensures s'.removed == s.removed
  {
  }

  /** Only a remove's swap adds to the removed entries. */
  lemma StepRemoves(w: World, s: State, s': State, t: nat)
    requires Step(w, s, s', t)
    ensures s'.removed != s.removed ==> Takes(w, s, s', t) && s'.removed == s.removed + {s.threads[t].op.expected.ptr}
  {
    if OpStep(w, s, s', t) {
      OpStepRemoves(w, s, s', t);
    } else {
      HelpStepRemovesNone(w, s, s', t);
    }
  }

  lemma {:induction false} RemovedWasTaken(w: World, run: seq<State>, j: nat, p: nat)
    requires IsRun(w, run) && j < |run| && p in run[j].removed
    ensures TakenBefore(w, run, j, p)
    decreases j
  {
    if j > 0 {
      var i := j - 1;
      assert Next(w, run[i], run[i + 1]);
      var t :| Step(w, run[i], run[i + 1], t);
      StepRemoves(w, run[i], run[j], t);
      if p in run[i].removed {
        RemovedWasTaken(w, run, i, p);
        var k: nat, u: nat :| k < i && TakesAt(w, run, k, u, p);
        assert k < j && TakesAt(w, run, k, u, p);
      } else {
        assert TakesAt(w, run, i, t, p);
      }
    }
  }

  lemma {:induction false} RunGrows(w: World, run: seq<State>, i: nat, j: nat)
    requires w.Ok() && IsRun(w, run) && i <= j < |run|
    ensures forall p | p in run[i].info :: p in run[j].info && run[j].info[p] == run[i].info[p]
    ensures run[i].removed <= run[j].removed && run[i].moved <= run[j].moved
    ensures forall c :: At(run[i], c).counter <= At(run[j], c).counter
    decreases j - i
  {
    if i < j {
      assert Next(w, run[i], run[i + 1]);
      var t :| Step(w, run[i], run[i + 1], t);
      RunInv(w, run, i);
      StepInv(w, run[i], run[i + 1], t);
      RunGrows(w, run, i + 1, j);
      forall c ensures At(run[i], c).counter <= At(run[j], c).counter {
        assert CellGrows(run[i], run[i + 1], c);
      }
    }
  }

  // ----- no loss -----

  /** An entry has two cells exactly when its fingerprint does not hash to zero. */
  lemma SplitsIff(w: World, s: State, p: nat)
    requires w.Ok() && p in s.info && EntryOk(w, s, p)
    ensures Splits(s, p) <==> w.Movable(w.fingerprint(p))
  {
    assert w.other(Home(s, p), p) == Away(s, p);
    SameBucketIff(w.params, s.info[p].h1, w.fingerprint(p));
  }

  /**
    An entry whose inserting swap succeeded, and which no remove took out
    since, is in the cell it was inserted in or in that cell's counterpart,
    in every later state.
   */
  lemma NoLoss(w: World, run: seq<State>, i: nat, j: nat, t: nat, p: nat, c: Cell)
    requires w.Ok() && IsRun(w, run) && i < j < |run|
    requires InsertsAt(w, run, i, t, p, c) && w.Movable(w.fingerprint(p))
    requires forall k: nat, u: nat | i < k < j :: !TakesAt(w, run, k, u, p)
    ensures At(run[j], c).ptr == p || At(run[j], w.other(c, p)).ptr == p
    ensures w.other(c, p).slot == c.slot
  {
    RunInv(w, run, i);
    assert ThreadOk(w, run[i], t);
    assert Places(run[i + 1], p, c);
    NotTakenSince(w, run, i + 1, j, p);
    RunGrows(w, run, i + 1, j);
    RunInv(w, run, j);
    assert EntryOk(w, run[j], p) && NotLost(run[j], p);
    SplitsIff(w, run[j], p);
  }

  lemma NotTakenSince(w: World, run: seq<State>, i: nat, j: nat, p: nat)
    requires w.Ok() && IsRun(w, run) && i <= j < |run|
    requires p !in run[i].removed
    requires forall k: nat, u: nat | i <= k < j :: !TakesAt(w, run, k, u, p)
    ensures p !in run[j].removed
  {
    if p in run[j].removed {
      RemovedWasTaken(w, run, j, p);
      var k: nat, u: nat :| k < j && TakesAt(w, run, k, u, p);
      assert k < i;
      RunGrows(w, run, k + 1, i);
    }
  }

  // ----- at most two copies, and only while a thread is about to clear the older -----

  /**
    Two cells with the same entry are each other's counterparts in one lane;
    their counters differ; the smaller one is marked, and a thread that made
    the other copy is about to clear it.
   */
  lemma TwoCopiesAtMost(w: World, run: seq<State>, i: nat, c: Cell, d: Cell)
    requires w.Ok() && IsRun(w, run) && i < |run|
    requires w.Valid(c) && w.Valid(d) && c != d
    requires At(run[i], c).ptr == At(run[i], d).ptr != NULL
    requires At(run[i], c).counter <= At(run[i], d).counter
    ensures d == w.other(c, At(run[i], c).ptr) && d.slot == c.slot
    ensures OlderCopy(run[i], c, d)
  {
    RunInv(w, run, i);
    var s := run[i];
    assert CellOk(s, c) && CellOk(s, d);
    assert CopiesOk(s, At(s, c).ptr) && EntryOk(w, s, At(s, c).ptr);
  }

  /** With every thread outside `help_relocate`, no pointer is stored twice. */
  lemma QuiescentDistinct(w: World, run: seq<State>, i: nat)
    requires w.Ok() && IsRun(w, run) && i < |run|
    requires forall t | t in run[i].threads :: run[i].threads[t].help == NoHelp
    ensures forall c, d | w.Valid(c) && w.Valid(d) && At(run[i], c).ptr == At(run[i], d).ptr != NULL :: c == d
  {
    var s := run[i];
    forall c, d | w.Valid(c) && w.Valid(d) && At(s, c).ptr == At(s, d).ptr != NULL
      ensures c == d
    {
      if c != d && At(s, c).counter <= At(s, d).counter {
        TwoCopiesAtMost(w, run, i, c, d);
      } else if c != d {
        TwoCopiesAtMost(w, run, i, d, c);
      }
    }
  }

  // ----- helping is idempotent -----

  /**
    However many threads help the same marked source word, a second copy is
    made only of an entry that a remove has taken out before.
   */
  lemma CopiedOnce(w: World, run: seq<State>, i: nat, j: nat, t: nat, u: nat, c: Cell, ptr1: Word)
    requires w.Ok() && IsRun(w, run) && i < j < |run|
    requires CopiesAt(w, run, i, t, c, ptr1) && CopiesAt(w, run, j, u, c, ptr1)
    ensures TakenBefore(w, run, j, ptr1.ptr)
  {
    RunGrows(w, run, i + 1, j);
    RunInv(w, run, j);
    var s := run[j];
    assert (c, ptr1) in s.moved;
    assert ThreadOk(w, s, u) && MovedOk(w, s, c, ptr1);
    PlacesPair(w, s, ptr1.ptr, c);
    assert NotLost(s, ptr1.ptr) && EntryOk(w, s, ptr1.ptr);
    RemovedWasTaken(w, run, j, ptr1.ptr);
  }

  // ----- which steps of the helper write -----

  /**
    Of the swaps of lines 413-424 only the first ever writes, and it does
    exactly when the entry has one cell that still holds the word read there:
    it erases the entry.
   */
  lemma FallThroughWritesIff(w: World, run: seq<State>, i: nat, t: nat)
    requires w.Ok() && IsRun(w, run) && i + 1 < |run| && Step(w, run[i], run[i + 1], t)
    requires HelpSameEntry(w, run[i], run[i + 1], t) || HelpOccupied(w, run[i], run[i + 1], t)
    ensures var h := run[i].threads[t].help;
            run[i + 1].table != run[i].table <==>
              && !w.Movable(w.fingerprint(h.ptr1.ptr)) && At(run[i], h.cell) == h.ptr1 && h.ptr1.counter < 65535
    ensures run[i + 1].table != run[i].table ==>
              HelpSameEntry(w, run[i], run[i + 1], t) && At(run[i + 1], run[i].threads[t].help.cell).ptr == NULL
  {
    RunInv(w, run, i);
    var s := run[i];
    assert ThreadOk(w, s, t);
    var h := s.threads[t].help;
    PlacesPair(w, s, h.ptr1.ptr, h.cell);
    assert EntryOk(w, s, h.ptr1.ptr);
    SplitsIff(w, s, h.ptr1.ptr);
    if w.other(h.cell, h.ptr1.ptr) != h.cell || At(s, h.cell) != h.ptr1 {
      FallThroughFails(w, s, h.cell, h.ptr1);
    } else {
      assert h.SameEntry?;
    }
  }

  /** Every stored entry is in one of its key's buckets, in its lane. */
  lemma WellPlaced(w: World, run: seq<State>, i: nat, c: Cell)
    requires w.Ok() && IsRun(w, run) && i < |run| && w.Valid(c)
    ensures var p := At(run[i], c).ptr;
            p != NULL ==> p in run[i].info && run[i].info[p].lane == c.slot
                          && (c.bucket == run[i].info[p].h1 || c.bucket == run[i].info[p].h2)
  {
    RunInv(w, run, i);
    assert CellOk(run[i], c);
  }

  // ----- counters -----

  /** Once a word's copy is made, its cell keeps that very word until its counter is raised. */
  lemma SourceRaised(w: World, run: seq<State>, i: nat, j: nat, t: nat, c: Cell, ptr1: Word)
    requires w.Ok() && IsRun(w, run) && i < j < |run| && CopiesAt(w, run, i, t, c, ptr1)
    ensures At(run[j], c) == ptr1 || At(run[j], c).counter > ptr1.counter
  {
    RunGrows(w, run, i + 1, j);
    RunInv(w, run, j);
    assert (c, ptr1) in run[j].moved && MovedOk(w, run[j], c, ptr1);
  }

  /** ... and clearing it does raise it, whether this thread's swap goes through or not. */
  lemma ClearRaises(w: World, run: seq<State>, j: nat, t: nat)
    requires w.Ok() && IsRun(w, run) && j + 1 < |run| && Step(w, run[j], run[j + 1], t)
    requires HelpClear(w, run[j], run[j + 1], t) && !run[j + 1].aborted
    ensures var h := run[j].threads[t].help; At(run[j + 1], h.cell).counter > h.ptr1.counter
  {
    RunInv(w, run, j);
    assert ThreadOk(w, run[j], t);
  }

  // ----- find -----

  /**
    A find that leaves a slot without having met an entry that was there when
    it first read the slot, and that is still not removed, has seen the first
    counter rise.
   */
  lemma MissRaisesCounter(w: World, run: seq<State>, i: nat, t: nat, p: nat)
    requires w.Ok() && IsRun(w, run) && i < |run|
    requires t in run[i].threads && run[i].threads[t].op.FindAgain2?
    requires var op := run[i].threads[t].op;
             p in op.watch && OfClass(w, run[i], op.q, op.slot, p) && w.Movable(op.q.fp) && p !in run[i].removed
    ensures run[i].threads[t].op.ts1x > run[i].threads[t].op.ts1
  {
    RunInv(w, run, i);
    OfClassMatches(w, run[i], run[i].threads[t].op.q, run[i].threads[t].op.slot, p);
    assert ThreadOk(w, run[i], t);
  }

  /**
    A find about to report a miss, having seen every first counter unchanged,
    is right: each matching entry present when it began was taken out.
   */
  lemma SteadyMissIsTrue(w: World, run: seq<State>, i: nat, t: nat, p: nat, lane: nat)
    requires w.Ok() && IsRun(w, run) && i < |run|
    requires t in run[i].threads && run[i].threads[t].op.FindRead1? && run[i].threads[t].op.slot == SLOTS
    requires var q := run[i].threads[t].op.q;
             q.steady && p in q.start && lane < SLOTS && OfClass(w, run[i], q, lane, p) && w.Movable(q.fp)
    ensures TakenBefore(w, run, i, p)
  {
    RunInv(w, run, i);
    OfClassMatches(w, run[i], run[i].threads[t].op.q, lane, p);
    assert ThreadOk(w, run[i], t);
    assert p in run[i].removed;
    RemovedWasTaken(w, run, i, p);
  }

  lemma OfClassMatches(w: World, s: State, q: Query, lane: nat, p: nat)
    requires w.Ok() && TableInv(w, s) && OfClass(w, s, q, lane, p) && w.Movable(q.fp)
    ensures Matches(w, s, q, lane, p)
  {
    assert EntryOk(w, s, p);
    SplitsIff(w, s, p);
  }

  /** A find that reports a place has just met an entry of its key's class there. */
  lemma HitIsOfClass(w: World, run: seq<State>, i: nat, t: nat)
    requires w.Ok() && IsRun(w, run) && i + 1 < |run| && t in run[i].threads && t in run[i + 1].threads
    requires HasTable(w, run[i]) && (FindFirst(w, run[i], run[i + 1], t) || FindSecond(w, run[i], run[i + 1], t))
    requires run[i + 1].threads[t].op.Idle? && run[i + 1].threads[t].op.result < 2 * SLOTS
    requires !run[i].threads[t].op.q.forRemove
    ensures var q, location := run[i].threads[t].op.q, run[i + 1].threads[t].op.result;
            var p := At(run[i], LocationCell(q, location)).ptr;
            OfClass(w, run[i], q, location % SLOTS, p)
  {
    RunInv(w, run, i);
    FoundHere(w, run[i], run[i + 1], t);
  }

  lemma FoundHere(w: World, s: State, s': State, t: nat)
    requires Inv(w, s) && t in s.threads && t in s'.threads && (FindFirst(w, s, s', t) || FindSecond(w, s, s', t))
    requires s'.threads[t].op.Idle? && s'.threads[t].op.result < 2 * SLOTS && !s.threads[t].op.q.forRemove
    ensures var q, location := s.threads[t].op.q, s'.threads[t].op.result;
            OfClass(w, s, q, location % SLOTS, At(s, LocationCell(q, location)).ptr)
  {
    var op := s.threads[t].op;
    assert ThreadOk(w, s, t);
    if op.FindRead1? {
      assert op.slot < SLOTS && op.slot % SLOTS == op.slot;
      FoundIsOfClass(w, s, op.q, Cell(op.q.h1, op.slot));
    } else {
      assert (op.slot + SLOTS) % SLOTS == op.slot;
      FoundIsOfClass(w, s, op.q, Cell(op.q.h2, op.slot));
    }
  }

  // ----- remove -----

  /** What a remove takes out is of its key's class. */
  lemma TakesOfClass(w: World, run: seq<State>, i: nat, t: nat, p: nat)
    requires w.Ok() && IsRun(w, run) && TakesAt(w, run, i, t, p)
    ensures var op := run[i].threads[t].op; OfClass(w, run[i], op.q, op.location % SLOTS, p)
  {
    RunInv(w, run, i);
    assert ThreadOk(w, run[i], t);
  }

  /** An inserted entry that is in no cell and in no helper's hands. */
  ghost predicate Gone(w: World, s: State, p: nat) {
    && p in s.info
    && (forall c | w.Valid(c) :: At(s, c).ptr != p)
    && (forall t | t in s.threads && HasSource(s.threads[t].help) :: s.threads[t].help.ptr1.ptr != p)
  }

  /**
    What a remove leaves behind: no copy, or one copy that was already marked
    and that another thread is about to clear.
   */
  lemma TakenLeaves(w: World, run: seq<State>, i: nat, t: nat, p: nat, c: Cell)
    requires w.Ok() && IsRun(w, run) && TakesAt(w, run, i, t, p)
    requires w.Valid(c) && At(run[i + 1], c).ptr == p
    ensures At(run[i + 1], c).mark && BeingCleared(run[i + 1], c)
    ensures forall d | w.Valid(d) && At(run[i + 1], d).ptr == p :: d == c
  {
    var s := run[i];
    RunInv(w, run, i);
    RunInv(w, run, i + 1);
    assert ThreadOk(w, s, t);
    TakenLeavesOne(w, s, run[i + 1], t, p, c);
  }

  lemma TakenLeavesOne(w: World, s: State, s': State, t: nat, p: nat, c: Cell)
    requires Inv(w, s) && Takes(w, s, s', t) && s.threads[t].op.expected.ptr == p
    requires OpOk(w, s, s.threads[t].op)
    requires w.Valid(c) && At(s', c).ptr == p
    ensures At(s', c).mark && BeingCleared(s', c)
    ensures forall d | w.Valid(d) && At(s', d).ptr == p :: d == c
  {
    var from := LocationCell(s.threads[t].op.q, s.threads[t].op.location);
    assert At(s', from).ptr == NULL && At(s', c) == At(s, c);
    assert CellOk(s, from) && CellOk(s, c) && CopiesOk(s, p) && EntryOk(w, s, p);
    StillBeingCleared(s, s', t, c);
    forall d | w.Valid(d) && At(s', d).ptr == p
      ensures d == c
    {
      assert CellOk(s, d);
    }
  }

  /** An entry that is gone never comes back. */
  lemma {:induction false} GoneForGood(w: World, run: seq<State>, i: nat, j: nat, p: nat)
    requires w.Ok() && IsRun(w, run) && i <= j < |run| && Gone(w, run[i], p)
    ensures Gone(w, run[j], p)
    decreases j
  {
    if i < j {
      var k := j - 1;
      GoneForGood(w, run, i, k, p);
      assert Next(w, run[k], run[k + 1]);
      RunInv(w, run, k);
      GoneNext(w, run[k], run[j], p);
    }
  }

  lemma GoneNext(w: World, s: State, s': State, p: nat)
    requires w.Ok() && Inv(w, s) && Next(w, s, s') && Gone(w, s, p)
    ensures Gone(w, s', p)
  {
    var t :| Step(w, s, s', t);
    assert ThreadOk(w, s, t) && EntryOk(w, s, p);
    if OpStep(w, s, s', t) {
      OpStepTable(w, s, s', t);
      OpStepHelp(w, s, s', t);
      OpStepKeepsGone(w, s, s', t, p);
    } else {
      HelpStepKeepsGone(w, s, s', t, p);
    }
  }

  /** An operation's own steps only empty a cell, or fill one with a new entry. */
  lemma OpStepTable(w: World, s: State, s': State, t: nat)
    requires w.params.Valid() && HasTable(w, s) && t in s.threads && OpStep(w, s, s', t)
    ensures forall c :: || At(s', c).ptr == At(s, c).ptr || At(s', c).ptr == NULL
                        || (Inserting(s.threads[t].op) && At(s', c).ptr == s.threads[t].op.entry)
    ensures s.info.Keys <= s'.info.Keys
  {
    OpStepQuiet(w, s, s', t);
  }

  /** They give no helper a source. */
  lemma OpStepHelp(w: World, s: State, s': State, t: nat)
    requires w.params.Valid() && HasTable(w, s) && t in s.threads && OpStep(w, s, s', t)
    ensures s'.threads.Keys == s.threads.Keys
    ensures forall u | u in s.threads && u != t :: s'.threads[u] == s.threads[u]
    ensures s'.threads[t].help == s.threads[t].help || s'.threads[t].help.Read1?
  {
    OpStepQuiet(w, s, s', t);
    assert t in s'.threads && s'.threads == s.threads[t := s'.threads[t]];
  }

  lemma OpStepKeepsGone(w: World, s: State, s': State, t: nat, p: nat)
    requires t in s.threads && Gone(w, s, p) && p != NULL && OpOk(w, s, s.threads[t].op)
    requires forall c :: || At(s', c).ptr == At(s, c).ptr || At(s', c).ptr == NULL
                         || (Inserting(s.threads[t].op) && At(s', c).ptr == s.threads[t].op.entry)
    requires s'.threads.Keys == s.threads.Keys
    requires forall u | u in s.threads && u != t :: s'.threads[u] == s.threads[u]
    requires s'.threads[t].help == s.threads[t].help || s'.threads[t].help.Read1?
    requires s.info.Keys <= s'.info.Keys
    ensures Gone(w, s', p)
  {
    assert p in s'.info.Keys;
  }

  lemma HelpStepKeepsGone(w: World, s: State, s': State, t: nat, p: nat)
    requires HasTable(w, s) && t in s.threads && HelpStep(w, s, s', t) && Gone(w, s, p)
    requires HelpOk(w, s, s.threads[t].help) && p != NULL
    ensures Gone(w, s', p)
  {
    if HelpRead1(w, s, s', t) || HelpRead2(w, s, s', t) || HelpCheck(w, s, s', t) {
      assert s'.table == s.table && s'.info == s.info;
    } else if HelpCopy(w, s, s', t) {
      assert s'.info == s.info;
    } else {
      HelpClearsKeepGone(w, s, s', t, p);
    }
  }

  lemma HelpClearsKeepGone(w: World, s: State, s': State, t: nat, p: nat)
    requires HasTable(w, s) && t in s.threads && Gone(w, s, p) && p != NULL
    requires || HelpMark(w, s, s', t) || HelpClear(w, s, s', t)
             || HelpSameEntry(w, s, s', t) || HelpOccupied(w, s, s', t)
    ensures Gone(w, s', p)
  {
    assert s'.info == s.info;
  }
}
