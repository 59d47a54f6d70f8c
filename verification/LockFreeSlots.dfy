/** What a slot of the lock-free filter goes through: the five changes there are, in every run. */
module LockFreeSlots {
  import opened Words
  import opened LockFreeModel
  import opened LockFreeInvariant
  import opened LockFreeTheorems
  import opened LockFreeCounters
  import opened LockFreeHelp

  /** What an operation is about to swap, it has read as it should be. */
  predicate OpApt(op: Op) {
    && (op.InsertCas? ==> op.expected.ptr == NULL && op.entry != NULL)
    && (op.InsertRead? || op.Discover? || op.Back? || op.BackDest? ==> op.entry != NULL)
    && (op.RemoveCas? ==> op.expected.ptr != NULL && !op.expected.mark)
  }

  predicate HelpApt(h: Help) {
    && (h.Mark? ==> h.ptr1.ptr != NULL && !h.ptr1.mark)
    && (HasSource(h) ==> h.ptr1.mark && h.ptr1.ptr != NULL)
    && (h.Check? || h.Copy? ==> h.ptr2.ptr == NULL)
  }

  ghost predicate Apt(s: State) {
    forall t | t in s.threads :: OpApt(s.threads[t].op) && HelpApt(s.threads[t].help)
  }

  lemma InsertStaysApt(w: World, s: State, s': State, t: nat)
    requires w.params.Valid() && HasTable(w, s) && t in s.threads && t in s'.threads && InsertStep(w, s, s', t)
    requires OpApt(s.threads[t].op)
    ensures OpApt(s'.threads[t].op)
  {
  }

  lemma PathStaysApt(w: World, s: State, s': State, t: nat)
    requires HasTable(w, s) && t in s.threads && t in s'.threads && RelocateStep(w, s, s', t)
    requires OpApt(s.threads[t].op)
    ensures OpApt(s'.threads[t].op)
  {
    if PathLook(w, s, s', t) {
      LookStaysApt(w, s, s', t);
    }
  }

  lemma LookStaysApt(w: World, s: State, s': State, t: nat)
    requires HasTable(w, s) && t in s.threads && t in s'.threads && PathLook(w, s, s', t)
    requires OpApt(s.threads[t].op)
    ensures OpApt(s'.threads[t].op)
  {
  }

  lemma FindStaysApt(w: World, s: State, s': State, t: nat)
    requires w.params.Valid() && HasTable(w, s) && t in s.threads && t in s'.threads
    requires FindStep(w, s, s', t) || RemoveSwap(w, s, s', t)
    ensures OpApt(s'.threads[t].op)
  {
    if FindFirst(w, s, s', t) || FindSecond(w, s, s', t) {
      ReadStaysApt(w, s, s', t);
    }
  }

  lemma ReadStaysApt(w: World, s: State, s': State, t: nat)
    requires HasTable(w, s) && t in s.threads && t in s'.threads && (FindFirst(w, s, s', t) || FindSecond(w, s, s', t))
    ensures OpApt(s'.threads[t].op)
  {
  }

  lemma OpStaysApt(w: World, s: State, s': State, t: nat)
    requires w.params.Valid() && HasTable(w, s) && t in s.threads && OpStep(w, s, s', t) && Apt(s)
    ensures Apt(s')
  {
    OpStepHelp(w, s, s', t);
    if InsertStep(w, s, s', t) {
      InsertStaysApt(w, s, s', t);
    } else if RelocateStep(w, s, s', t) {
      PathStaysApt(w, s, s', t);
    } else {
      FindStaysApt(w, s, s', t);
    }
  }

  lemma HelpStaysApt(w: World, s: State, s': State, t: nat)
    requires HasTable(w, s) && t in s.threads && HelpStep(w, s, s', t) && Apt(s) && Sane(s)
    ensures Apt(s')
  {
    HelpStepThreads(w, s, s', t);
    assert OpApt(s.threads[t].op) && HelpApt(s.threads[t].help);
    if s'.threads[t].help != s.threads[t].help {
      HelpComesFrom(w, s, s', t);
    }
    SameOp(w, s, s', t);
  }

  lemma SameOp(w: World, s: State, s': State, t: nat)
    requires HasTable(w, s) && t in s.threads && t in s'.threads && HelpStep(w, s, s', t)
    ensures s'.threads[t].op == s.threads[t].op
  {
    if HelpRead1(w, s, s', t) || HelpRead2(w, s, s', t) || HelpCheck(w, s, s', t) {
    } else if HelpMark(w, s, s', t) || HelpCopy(w, s, s', t) || HelpClear(w, s, s', t) {
    }
  }

  lemma NextStaysApt(w: World, run: seq<State>, i: nat)
    requires IsRun(w, run) && i + 1 < |run| && Apt(run[i])
    ensures Apt(run[i + 1])
  {
    RunSane(w, run, i);
    assert Next(w, run[i], run[i + 1]);
    var t :| Step(w, run[i], run[i + 1], t);
    if OpStep(w, run[i], run[i + 1], t) {
      OpStaysApt(w, run[i], run[i + 1], t);
    } else {
      HelpStaysApt(w, run[i], run[i + 1], t);
    }
  }

  lemma {:induction false} RunApt(w: World, run: seq<State>, i: nat)
    requires IsRun(w, run) && i < |run|
    ensures Apt(run[i])
    decreases i
  {
    if i > 0 {
      RunApt(w, run, i - 1);
      NextStaysApt(w, run, i - 1);
    }
  }

  // ----- the five changes -----

  predicate Stored(word: Word, word': Word) {
    word.ptr == NULL && word'.ptr != NULL && word' == Word(word.counter, word'.ptr, false)
  }

  predicate TakenOut(word: Word, word': Word) {
    word.ptr != NULL && !word.mark && word' == Word(word.counter, NULL, false)
  }

  predicate Marked(word: Word, word': Word) {
    word.ptr != NULL && !word.mark && word' == Word(word.counter, word.ptr, true)
  }

  predicate CopiedIn(word: Word, word': Word) {
    word.ptr == NULL && word'.ptr != NULL && !word'.mark && word'.counter > word.counter
  }

  predicate Cleared(word: Word, word': Word) {
    word.mark && word' == Word(word.counter + 1, NULL, false)
  }

  /** A step changes one slot at most, and in one of these ways. */
  ghost predicate OneChange(s: State, s': State, c: Cell) {
    && (forall d | d != c :: At(s', d) == At(s, d))
    && var word, word' := At(s, c), At(s', c);
       || word' == word || Stored(word, word') || TakenOut(word, word') || Marked(word, word')
       || CopiedIn(word, word') || Cleared(word, word')
  }

  lemma OpChanges(w: World, s: State, s': State, t: nat) returns (c: Cell)
    requires w.params.Valid() && HasTable(w, s) && t in s.threads && OpStep(w, s, s', t) && Apt(s) && Sane(s)
    ensures OneChange(s, s', c)
  {
    OpStepQuiet(w, s, s', t);
    var op := s.threads[t].op;
    assert OpApt(op);
    c := if op.InsertCas? then ScanCell(op.h1, op.h2, op.k)
         else if op.RemoveCas? then LocationCell(op.q, op.location) else Cell(0, 0);
    OpWrites(w, s, s', t, c);
  }

  lemma OpWrites(w: World, s: State, s': State, t: nat, c: Cell)
    requires HasTable(w, s) && t in s.threads && OpApt(s.threads[t].op)
    requires Quiet(s, s', t) || InsertSwap(w, s, s', t) || RemoveSwap(w, s, s', t)
    requires var op := s.threads[t].op;
             c == if op.InsertCas? then ScanCell(op.h1, op.h2, op.k)
                  else if op.RemoveCas? then LocationCell(op.q, op.location) else Cell(0, 0)
    ensures OneChange(s, s', c)
  {
  }

  lemma HelpChanges(w: World, s: State, s': State, t: nat) returns (c: Cell)
    requires HasTable(w, s) && t in s.threads && HelpStep(w, s, s', t) && Apt(s) && Sane(s)
    requires HelpOccupied(w, s, s', t) ==> s'.table == s.table
    ensures OneChange(s, s', c)
  {
    var h := s.threads[t].help;
    assert HelpApt(h);
    if HelpRead1(w, s, s', t) || HelpRead2(w, s, s', t) || HelpCheck(w, s, s', t) || HelpOccupied(w, s, s', t) {
      c := h.cell;
      NothingChanges(w, s, s', t, c);
    } else if HelpMark(w, s, s', t) || HelpClear(w, s, s', t) {
      c := h.cell;
    } else {
      c := w.other(h.cell, h.ptr1.ptr);
      OtherChanges(w, s, s', t, c);
    }
  }

  lemma NothingChanges(w: World, s: State, s': State, t: nat, c: Cell)
    requires HasTable(w, s) && t in s.threads
    requires HelpRead1(w, s, s', t) || HelpRead2(w, s, s', t) || HelpCheck(w, s, s', t) || s'.table == s.table
    ensures OneChange(s, s', c)
  {
  }

  lemma OtherChanges(w: World, s: State, s': State, t: nat, c: Cell)
    requires HasTable(w, s) && t in s.threads && HelpApt(s.threads[t].help)
    requires HelpCopy(w, s, s', t) || HelpSameEntry(w, s, s', t)
    requires c == w.other(s.threads[t].help.cell, s.threads[t].help.ptr1.ptr)
    ensures OneChange(s, s', c)
  {
  }

  /**
    In every run a step changes one slot at most: it stores an entry in an empty
    one or takes an unmarked one out, both at the same counter; marks an entry;
    copies one in at a larger counter; or clears a marked one, at the next counter.
   */
  lemma SlotLife(w: World, run: seq<State>, k: nat) returns (c: Cell)
    requires w.Ok() && IsRun(w, run) && k + 1 < |run|
    ensures OneChange(run[k], run[k + 1], c)
  {
    RunApt(w, run, k);
    RunSane(w, run, k);
    assert Next(w, run[k], run[k + 1]);
    var t :| Step(w, run[k], run[k + 1], t);
    if OpStep(w, run[k], run[k + 1], t) {
      c := OpChanges(w, run[k], run[k + 1], t);
    } else {
      if HelpOccupied(w, run[k], run[k + 1], t) {
        FallThroughWritesIff(w, run, k, t);
        OccupiedIsNotSame(w, run[k], run[k + 1], t);
      }
      c := HelpChanges(w, run[k], run[k + 1], t);
    }
  }

  lemma OccupiedIsNotSame(w: World, s: State, s': State, t: nat)
    requires HasTable(w, s) && t in s.threads && HelpOccupied(w, s, s', t)
    ensures !HelpSameEntry(w, s, s', t)
  {
  }
}
