/** What every run keeps for every size of the table, and wherever entries move to. */
module LockFreeCounters {
  import opened Words
  import opened LockFreeModel
  import opened LockFreeInvariant
  import opened LockFreeTheorems

  predicate WordSane(s: State, word: Word) {
    word.counter <= MAX_COUNTER && (word.mark ==> word.ptr != NULL) && (word.ptr != NULL ==> word.ptr in s.info)
  }

  predicate HelpSane(s: State, h: Help) {
    && (h.Mark? ==> h.ptr1.ptr != NULL)
    && (HasSource(h) ==> h.ptr1.ptr != NULL && h.ptr1.ptr in s.info)
  }

  predicate CellSane(s: State, c: Cell) {
    WordSane(s, At(s, c))
  }

  ghost predicate Sane(s: State) {
    (forall c :: CellSane(s, c)) && (forall t | t in s.threads :: HelpSane(s, s.threads[t].help))
  }

  predicate CellRises(s: State, s': State, c: Cell) {
    At(s, c).counter <= At(s', c).counter
  }

  /** One cell gets a sane word with no smaller counter. */
  ghost predicate Writes(s: State, s': State, c: Cell, word: Word) {
    s'.table == s.table[c := word] && WordSane(s', word) && At(s, c).counter <= word.counter
  }

  lemma WriteSane(s: State, s': State, c: Cell, word: Word)
    requires Sane(s) && s.info.Keys <= s'.info.Keys && (s'.table == s.table || Writes(s, s', c, word))
    ensures forall d :: CellSane(s', d) && CellRises(s, s', d)
  {
    forall d
      ensures CellSane(s', d) && CellRises(s, s', d)
    {
      assert CellSane(s, d);
      assert forall p | p in s.info :: p in s'.info.Keys;
    }
  }

  lemma OthersSane(s: State, s': State, t: nat)
    requires Sane(s) && s.info.Keys <= s'.info.Keys && t in s.threads && t in s'.threads
    requires s'.threads == s.threads[t := s'.threads[t]] && HelpSane(s', s'.threads[t].help)
    ensures forall u | u in s'.threads :: HelpSane(s', s'.threads[u].help)
  {
    forall u | u in s'.threads
      ensures HelpSane(s', s'.threads[u].help)
    {
      assert u != t ==> HelpSane(s, s.threads[u].help);
      assert forall p | p in s.info :: p in s'.info.Keys;
    }
  }

  lemma OpStepSane(w: World, s: State, s': State, t: nat)
    requires w.params.Valid() && HasTable(w, s) && t in s.threads && OpStep(w, s, s', t) && Sane(s)
    ensures Sane(s') && forall c :: CellRises(s, s', c)
  {
    OpStepQuiet(w, s, s', t);
    var op := s.threads[t].op;
    assert HelpSane(s, s.threads[t].help);
    var c := if op.InsertCas? then ScanCell(op.h1, op.h2, op.k)
             else if op.RemoveCas? then LocationCell(op.q, op.location) else Cell(0, 0);
    OpStepWrites(w, s, s', t, c);
    WriteSane(s, s', c, At(s', c));
    OthersSane(s, s', t);
  }

  lemma OpStepWrites(w: World, s: State, s': State, t: nat, c: Cell)
    requires HasTable(w, s) && t in s.threads && Sane(s)
    requires Quiet(s, s', t) || InsertSwap(w, s, s', t) || RemoveSwap(w, s, s', t)
    requires var op := s.threads[t].op;
             c == if op.InsertCas? then ScanCell(op.h1, op.h2, op.k)
                  else if op.RemoveCas? then LocationCell(op.q, op.location) else Cell(0, 0)
    ensures s.info.Keys <= s'.info.Keys && (s'.table == s.table || Writes(s, s', c, At(s', c)))
    ensures t in s'.threads && s'.threads == s.threads[t := s'.threads[t]] && HelpSane(s', s'.threads[t].help)
  {
    assert HelpSane(s, s.threads[t].help) && CellSane(s, c);
  }

  /** The cell a helper's swap is aimed at. */
  function Aim(w: World, h: Help): Cell
    requires !h.NoHelp?
  {
    if h.Copy? || h.SameEntry? || h.Occupied? then w.other(h.cell, h.ptr1.ptr) else h.cell
  }

  lemma HelpStepWrites(w: World, s: State, s': State, t: nat)
    requires HasTable(w, s) && t in s.threads && Sane(s) && HelpStep(w, s, s', t)
    ensures !s.threads[t].help.NoHelp? && s'.info == s.info
    ensures var c := Aim(w, s.threads[t].help); s'.table == s.table || Writes(s, s', c, At(s', c))
  {
    if HelpMark(w, s, s', t) || HelpCopy(w, s, s', t) || HelpClear(w, s, s', t) {
      MoveWrites(w, s, s', t);
    } else if HelpSameEntry(w, s, s', t) || HelpOccupied(w, s, s', t) {
      FallThroughWrites(w, s, s', t);
    }
  }

  lemma MoveWrites(w: World, s: State, s': State, t: nat)
    requires HasTable(w, s) && t in s.threads && Sane(s)
    requires HelpMark(w, s, s', t) || HelpCopy(w, s, s', t) || HelpClear(w, s, s', t)
    ensures !s.threads[t].help.NoHelp? && s'.info == s.info
    ensures var c := Aim(w, s.threads[t].help); s'.table == s.table || Writes(s, s', c, At(s', c))
  {
    var h := s.threads[t].help;
    assert HelpSane(s, h) && CellSane(s, Aim(w, h));
  }

  lemma FallThroughWrites(w: World, s: State, s': State, t: nat)
    requires HasTable(w, s) && t in s.threads && Sane(s)
    requires HelpSameEntry(w, s, s', t) || HelpOccupied(w, s, s', t)
    ensures !s.threads[t].help.NoHelp? && s'.info == s.info
    ensures var c := Aim(w, s.threads[t].help); s'.table == s.table || Writes(s, s', c, At(s', c))
  {
    var h := s.threads[t].help;
    assert HelpSane(s, h) && CellSane(s, Aim(w, h));
  }

  lemma HelpStepThreads(w: World, s: State, s': State, t: nat)
    requires HasTable(w, s) && t in s.threads && Sane(s) && HelpStep(w, s, s', t)
    ensures s'.info == s.info && t in s'.threads && s'.threads == s.threads[t := s'.threads[t]]
    ensures HelpSane(s', s'.threads[t].help)
  {
    if HelpRead1(w, s, s', t) || HelpRead2(w, s, s', t) || HelpCheck(w, s, s', t) {
      HelpReads(w, s, s', t);
    } else {
      HelpSwaps(w, s, s', t);
    }
  }

  lemma HelpReads(w: World, s: State, s': State, t: nat)
    requires HasTable(w, s) && t in s.threads && Sane(s)
    requires HelpRead1(w, s, s', t) || HelpRead2(w, s, s', t) || HelpCheck(w, s, s', t)
    ensures s'.info == s.info && t in s'.threads && s'.threads == s.threads[t := s'.threads[t]]
    ensures HelpSane(s', s'.threads[t].help)
  {
    var h := s.threads[t].help;
    assert HelpSane(s, h) && CellSane(s, h.cell);
  }

  lemma HelpSwaps(w: World, s: State, s': State, t: nat)
    requires HasTable(w, s) && t in s.threads && Sane(s)
    requires || HelpMark(w, s, s', t) || HelpCopy(w, s, s', t) || HelpClear(w, s, s', t)
             || HelpSameEntry(w, s, s', t) || HelpOccupied(w, s, s', t)
    ensures s'.info == s.info && t in s'.threads && s'.threads == s.threads[t := s'.threads[t]]
    ensures HelpSane(s', s'.threads[t].help)
  {
    assert HelpSane(s, s.threads[t].help);
    assert s.threads == s.threads[t := s.threads[t]];
  }

  lemma StepSane(w: World, s: State, s': State, t: nat)
    requires Step(w, s, s', t) && Sane(s)
    ensures Sane(s') && forall c :: CellRises(s, s', c)
  {
    if OpStep(w, s, s', t) {
      OpStepSane(w, s, s', t);
    } else {
      HelpStepWrites(w, s, s', t);
      HelpStepThreads(w, s, s', t);
      var c := Aim(w, s.threads[t].help);
      WriteSane(s, s', c, At(s', c));
      OthersSane(s, s', t);
    }
  }

  lemma {:induction false} RunSane(w: World, run: seq<State>, i: nat)
    requires IsRun(w, run) && i < |run|
    ensures Sane(run[i])
    decreases i
  {
    if i == 0 {
      forall c ensures CellSane(run[0], c) { assert At(run[0], c) == EMPTY; }
    } else {
      RunSane(w, run, i - 1);
      assert Next(w, run[i - 1], run[i - 1 + 1]);
      var t :| Step(w, run[i - 1], run[i], t);
      StepSane(w, run[i - 1], run[i], t);
    }
  }

  lemma NextRises(w: World, run: seq<State>, i: nat, c: Cell)
    requires IsRun(w, run) && i + 1 < |run|
    ensures CellRises(run[i], run[i + 1], c)
  {
    RunSane(w, run, i);
    assert Next(w, run[i], run[i + 1]);
    var t :| Step(w, run[i], run[i + 1], t);
    StepSane(w, run[i], run[i + 1], t);
  }

  lemma {:induction false} RisesAlong(run: seq<State>, i: nat, j: nat, c: Cell)
    requires i <= j < |run| && forall k | 0 <= k < |run| - 1 :: CellRises(run[k], run[k + 1], c)
    ensures CellRises(run[i], run[j], c)
    decreases j
  {
    if i < j {
      RisesAlong(run, i, j - 1, c);
      assert CellRises(run[j - 1], run[j - 1 + 1], c);
    }
  }

  lemma RunRises(w: World, run: seq<State>, i: nat, j: nat, c: Cell)
    requires IsRun(w, run) && i <= j < |run|
    ensures CellRises(run[i], run[j], c)
  {
    forall k | 0 <= k < |run| - 1
      ensures CellRises(run[k], run[k + 1], c)
    {
      NextRises(w, run, k, c);
    }
    RisesAlong(run, i, j, c);
  }

  // ----- the promises -----

  /** No slot's counter ever falls, and none passes 65535. */
  lemma CountersGrow(w: World, run: seq<State>, i: nat, j: nat, c: Cell)
    requires IsRun(w, run) && i <= j < |run|
    ensures At(run[i], c).counter <= At(run[j], c).counter <= 65535
  {
    RunRises(w, run, i, j, c);
    RunSane(w, run, j);
    assert CellSane(run[j], c);
  }

  /** A marked word is never null, and what a slot holds was inserted. */
  lemma MarkedNotNull(w: World, run: seq<State>, i: nat, c: Cell)
    requires IsRun(w, run) && i < |run|
    ensures At(run[i], c).mark ==> At(run[i], c).ptr != NULL
    ensures At(run[i], c).ptr != NULL ==> At(run[i], c).ptr in run[i].info
  {
    RunSane(w, run, i);
    assert CellSane(run[i], c);
  }

  /** A helper never looks up the fingerprint of a null or unknown entry. */
  lemma HelpersHoldEntries(w: World, run: seq<State>, i: nat, t: nat)
    requires IsRun(w, run) && i < |run| && t in run[i].threads
    requires HasSource(run[i].threads[t].help)
    ensures var p := run[i].threads[t].help.ptr1.ptr; p != NULL && p in run[i].info
  {
    RunSane(w, run, i);
    assert HelpSane(run[i], run[i].threads[t].help);
  }
}
