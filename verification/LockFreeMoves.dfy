/** How inserted entries come into cells and leave them, over every run, and so when one is lost. */
module LockFreeMoves {
  import opened Words
  import opened LockFreeModel
  import opened LockFreeInvariant
  import opened LockFreeSteps
  import opened LockFreeWrites
  import opened LockFreeSafety
  import opened LockFreeTheorems

  // ----- how an entry comes into a cell -----

  lemma HelpArrivesByCopy(w: World, s: State, s': State, t: nat, p: nat, c: Cell)
    requires Inv(w, s) && HasTable(w, s) && t in s.threads && HelpStep(w, s, s', t)
    requires p != NULL && At(s, c).ptr != p && At(s', c).ptr == p
    ensures Copies(w, s, s', t)
    ensures s.threads[t].help.ptr1.ptr == p && w.other(s.threads[t].help.cell, p) == c
  {
    if HelpMark(w, s, s', t) || HelpClear(w, s, s', t) {
    } else if HelpSameEntry(w, s, s', t) || HelpOccupied(w, s, s', t) {
    }
  }

  /** An inserted entry comes into a cell only by a copy from its other one. */
  lemma ArrivesByCopy(w: World, s: State, s': State, t: nat, p: nat, c: Cell)
    requires Inv(w, s) && Step(w, s, s', t) && p in s.info
    requires At(s, c).ptr != p && At(s', c).ptr == p
    ensures Copies(w, s, s', t)
    ensures s.threads[t].help.ptr1.ptr == p && s.threads[t].help.cell == w.other(c, p)
  {
    assert ThreadOk(w, s, t) && EntryOk(w, s, p);
    if OpStep(w, s, s', t) {
      OpStepTable(w, s, s', t);
    } else {
      HelpArrivesByCopy(w, s, s', t, p, c);
      PlacesPair(w, s, p, s.threads[t].help.cell);
    }
  }

  /** What is in the two cells when a copy is made. */
  lemma CopyLands(w: World, run: seq<State>, k: nat, u: nat, c: Cell, word: Word)
    requires w.Ok() && IsRun(w, run) && CopiesAt(w, run, k, u, c, word)
    ensures var d := w.other(c, word.ptr);
            && d != c && w.other(d, word.ptr) == c
            && word.ptr in run[k].info && word.ptr != NULL
            && At(run[k], d).ptr == NULL && At(run[k + 1], d).ptr == word.ptr
            && At(run[k + 1], c) == At(run[k], c)
            && (At(run[k], c).ptr == word.ptr ==> At(run[k], c) == word)
            && (c, word) in run[k + 1].moved
  {
    RunInv(w, run, k);
    assert ThreadOk(w, run[k], u);
    PlacesPair(w, run[k], word.ptr, c);
  }

  /** Some thread copies `p` out of `c` at a step from `i` to before `j`. */
  ghost predicate CopiedFrom(w: World, run: seq<State>, i: nat, j: nat, p: nat, c: Cell) {
    exists k: nat, u: nat, word: Word :: i <= k < j && CopiesAt(w, run, k, u, c, word) && word.ptr == p
  }

  lemma {:induction false} ArrivedByCopy(w: World, run: seq<State>, i: nat, j: nat, p: nat, c: Cell)
    requires w.Ok() && IsRun(w, run) && i <= j < |run| && p in run[i].info
    requires At(run[i], c).ptr != p && At(run[j], c).ptr == p
    ensures CopiedFrom(w, run, i, j, p, w.other(c, p))
    decreases j
  {
    var m := j - 1;
    if At(run[m], c).ptr == p {
      ArrivedByCopy(w, run, i, m, p, c);
    } else {
      assert Next(w, run[m], run[m + 1]);
      var t :| Step(w, run[m], run[j], t);
      RunInv(w, run, m);
      RunGrows(w, run, i, m);
      ArrivesByCopy(w, run[m], run[j], t, p, c);
      assert CopiesAt(w, run, m, t, w.other(c, p), run[m].threads[t].help.ptr1);
    }
  }

  lemma ArrivedSince(w: World, run: seq<State>, i: nat, m: nat, j: nat, p: nat, c: Cell)
    requires w.Ok() && IsRun(w, run) && i <= m <= j < |run| && p in run[m].info
    requires At(run[m], c).ptr != p && At(run[j], c).ptr == p
    ensures CopiedFrom(w, run, i, j, p, w.other(c, p))
  {
    ArrivedByCopy(w, run, m, j, p, c);
    var k: nat, u: nat, word: Word :| m <= k < j && CopiesAt(w, run, k, u, w.other(c, p), word) && word.ptr == p;
    assert i <= k;
  }

  // ----- how it leaves one -----

  /** The swaps of the fall-through take no entry that has two cells. */
  lemma FallThroughKeepsEntry(w: World, s: State, s': State, t: nat, p: nat, c: Cell)
    requires Inv(w, s) && t in s.threads && (HelpSameEntry(w, s, s', t) || HelpOccupied(w, s, s', t))
    requires p in s.info && Splits(s, p) && At(s, c).ptr == p
    ensures At(s', c) == At(s, c)
  {
    assert ThreadOk(w, s, t);
    var h := s.threads[t].help;
    PlacesPair(w, s, h.ptr1.ptr, h.cell);
    if w.other(h.cell, h.ptr1.ptr) != h.cell || At(s, h.cell) != h.ptr1 {
      FallThroughFails(w, s, h.cell, h.ptr1);
    }
  }

  lemma HelpLeavesByClear(w: World, s: State, s': State, t: nat, p: nat, c: Cell)
    requires Inv(w, s) && t in s.threads && HelpStep(w, s, s', t)
    requires p in s.info && Splits(s, p) && At(s, c).ptr == p && At(s', c).ptr != p
    ensures HelpClear(w, s, s', t) && s.threads[t].help == Clear(c, At(s, c))
  {
    assert ThreadOk(w, s, t);
    if HelpSameEntry(w, s, s', t) || HelpOccupied(w, s, s', t) {
      FallThroughKeepsEntry(w, s, s', t, p, c);
    }
  }

  /** An entry with two cells that no remove takes leaves a cell only when a helper clears it, after the copy. */
  lemma LeavesByClear(w: World, s: State, s': State, t: nat, p: nat, c: Cell)
    requires Inv(w, s) && Step(w, s, s', t)
    requires p in s.info && Splits(s, p) && p !in s'.removed
    requires At(s, c).ptr == p && At(s', c).ptr != p
    ensures HelpClear(w, s, s', t) && s.threads[t].help == Clear(c, At(s, c)) && (c, At(s, c)) in s.moved
  {
    assert ThreadOk(w, s, t) && EntryOk(w, s, p);
    if OpStep(w, s, s', t) {
      OpStepQuiet(w, s, s', t);
    } else {
      HelpLeavesByClear(w, s, s', t, p, c);
    }
  }

  lemma StepMoves(w: World, s: State, s': State, t: nat)
    requires Step(w, s, s', t)
    ensures s'.moved == s.moved
         || (Copies(w, s, s', t) && s'.moved == s.moved + {(s.threads[t].help.cell, s.threads[t].help.ptr1)})
  {
    if OpStep(w, s, s', t) {
      OpStepQuiet(w, s, s', t);
    }
  }

  lemma {:induction false} MovedWasCopied(w: World, run: seq<State>, i: nat, j: nat, c: Cell, word: Word)
    returns (k: nat, u: nat)
    requires w.Ok() && IsRun(w, run) && i <= j < |run|
    requires (c, word) !in run[i].moved && (c, word) in run[j].moved
    ensures i <= k < j && CopiesAt(w, run, k, u, c, word)
    decreases j
  {
    var m := j - 1;
    if (c, word) in run[m].moved {
      k, u := MovedWasCopied(w, run, i, m, c, word);
    } else {
      assert Next(w, run[m], run[m + 1]);
      u :| Step(w, run[m], run[j], u);
      StepMoves(w, run[m], run[j], u);
      k := m;
    }
  }

  /** A word whose copy was made, and that is in its cell later, has been there since. */
  lemma HeldSince(w: World, run: seq<State>, m: nat, n: nat, c: Cell, word: Word)
    requires w.Ok() && IsRun(w, run) && m <= n < |run|
    requires (c, word) in run[m].moved && At(run[n], c) == word
    ensures At(run[m], c) == word
  {
    RunInv(w, run, m);
    RunGrows(w, run, m, n);
    assert MovedOk(w, run[m], c, word);
  }

  lemma {:induction false} LastIn(run: seq<State>, i: nat, j: nat, c: Cell, p: nat) returns (n: nat)
    requires i <= j < |run| && At(run[i], c).ptr == p && At(run[j], c).ptr != p
    ensures i <= n < j && At(run[n], c).ptr == p
    ensures forall m | n < m <= j :: At(run[m], c).ptr != p
    decreases j
  {
    n := j - 1;
    if At(run[n], c).ptr != p {
      n := LastIn(run, i, n, c, p);
    }
  }

  // ----- how an entry comes back -----

  /** A marked word stays marked while its entry stays in the cell. */
  predicate MarkStays(s: State, s': State, c: Cell) {
    At(s, c).mark && At(s, c).ptr == At(s', c).ptr != NULL ==> At(s', c).mark
  }

  lemma {:induction false} UnmarkedMeansLeft(run: seq<State>, i: nat, j: nat, c: Cell, p: nat) returns (m: nat)
    requires i <= j < |run| && p != NULL && forall k | 0 <= k < |run| - 1 :: MarkStays(run[k], run[k + 1], c)
    requires At(run[i], c).ptr == p && At(run[i], c).mark && At(run[j], c).ptr == p && !At(run[j], c).mark
    ensures i < m < j && At(run[m], c).ptr != p
    decreases j
  {
    m := j - 1;
    assert MarkStays(run[m], run[m + 1], c);
    if At(run[m], c).ptr == p {
      m := UnmarkedMeansLeft(run, i, m, c, p);
    }
  }

  lemma MarksStay(w: World, run: seq<State>, c: Cell)
    requires w.Ok() && IsRun(w, run)
    ensures forall k | 0 <= k < |run| - 1 :: MarkStays(run[k], run[k + 1], c)
  {
    forall k | 0 <= k < |run| - 1
      ensures MarkStays(run[k], run[k + 1], c)
    {
      assert Next(w, run[k], run[k + 1]);
      var t :| Step(w, run[k], run[k + 1], t);
      RunInv(w, run, k);
      StepInv(w, run[k], run[k + 1], t);
      assert CellGrows(run[k], run[k + 1], c);
    }
  }

  /** After a remove took `p`, a slot that holds it unmarked got it by a copy made since. */
  lemma BackWasCopied(w: World, run: seq<State>, k: nat, j: nat, t: nat, p: nat, c: Cell)
    requires w.Ok() && IsRun(w, run) && TakesAt(w, run, k, t, p) && k < j < |run| && w.Valid(c)
    requires At(run[j], c).ptr == p && !At(run[j], c).mark
    ensures CopiedFrom(w, run, k + 1, j, p, w.other(c, p))
  {
    TakenIsInfo(w, run, k, t, p);
    if At(run[k + 1], c).ptr != p {
      ArrivedByCopy(w, run, k + 1, j, p, c);
    } else {
      TakenLeaves(w, run, k, t, p, c);
      MarksStay(w, run, c);
      var m := UnmarkedMeansLeft(run, k + 1, j, c, p);
      RunGrows(w, run, k + 1, m);
      ArrivedSince(w, run, k + 1, m, j, p, c);
    }
  }

  lemma TakenIsInfo(w: World, run: seq<State>, k: nat, t: nat, p: nat)
    requires w.Ok() && IsRun(w, run) && TakesAt(w, run, k, t, p)
    ensures p != NULL && p in run[k + 1].info
  {
    RunInv(w, run, k);
    assert ThreadOk(w, run[k], t);
    RunGrows(w, run, k, k + 1);
  }

  lemma TakenFrom(w: World, run: seq<State>, j: nat, u: nat, p: nat) returns (c: Cell)
    requires w.Ok() && IsRun(w, run) && TakesAt(w, run, j, u, p)
    ensures w.Valid(c) && w.Valid(w.other(c, p)) && At(run[j], c).ptr == p && !At(run[j], c).mark
  {
    RunInv(w, run, j);
    assert ThreadOk(w, run[j], u);
    c := LocationCell(run[j].threads[u].op.q, run[j].threads[u].op.location);
    assert CellOk(run[j], c);
    PlacesPair(w, run[j], p, c);
  }

  /** So an entry is taken twice only if it is copied between the two takes. */
  lemma TakenAgainWasCopied(w: World, run: seq<State>, k: nat, j: nat, t: nat, u: nat, p: nat)
    requires w.Ok() && IsRun(w, run) && k < j && TakesAt(w, run, k, t, p) && TakesAt(w, run, j, u, p)
    ensures exists c :: w.Valid(c) && CopiedFrom(w, run, k + 1, j, p, c)
  {
    var c := TakenFrom(w, run, j, u, p);
    BackWasCopied(w, run, k, j, t, p, c);
  }

  // ----- when an entry is lost -----

  /** A fall-through swap empties the cell of `p`. */
  ghost predicate ErasesAt(w: World, run: seq<State>, k: nat, u: nat, p: nat) {
    && k + 1 < |run| && HasTable(w, run[k]) && u in run[k].threads && Step(w, run[k], run[k + 1], u)
    && HelpSameEntry(w, run[k], run[k + 1], u) && run[k + 1].table != run[k].table
    && run[k].threads[u].help.ptr1.ptr == p
  }

  ghost predicate ErasedBetween(w: World, run: seq<State>, i: nat, j: nat, p: nat) {
    exists k: nat, u: nat :: i <= k < j && ErasesAt(w, run, k, u, p)
  }

  /** An entry with one cell that no remove takes leaves it by such a swap only. */
  lemma LeavesByErasing(w: World, s: State, s': State, t: nat, p: nat, c: Cell)
    requires Inv(w, s) && Step(w, s, s', t)
    requires p in s.info && !Splits(s, p) && p !in s'.removed
    requires At(s, c).ptr == p && At(s', c).ptr != p
    ensures HelpSameEntry(w, s, s', t) && s'.table != s.table && s.threads[t].help.ptr1.ptr == p
  {
    assert ThreadOk(w, s, t) && EntryOk(w, s, p);
    if OpStep(w, s, s', t) {
      OpStepQuiet(w, s, s', t);
    } else {
      HelpLeavesByErasing(w, s, s', t, p, c);
    }
  }

  lemma HelpLeavesByErasing(w: World, s: State, s': State, t: nat, p: nat, c: Cell)
    requires Inv(w, s) && t in s.threads && HelpStep(w, s, s', t)
    requires p in s.info && !Splits(s, p) && At(s, c).ptr == p && At(s', c).ptr != p
    ensures HelpSameEntry(w, s, s', t) && s'.table != s.table && s.threads[t].help.ptr1.ptr == p
  {
    assert ThreadOk(w, s, t);
    var h := s.threads[t].help;
    if h.Clear? {
      assert MovedOk(w, s, h.cell, h.ptr1);
      PlacesPair(w, s, h.ptr1.ptr, h.cell);
    } else if h.SameEntry? || h.Occupied? {
      PlacesPair(w, s, h.ptr1.ptr, h.cell);
      if w.other(h.cell, h.ptr1.ptr) != h.cell || At(s, h.cell) != h.ptr1 {
        FallThroughFails(w, s, h.cell, h.ptr1);
      }
    }
  }

  /** With two cells, or with one and no such swap, an entry that no remove took is still there. */
  lemma {:induction false} KeptUnlessErased(w: World, run: seq<State>, i: nat, j: nat, p: nat)
    requires w.Ok() && IsRun(w, run) && i <= j < |run| && p in run[i].info && p !in run[j].removed
    requires At(run[i], Home(run[i], p)).ptr == p || At(run[i], Away(run[i], p)).ptr == p
    requires !ErasedBetween(w, run, i, j, p)
    ensures p in run[j].info && Home(run[j], p) == Home(run[i], p) && Away(run[j], p) == Away(run[i], p)
    ensures At(run[j], Home(run[j], p)).ptr == p || At(run[j], Away(run[j], p)).ptr == p
    decreases j
  {
    if i < j {
      var m := j - 1;
      RunGrows(w, run, m, j);
      NotErasedBefore(w, run, i, m, j, p);
      KeptUnlessErased(w, run, i, m, p);
      KeptNext(w, run, i, m, j, p);
    }
  }

  lemma NotErasedBefore(w: World, run: seq<State>, i: nat, m: nat, j: nat, p: nat)
    requires i <= m <= j && !ErasedBetween(w, run, i, j, p)
    ensures !ErasedBetween(w, run, i, m, p)
  {
  }

  lemma KeptNext(w: World, run: seq<State>, i: nat, m: nat, j: nat, p: nat)
    requires w.Ok() && IsRun(w, run) && i <= m && j == m + 1 < |run| && p in run[m].info && p !in run[j].removed
    requires At(run[m], Home(run[m], p)).ptr == p || At(run[m], Away(run[m], p)).ptr == p
    requires !ErasedBetween(w, run, i, j, p)
    ensures p in run[j].info && Home(run[j], p) == Home(run[m], p) && Away(run[j], p) == Away(run[m], p)
    ensures At(run[j], Home(run[j], p)).ptr == p || At(run[j], Away(run[j], p)).ptr == p
  {
    RunGrows(w, run, m, j);
    RunInv(w, run, m);
    RunInv(w, run, j);
    assert Next(w, run[m], run[m + 1]);
    var t :| Step(w, run[m], run[j], t);
    KeptOneStep(w, run[m], run[j], t, p);
    assert !ErasesAt(w, run, m, t, p);
  }

  lemma KeptOneStep(w: World, s: State, s': State, t: nat, p: nat)
    requires Inv(w, s) && Inv(w, s') && Step(w, s, s', t) && p in s.info && p in s'.info && s'.info[p] == s.info[p]
    requires p !in s'.removed
    requires At(s, Home(s, p)).ptr == p || At(s, Away(s, p)).ptr == p
    ensures || At(s', Home(s, p)).ptr == p || At(s', Away(s, p)).ptr == p
            || (HelpSameEntry(w, s, s', t) && s'.table != s.table && s.threads[t].help.ptr1.ptr == p)
  {
    assert NotLost(s', p);
    if !Splits(s, p) && At(s', Home(s, p)).ptr != p {
      LeavesByErasing(w, s, s', t, p, Home(s, p));
    }
  }

  /** Erased, it is in no cell, and never comes back. */
  lemma ErasedIsGone(w: World, run: seq<State>, k: nat, j: nat, u: nat, p: nat)
    requires w.Ok() && IsRun(w, run) && k < j < |run| && ErasesAt(w, run, k, u, p)
    ensures p in run[k].info && At(run[j], Home(run[k], p)).ptr != p && At(run[j], Away(run[k], p)).ptr != p
  {
    var s := run[k];
    RunInv(w, run, k);
    assert ThreadOk(w, s, u);
    var h := s.threads[u].help;
    PlacesPair(w, s, p, h.cell);
    FallThroughWritesIff(w, run, k, u);
    assert EntryOk(w, s, p);
    SplitsIff(w, s, p);
    assert Home(s, p) == Away(s, p) == h.cell && w.other(h.cell, p) == h.cell;
    RunGrows(w, run, k, k + 1);
    if At(run[j], h.cell).ptr == p {
      ArrivedByCopy(w, run, k + 1, j, p, h.cell);
      var m: nat, v: nat, word: Word :| k + 1 <= m < j && CopiesAt(w, run, m, v, h.cell, word) && word.ptr == p;
      CopyLands(w, run, m, v, h.cell, word);
    }
  }

  /**
    An inserted entry that no remove took is in one of its cells if and only if
    no fall-through swap erased it: whatever the keys, its own and the others'.
   */
  lemma LostIffErased(w: World, run: seq<State>, i: nat, j: nat, t: nat, p: nat, c: Cell)
    requires w.Ok() && IsRun(w, run) && i < j < |run|
    requires InsertsAt(w, run, i, t, p, c)
    requires forall k: nat, u: nat | i < k < j :: !TakesAt(w, run, k, u, p)
    ensures At(run[j], c).ptr != p && At(run[j], w.other(c, p)).ptr != p <==> ErasedBetween(w, run, i + 1, j, p)
  {
    InsertedIn(w, run, i, t, p, c);
    NotTakenSince(w, run, i + 1, j, p);
    RunGrows(w, run, i + 1, j);
    if ErasedBetween(w, run, i + 1, j, p) {
      var k: nat, u: nat :| i + 1 <= k < j && ErasesAt(w, run, k, u, p);
      ErasedIsGone(w, run, k, j, u, p);
      RunGrows(w, run, i + 1, k);
    } else {
      KeptUnlessErased(w, run, i + 1, j, p);
    }
  }

  lemma InsertedIn(w: World, run: seq<State>, i: nat, t: nat, p: nat, c: Cell)
    requires w.Ok() && IsRun(w, run) && InsertsAt(w, run, i, t, p, c)
    ensures p in run[i + 1].info && p !in run[i + 1].removed && At(run[i + 1], c).ptr == p
    ensures {c, w.other(c, p)} == {Home(run[i + 1], p), Away(run[i + 1], p)}
  {
    RunInv(w, run, i);
    assert ThreadOk(w, run[i], t);
  }
}
