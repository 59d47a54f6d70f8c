/** What it means, over every run, that a lock-free find passes an entry that is there. */
module LockFreeFind {
  import opened Words
  import opened LockFreeModel
  import opened LockFreeInvariant
  import opened LockFreeOps
  import opened LockFreeSafety
  import opened LockFreeTheorems
  import opened LockFreeMoves

  // ----- a find between its two reads of a slot -----

  /** Thread t reads the first cell of the slot at step i, and goes on to the second. */
  ghost predicate FirstReadAt(w: World, run: seq<State>, i: nat, t: nat, q: Query, slot: nat) {
    && i + 1 < |run| && HasTable(w, run[i]) && t in run[i].threads && t in run[i + 1].threads
    && run[i].threads[t].op == FindRead1(q, slot) && FindFirst(w, run[i], run[i + 1], t)
    && run[i + 1].threads[t].op.FindRead2?
  }

  /** ... and at state j it is about to read that. */
  ghost predicate Between(w: World, run: seq<State>, i: nat, j: nat, t: nat, q: Query, slot: nat) {
    && i < j < |run| && FirstReadAt(w, run, i, t, q, slot)
    && t in run[j].threads && run[j].threads[t].op == run[i + 1].threads[t].op
  }

  /** ... and it finds nothing there either. */
  ghost predicate Passes(w: World, run: seq<State>, i: nat, j: nat, t: nat, q: Query, slot: nat) {
    && Between(w, run, i, j, t, q, slot)
    && j + 1 < |run| && HasTable(w, run[j]) && t in run[j + 1].threads
    && FindSecond(w, run[j], run[j + 1], t) && run[j + 1].threads[t].op.FindAgain1?
  }

  /** At step m thread v's swap empties `c`, which still holds the word it copied. */
  ghost predicate ClearsAt(w: World, run: seq<State>, m: nat, v: nat, c: Cell, word: Word) {
    && m + 1 < |run| && HasTable(w, run[m]) && v in run[m].threads && run[m].threads[v].help == Clear(c, word)
    && HelpClear(w, run[m], run[m + 1], v) && !run[m + 1].aborted && At(run[m], c) == word
  }

  ghost predicate ClearedBetween(w: World, run: seq<State>, k: nat, j: nat, c: Cell, word: Word) {
    exists m: nat, v: nat :: k < m < j && ClearsAt(w, run, m, v, c, word)
  }

  /** The copy of `p` out of `c` at step k is followed by the clearing of `c`, and by no copy back. */
  ghost predicate MoveAt(w: World, run: seq<State>, k: nat, j: nat, p: nat, c: Cell, u: nat, word: Word) {
    && k < j < |run| && CopiesAt(w, run, k, u, c, word) && word.ptr == p
    && ClearedBetween(w, run, k, j, c, word)
    && !CopiedFrom(w, run, k + 1, j, p, w.other(c, p))
  }

  /** `p` moved out of `c`, into its other cell, between the states i and j. */
  ghost predicate MovedAway(w: World, run: seq<State>, i: nat, j: nat, p: nat, c: Cell) {
    exists k: nat, u: nat, word: Word :: i < k && MoveAt(w, run, k, j, p, c, u, word)
  }

  lemma NotAtFirst(w: World, run: seq<State>, i: nat, t: nat, q: Query, slot: nat, p: nat)
    requires w.Ok() && IsRun(w, run) && FirstReadAt(w, run, i, t, q, slot)
    requires OfClass(w, run[i], q, slot, p)
    ensures slot < SLOTS && At(run[i], Cell(q.h1, slot)).ptr != p
    ensures Quiet(run[i], run[i + 1], t)
  {
    RunInv(w, run, i);
    assert EntryOk(w, run[i], p);
    FindQuiet(w, run[i], run[i + 1], t);
  }

  lemma InfoLater(w: World, run: seq<State>, i: nat, j: nat, q: Query, slot: nat, p: nat)
    requires w.Ok() && IsRun(w, run) && i <= j < |run| && OfClass(w, run[i], q, slot, p) && w.Movable(q.fp)
    ensures Matches(w, run[j], q, slot, p)
  {
    RunGrows(w, run, i, j);
    RunInv(w, run, j);
    OfClassMatches(w, run[j], q, slot, p);
  }

  lemma QueryAtRead(w: World, run: seq<State>, i: nat, t: nat, q: Query, slot: nat)
    requires w.Ok() && IsRun(w, run) && FirstReadAt(w, run, i, t, q, slot)
    ensures forall j | i <= j < |run| :: Inv(w, run[j]) && QueryOk(w, run[j], q)
  {
    RunInv(w, run, i);
    assert ThreadOk(w, run[i], t);
    forall j | i <= j < |run|
      ensures Inv(w, run[j]) && QueryOk(w, run[j], q)
    {
      RunInv(w, run, j);
      RunGrows(w, run, i, j);
    }
  }

  /** Not in the second cell at the second read: it moved out of it, and was not moved back. */
  lemma MissedMoved(w: World, run: seq<State>, i: nat, j: nat, t: nat, q: Query, slot: nat, p: nat)
    requires w.Ok() && IsRun(w, run) && Between(w, run, i, j, t, q, slot)
    requires OfClass(w, run[i], q, slot, p) && w.Movable(q.fp) && p !in run[j].removed
    requires At(run[j], Cell(q.h2, slot)).ptr != p
    ensures MovedAway(w, run, i, j, p, Cell(q.h2, slot))
  {
    var c := Cell(q.h2, slot);
    AtSecond(w, run, i, j, t, q, slot, p);
    var n := LastIn(run, i, j, c, p);
    var word := At(run[n], c);
    InfoLater(w, run, i, n, q, slot, p);
    var v := ClearedAfterCopy(w, run, n, j, p, c, q, slot);
    assert (c, word) !in run[i + 1].moved by {
      CopyCameLater(w, run, i, n, q, slot, p, word);
    }
    assert i < n;
    var k, u := MovedWasCopied(w, run, i + 1, n, c, word);
    NoCopyBack(w, run, k, n, j, p, c, u, word);
    assert ClearsAt(w, run, n, v, c, word);
    assert MoveAt(w, run, k, j, p, c, u, word);
  }

  /** At the first read the entry is in the second cell. */
  lemma AtSecond(w: World, run: seq<State>, i: nat, j: nat, t: nat, q: Query, slot: nat, p: nat)
    requires w.Ok() && IsRun(w, run) && Between(w, run, i, j, t, q, slot)
    requires OfClass(w, run[i], q, slot, p) && w.Movable(q.fp) && p !in run[j].removed
    ensures At(run[i], Cell(q.h2, slot)).ptr == p && At(run[i], Cell(q.h1, slot)).ptr != p
    ensures Inv(w, run[i]) && QueryOk(w, run[i], q) && Matches(w, run[i], q, slot, p) && p !in run[i].removed
    ensures run[i + 1].moved == run[i].moved
  {
    NotAtFirst(w, run, i, t, q, slot, p);
    QueryAtRead(w, run, i, t, q, slot);
    InfoLater(w, run, i, i, q, slot, p);
    RunGrows(w, run, i, j);
    MatchIsNear(w, run[i], q, slot, p);
  }

  lemma ClearedAfterCopy(w: World, run: seq<State>, n: nat, j: nat, p: nat, c: Cell, q: Query, slot: nat)
    returns (v: nat)
    requires w.Ok() && IsRun(w, run) && n < j < |run| && Matches(w, run[n], q, slot, p) && p !in run[j].removed
    requires At(run[n], c).ptr == p && At(run[n + 1], c).ptr != p
    ensures ClearsAt(w, run, n, v, c, At(run[n], c)) && (c, At(run[n], c)) in run[n].moved
  {
    assert Next(w, run[n], run[n + 1]);
    v :| Step(w, run[n], run[n + 1], v);
    RunInv(w, run, n);
    RunGrows(w, run, n + 1, j);
    LeavesByClear(w, run[n], run[n + 1], v, p, c);
  }

  /** While `p` was not in the first cell, the copy of its word in the second had not been made. */
  lemma CopyCameLater(w: World, run: seq<State>, i: nat, n: nat, q: Query, slot: nat, p: nat, word: Word)
    requires w.Ok() && IsRun(w, run) && i <= n < |run| && n + 1 < |run|
    requires Inv(w, run[i]) && QueryOk(w, run[i], q) && Matches(w, run[i], q, slot, p) && p !in run[i].removed
    requires word.ptr == p && At(run[n], Cell(q.h2, slot)) == word && At(run[i], Cell(q.h1, slot)).ptr != p
    requires run[i + 1].moved == run[i].moved
    ensures (Cell(q.h2, slot), word) !in run[i + 1].moved
  {
    var c := Cell(q.h2, slot);
    assert w.other(c, p) == Cell(q.h1, slot);
    if (c, word) in run[i].moved {
      HeldSince(w, run, i, n, c, word);
    }
  }

  lemma WordStays(w: World, run: seq<State>, k: nat, n: nat, c: Cell, u: nat, word: Word)
    requires w.Ok() && IsRun(w, run) && n < |run| && CopiesAt(w, run, k, u, c, word) && At(run[n], c) == word
    ensures word.ptr != NULL && forall m | k < m <= n :: At(run[m], c) == word
  {
    CopyLands(w, run, k, u, c, word);
    forall m | k < m <= n
      ensures At(run[m], c) == word
    {
      RunGrows(w, run, k + 1, m);
      HeldSince(w, run, m, n, c, word);
    }
  }

  lemma LandsBack(w: World, run: seq<State>, k: nat, m: nat, c: Cell, u: nat, word: Word, v: nat, back: Word)
    requires w.Ok() && IsRun(w, run) && CopiesAt(w, run, k, u, c, word)
    requires CopiesAt(w, run, m, v, w.other(c, word.ptr), back) && back.ptr == word.ptr
    ensures At(run[m], c).ptr == NULL && At(run[m + 1], c).ptr == word.ptr
  {
    CopyLands(w, run, k, u, c, word);
    CopyLands(w, run, m, v, w.other(c, word.ptr), back);
  }

  lemma NoCopyBack(w: World, run: seq<State>, k: nat, n: nat, j: nat, p: nat, c: Cell, u: nat, word: Word)
    requires w.Ok() && IsRun(w, run) && k < n < j < |run|
    requires CopiesAt(w, run, k, u, c, word) && word.ptr == p && At(run[n], c) == word
    requires forall m | n < m <= j :: At(run[m], c).ptr != p
    ensures !CopiedFrom(w, run, k + 1, j, p, w.other(c, p))
  {
    WordStays(w, run, k, n, c, u, word);
    if CopiedFrom(w, run, k + 1, j, p, w.other(c, p)) {
      var m: nat, v: nat, back: Word :|
        k + 1 <= m < j && CopiesAt(w, run, m, v, w.other(c, p), back) && back.ptr == p;
      LandsBack(w, run, k, m, c, u, word, v, back);
    }
  }

  lemma ClearEmpties(w: World, run: seq<State>, m: nat, v: nat, c: Cell, word: Word)
    requires ClearsAt(w, run, m, v, c, word)
    ensures At(run[m + 1], c).ptr == NULL
  {
  }

  lemma ClearedEmpty(w: World, run: seq<State>, k: nat, j: nat, c: Cell, word: Word) returns (m: nat)
    requires ClearedBetween(w, run, k, j, c, word) && j < |run|
    ensures k < m <= j && At(run[m], c).ptr == NULL
  {
    var n: nat, v: nat :| k < n < j && ClearsAt(w, run, n, v, c, word);
    ClearEmpties(w, run, n, v, c, word);
    m := n + 1;
  }

  lemma CopiedIsInfo(w: World, run: seq<State>, k: nat, c: Cell, u: nat, word: Word)
    requires w.Ok() && IsRun(w, run) && CopiesAt(w, run, k, u, c, word)
    ensures word.ptr != NULL && word.ptr in run[k + 1].info
  {
    CopyLands(w, run, k, u, c, word);
    RunGrows(w, run, k, k + 1);
  }

  lemma EmptyAfterMove(w: World, run: seq<State>, k: nat, j: nat, p: nat, c: Cell, u: nat, word: Word)
    returns (m: nat)
    requires w.Ok() && IsRun(w, run) && MoveAt(w, run, k, j, p, c, u, word)
    ensures k < m <= j && At(run[m], c).ptr == NULL && p != NULL && p in run[k + 1].info
  {
    CopiedIsInfo(w, run, k, c, u, word);
    m := ClearedEmpty(w, run, k, j, c, word);
  }

  /** Out of a cell that is empty at state m, and not copied back. */
  lemma StaysOut(w: World, run: seq<State>, k: nat, m: nat, j: nat, p: nat, c: Cell)
    requires w.Ok() && IsRun(w, run) && k <= m <= j < |run| && p in run[k].info && p != NULL
    requires At(run[m], c).ptr == NULL && !CopiedFrom(w, run, k, j, p, w.other(c, p))
    ensures At(run[j], c).ptr != p
  {
    if At(run[j], c).ptr == p {
      RunGrows(w, run, k, m);
      ArrivedSince(w, run, k, m, j, p, c);
    }
  }

  lemma MoveEnds(w: World, run: seq<State>, k: nat, j: nat, p: nat, c: Cell, u: nat, word: Word)
    requires w.Ok() && IsRun(w, run) && MoveAt(w, run, k, j, p, c, u, word)
    ensures At(run[j], c).ptr != p
  {
    var m := EmptyAfterMove(w, run, k, j, p, c, u, word);
    StaysOut(w, run, k + 1, m, j, p, c);
  }

  /** Moved out of the second cell before the second read, and not back: it is not read there. */
  lemma MovedMissed(w: World, run: seq<State>, i: nat, j: nat, p: nat, c: Cell)
    requires w.Ok() && IsRun(w, run) && i < j < |run| && MovedAway(w, run, i, j, p, c)
    ensures At(run[j], c).ptr != p
  {
    var k: nat, u: nat, word: Word :| i < k && MoveAt(w, run, k, j, p, c, u, word);
    MoveEnds(w, run, k, j, p, c, u, word);
  }

  /**
    Between its two reads of a slot, a find that has not seen an entry of its
    class in the first cell does not see it in the second either, if and only
    if the entry moved from the second to the first in between: some helper
    copied it, some helper cleared the source, and none copied it back.
   */
  lemma MissedIffMoved(w: World, run: seq<State>, i: nat, j: nat, t: nat, q: Query, slot: nat, p: nat)
    requires w.Ok() && IsRun(w, run) && Between(w, run, i, j, t, q, slot)
    requires OfClass(w, run[i], q, slot, p) && w.Movable(q.fp) && p !in run[j].removed
    ensures At(run[j], Cell(q.h2, slot)).ptr != p <==> MovedAway(w, run, i, j, p, Cell(q.h2, slot))
  {
    if At(run[j], Cell(q.h2, slot)).ptr != p {
      MissedMoved(w, run, i, j, t, q, slot, p);
    } else if MovedAway(w, run, i, j, p, Cell(q.h2, slot)) {
      MovedMissed(w, run, i, j, p, Cell(q.h2, slot));
    }
  }

  /** So a find that passes a slot with the entry never removed has had it move into the first cell. */
  lemma MissedEntryMoved(w: World, run: seq<State>, i: nat, j: nat, t: nat, q: Query, slot: nat, p: nat)
    requires w.Ok() && IsRun(w, run) && Passes(w, run, i, j, t, q, slot)
    requires OfClass(w, run[i], q, slot, p) && w.Movable(q.fp) && p !in run[j].removed
    ensures MovedAway(w, run, i, j, p, Cell(q.h2, slot))
  {
    InfoLater(w, run, i, j, q, slot, p);
    RunInv(w, run, j);
    MissedMoved(w, run, i, j, t, q, slot, p);
  }

  // ----- a whole find -----

  predicate Finding(op: Op) {
    op.FindRead1? || op.FindRead2? || op.FindAgain1? || op.FindAgain2?
  }

  /** The same call of find, its own history of steady slots aside. */
  predicate SameCall(q: Query, r: Query) {
    q.fp == r.fp && q.h1 == r.h1 && q.h2 == r.h2 && q.start == r.start
  }

  /** A thread's operation goes on by its own steps only. */
  lemma OwnStep(w: World, s: State, s': State, u: nat, t: nat)
    requires Step(w, s, s', u) && t in s'.threads
    ensures t in s.threads
    ensures s'.threads[t].op != s.threads[t].op ==> u == t && OpStep(w, s, s', t)
  {
    if OpStep(w, s, s', u) {
      OpStepHelp(w, s, s', u);
    }
  }

  /** Where a find's points come from. */
  ghost predicate ComesFrom(w: World, s: State, s': State, t: nat)
    requires HasTable(w, s) && t in s.threads && t in s'.threads
  {
    var op, op' := s.threads[t].op, s'.threads[t].op;
    && (op'.FindRead2? ==> FindFirst(w, s, s', t) && op == FindRead1(op'.q, op'.slot))
    && (op'.FindAgain1? ==> FindSecond(w, s, s', t) && op.FindRead2? && op.q == op'.q && op.slot == op'.slot)
    && (op'.FindAgain2? ==> op.FindAgain1? && op.q == op'.q && op.slot == op'.slot)
    && (op'.FindRead1? && op'.slot > 0 ==>
          && (op.FindRead2? || op.FindAgain2?) && SameCall(op.q, op'.q)
          && (op'.slot == op.slot || (op.FindAgain2? && op'.slot == op.slot + 1)))
  }

  lemma FindComesFrom(w: World, s: State, s': State, t: nat)
    requires w.params.Valid() && HasTable(w, s) && t in s.threads && t in s'.threads && OpStep(w, s, s', t)
    requires s'.threads[t].op != s.threads[t].op
    ensures ComesFrom(w, s, s', t)
  {
    if InsertStep(w, s, s', t) {
      InsertNoFind(w, s, s', t);
    } else if PathLook(w, s, s', t) {
      PathNoFind(w, s, s', t);
    } else if SourceLook(w, s, s', t) || DestLook(w, s, s', t) {
      BackNoFind(w, s, s', t);
    }
  }

  lemma InsertNoFind(w: World, s: State, s': State, t: nat)
    requires w.params.Valid() && HasTable(w, s) && t in s.threads && t in s'.threads && InsertStep(w, s, s', t)
    ensures !Finding(s'.threads[t].op)
  {
  }

  lemma PathNoFind(w: World, s: State, s': State, t: nat)
    requires HasTable(w, s) && t in s.threads && t in s'.threads && PathLook(w, s, s', t)
    ensures !Finding(s'.threads[t].op)
  {
  }

  lemma BackNoFind(w: World, s: State, s': State, t: nat)
    requires HasTable(w, s) && t in s.threads && t in s'.threads && (SourceLook(w, s, s', t) || DestLook(w, s, s', t))
    ensures !Finding(s'.threads[t].op)
  {
  }

  ghost predicate SecondReadAt(w: World, run: seq<State>, j: nat, t: nat, q: Query, slot: nat) {
    && j + 1 < |run| && HasTable(w, run[j]) && t in run[j].threads && t in run[j + 1].threads
    && run[j].threads[t].op.FindRead2? && run[j].threads[t].op.q == q && run[j].threads[t].op.slot == slot
    && FindSecond(w, run[j], run[j + 1], t) && run[j + 1].threads[t].op.FindAgain1?
  }

  /** How a find goes on from its point `op` to its next one. */
  predicate GoesOn(op: Op, op': Op) {
    && (op'.FindAgain2? ==> op.FindAgain1? && op.q == op'.q && op.slot == op'.slot)
    && (op'.FindRead1? && op'.slot > 0 ==>
          && (op.FindRead2? || op.FindAgain2?) && SameCall(op.q, op'.q)
          && (op'.slot == op.slot || (op.FindAgain2? && op'.slot == op.slot + 1)))
  }

  /** A step leaves a thread's operation alone, or it is one of its own. */
  lemma OneOn(w: World, run: seq<State>, m: nat, t: nat)
    requires w.Ok() && IsRun(w, run) && m + 1 < |run| && t in run[m + 1].threads
    ensures t in run[m].threads
    ensures var op, op' := run[m].threads[t].op, run[m + 1].threads[t].op;
            op' != op ==>
              && (op'.FindRead2? ==> FirstReadAt(w, run, m, t, op'.q, op'.slot))
              && (op'.FindAgain1? ==> SecondReadAt(w, run, m, t, op'.q, op'.slot))
              && GoesOn(op, op')
  {
    assert Next(w, run[m], run[m + 1]);
    var u :| Step(w, run[m], run[m + 1], u);
    OwnStep(w, run[m], run[m + 1], u, t);
    if run[m + 1].threads[t].op != run[m].threads[t].op {
      FindComesFrom(w, run[m], run[m + 1], t);
    }
  }

  lemma NotFindingYet(w: World, run: seq<State>, t: nat)
    requires IsRun(w, run) && t in run[0].threads
    ensures !Finding(run[0].threads[t].op)
  {
  }

  lemma {:induction false} FirstReadWas(w: World, run: seq<State>, j: nat, t: nat) returns (i: nat)
    requires w.Ok() && IsRun(w, run) && j < |run| && t in run[j].threads && run[j].threads[t].op.FindRead2?
    ensures Between(w, run, i, j, t, run[j].threads[t].op.q, run[j].threads[t].op.slot)
    decreases j
  {
    if j == 0 {
      NotFindingYet(w, run, t);
    } else {
      i := j - 1;
      OneOn(w, run, i, t);
      if run[i].threads[t].op == run[j].threads[t].op {
        i := FirstReadWas(w, run, i, t);
      }
    }
  }

  lemma {:induction false} PassWas(w: World, run: seq<State>, j: nat, t: nat) returns (i: nat, m: nat)
    requires w.Ok() && IsRun(w, run) && j < |run| && t in run[j].threads
    requires run[j].threads[t].op.FindAgain1? || run[j].threads[t].op.FindAgain2?
    ensures m < j && Passes(w, run, i, m, t, run[j].threads[t].op.q, run[j].threads[t].op.slot)
    decreases j
  {
    if j == 0 {
      NotFindingYet(w, run, t);
    } else {
      m := j - 1;
      OneOn(w, run, m, t);
      if run[m].threads[t].op.FindRead2? {
        i := FirstReadWas(w, run, m, t);
      } else {
        i, m := PassWas(w, run, m, t);
      }
    }
  }

  /** A find beyond a lane was beyond it one step earlier, or has just passed it. */
  lemma WasBeyond(w: World, run: seq<State>, k: nat, t: nat, lane: nat)
    requires w.Ok() && IsRun(w, run) && k + 1 < |run| && t in run[k + 1].threads
    requires Finding(run[k + 1].threads[t].op) && run[k + 1].threads[t].op.slot > lane
    ensures t in run[k].threads && Finding(run[k].threads[t].op)
    ensures SameCall(run[k].threads[t].op.q, run[k + 1].threads[t].op.q)
    ensures var op := run[k].threads[t].op; op.slot > lane || (op.slot == lane && op.FindAgain2?)
  {
    OneOn(w, run, k, t);
  }

  /** A find that has come beyond a lane has passed it. */
  lemma {:induction false} PassedLane(w: World, run: seq<State>, j: nat, t: nat, lane: nat)
    returns (i: nat, m: nat, q: Query)
    requires w.Ok() && IsRun(w, run) && j < |run| && t in run[j].threads
    requires Finding(run[j].threads[t].op) && run[j].threads[t].op.slot > lane
    ensures m < j && Passes(w, run, i, m, t, q, lane) && SameCall(q, run[j].threads[t].op.q)
    decreases j
  {
    if j == 0 {
      NotFindingYet(w, run, t);
    } else {
      var k := j - 1;
      WasBeyond(w, run, k, t, lane);
      q := run[k].threads[t].op.q;
      if run[k].threads[t].op.slot > lane {
        i, m, q := PassedLane(w, run, k, t, lane);
      } else {
        i, m := PassWas(w, run, k, t);
      }
    }
  }

  /**
    A find that is about to report a miss, while an entry of its key's class
    that was there when it began is still not removed, passed the entry's lane
    while the entry moved from the second cell into the first.
   */
  lemma FalseMissMoved(w: World, run: seq<State>, e: nat, t: nat, lane: nat, p: nat) returns (i: nat, j: nat, q: Query)
    requires w.Ok() && IsRun(w, run) && e < |run|
    requires t in run[e].threads && run[e].threads[t].op.FindRead1? && run[e].threads[t].op.slot == SLOTS
    requires var r := run[e].threads[t].op.q;
             p in r.start && p !in run[e].removed && lane < SLOTS && OfClass(w, run[e], r, lane, p) && w.Movable(r.fp)
    ensures j < e && SameCall(q, run[e].threads[t].op.q) && Passes(w, run, i, j, t, q, lane)
    ensures MovedAway(w, run, i, j, p, Cell(q.h2, lane))
  {
    i, j, q := PassedLane(w, run, e, t, lane);
    RunInv(w, run, i);
    assert ThreadOk(w, run[i], t);
    assert p in run[i].info.Keys;
    RunGrows(w, run, i, e);
    RunGrows(w, run, j, e);
    MissedEntryMoved(w, run, i, j, t, q, lane, p);
  }
}
