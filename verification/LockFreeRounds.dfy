/** The rounds of reads of a lock-free find, what they decide, and what finds and removes answer, for every size. */
module LockFreeRounds {
  import opened Words
  import opened LockFreeModel
  import opened LockFreeInvariant
  import opened LockFreeSafety
  import opened LockFreeTheorems
  import opened LockFreeCounters
  import opened LockFreeMoves
  import opened LockFreeFind
  import opened LockFreeAnswers

  // ----- the four reads of a round -----

  /** The word in the cell is not one that a find of this fingerprint stops at. */
  predicate Misses(w: World, s: State, c: Cell, fp: string) {
    At(s, c).ptr == NULL || (!At(s, c).mark && w.fingerprint(At(s, c).ptr) != fp)
  }

  predicate AtOp(s: State, t: nat, op: Op) {
    t in s.threads && s.threads[t].op == op
  }

  /** Thread t reads the lane's first cell, and goes on to the second. */
  predicate ReadsFirst(w: World, s: State, t: nat, q: Query, slot: nat, ts1: nat) {
    slot < 4 && AtOp(s, t, FindRead1(q, slot)) && Misses(w, s, Cell(q.h1, slot), q.fp)
    && At(s, Cell(q.h1, slot)).counter == ts1
  }

  predicate ReadsSecond(w: World, s: State, t: nat, q: Query, slot: nat, ts1: nat, ts2: nat) {
    t in s.threads && s.threads[t].op.FindRead2? && s.threads[t].op.q == q && s.threads[t].op.slot == slot
    && s.threads[t].op.ts1 == ts1 && Misses(w, s, Cell(q.h2, slot), q.fp)
    && At(s, Cell(q.h2, slot)).counter == ts2
  }

  predicate ReadsThird(s: State, t: nat, q: Query, slot: nat, ts1: nat, ts2: nat, ts1x: nat) {
    t in s.threads && s.threads[t].op.FindAgain1? && s.threads[t].op.q == q && s.threads[t].op.slot == slot
    && s.threads[t].op.ts1 == ts1 && s.threads[t].op.ts2 == ts2
    && At(s, Cell(q.h1, slot)).counter == ts1x
  }

  /** Where a find's next point comes from, and what was read there. */
  predicate ReadFrom(w: World, s: State, t: nat, op': Op) {
    match op'
    case FindRead2(q, slot, ts1, _) => ReadsFirst(w, s, t, q, slot, ts1)
    case FindAgain1(q, slot, ts1, ts2, _) => ReadsSecond(w, s, t, q, slot, ts1, ts2)
    case FindAgain2(q, slot, ts1, ts2, ts1x, _) => ReadsThird(s, t, q, slot, ts1, ts2, ts1x)
    case _ => true
  }

  lemma FindReadFrom(w: World, s: State, s': State, t: nat)
    requires w.params.Valid() && HasTable(w, s) && t in s.threads && t in s'.threads && OpStep(w, s, s', t)
    requires s'.threads[t].op != s.threads[t].op
    ensures ReadFrom(w, s, t, s'.threads[t].op)
  {
    if FindFirst(w, s, s', t) || FindSecond(w, s, s', t) {
      FirstReadFrom(w, s, s', t);
    } else if InsertStep(w, s, s', t) {
      InsertNoFind(w, s, s', t);
    } else if PathLook(w, s, s', t) {
      PathNoFind(w, s, s', t);
    } else if SourceLook(w, s, s', t) || DestLook(w, s, s', t) {
      BackNoFind(w, s, s', t);
    }
  }

  lemma FirstReadFrom(w: World, s: State, s': State, t: nat)
    requires HasTable(w, s) && t in s.threads && t in s'.threads && (FindFirst(w, s, s', t) || FindSecond(w, s, s', t))
    ensures ReadFrom(w, s, t, s'.threads[t].op)
  {
  }

  lemma ReadFromAt(w: World, run: seq<State>, m: nat, t: nat)
    requires Follows(w, run, t) && m + 1 < |run| && t in run[m + 1].threads
    ensures t in run[m].threads
    ensures run[m].threads[t].op != run[m + 1].threads[t].op ==> ReadFrom(w, run[m], t, run[m + 1].threads[t].op)
  {
    assert OwnStepped(w, run[m], run[m + 1], t);
    if run[m].threads[t].op != run[m + 1].threads[t].op {
      FindReadFrom(w, run[m], run[m + 1], t);
    }
  }

  /** The step that brought thread t to where it is at state j. */
  lemma {:induction false} CameAt(w: World, run: seq<State>, j: nat, t: nat) returns (m: nat)
    requires Follows(w, run, t) && j < |run| && t in run[j].threads && !run[j].threads[t].op.Idle?
    ensures m < j && t in run[m].threads && run[m].threads[t].op != run[j].threads[t].op && Waits(run, m + 1, j, t)
    ensures ReadFrom(w, run[m], t, run[j].threads[t].op)
    decreases j
  {
    NotAtStart(w, run, j, t);
    m := j - 1;
    ReadFromAt(w, run, m, t);
    if run[m].threads[t].op == run[j].threads[t].op {
      m := CameAt(w, run, j - 1, t);
      WaitsOn(run, m + 1, j - 1, t);
    }
  }

  lemma NotAtStart(w: World, run: seq<State>, j: nat, t: nat)
    requires Follows(w, run, t) && j < |run| && t in run[j].threads && !run[j].threads[t].op.Idle?
    ensures j > 0
  {
  }

  /** The reads before thread t's last read of a round: the first at i1, the second at i2, the third at i3. */
  ghost predicate Round(w: World, run: seq<State>, i1: nat, i2: nat, i3: nat, j: nat, t: nat, q: Query, slot: nat) {
    && i1 < i2 < i3 < j < |run|
    && ReadsFirst(w, run[i1], t, q, slot, At(run[i1], Cell(q.h1, slot)).counter)
    && ReadsSecond(w, run[i2], t, q, slot, At(run[i1], Cell(q.h1, slot)).counter, At(run[i2], Cell(q.h2, slot)).counter)
    && ReadsThird(run[i3], t, q, slot, At(run[i1], Cell(q.h1, slot)).counter, At(run[i2], Cell(q.h2, slot)).counter,
                  At(run[i3], Cell(q.h1, slot)).counter)
    && Waits(run, i1 + 1, i2, t) && Waits(run, i2 + 1, i3, t) && Waits(run, i3 + 1, j, t)
  }

  lemma RoundWas(w: World, run: seq<State>, j: nat, t: nat) returns (i1: nat, i2: nat, i3: nat)
    requires Follows(w, run, t) && j < |run| && t in run[j].threads && run[j].threads[t].op.FindAgain2?
    ensures var op := run[j].threads[t].op;
            && Round(w, run, i1, i2, i3, j, t, op.q, op.slot)
            && op.ts1 == At(run[i1], Cell(op.q.h1, op.slot)).counter
            && op.ts2 == At(run[i2], Cell(op.q.h2, op.slot)).counter
            && op.ts1x == At(run[i3], Cell(op.q.h1, op.slot)).counter
  {
    i3 := CameAt(w, run, j, t);
    i2 := CameAt(w, run, i3, t);
    i1 := CameAt(w, run, i2, t);
  }

  // ----- what the fourth read decides -----

  lemma AgainGoesOn(w: World, s: State, s': State, t: nat)
    requires w.params.Valid() && HasTable(w, s) && t in s.threads && t in s'.threads && OpStep(w, s, s', t)
    requires s.threads[t].op.FindAgain2? && s'.threads[t].op != s.threads[t].op
    ensures var op, op' := s.threads[t].op, s'.threads[t].op;
            var ts2x := At(s, Cell(op.q.h2, op.slot)).counter;
            && op'.FindRead1? && SameCall(op.q, op'.q) && op'.q.forRemove == op.q.forRemove
            && op'.slot == if op.ts1x >= op.ts1 + 2 && ts2x >= op.ts2 + 2 && ts2x >= op.ts1 + 3 then op.slot
                           else op.slot + 1
  {
  }

  /**
    A find goes on from a lane if and only if it is not so that, over its four
    reads, the first counter rose by two at least, the second by two at least,
    and the second came to three more than the first began with; else it reads
    the lane again.
   */
  lemma RoundDecides(w: World, run: seq<State>, j: nat, t: nat) returns (i1: nat, i2: nat, i3: nat)
    requires IsRun(w, run) && j + 1 < |run| && t in run[j].threads && t in run[j + 1].threads
    requires run[j].threads[t].op.FindAgain2? && run[j + 1].threads[t].op != run[j].threads[t].op
    ensures var q, slot, op' := run[j].threads[t].op.q, run[j].threads[t].op.slot, run[j + 1].threads[t].op;
            var c, d := Cell(q.h1, slot), Cell(q.h2, slot);
            && Round(w, run, i1, i2, i3, j, t, q, slot)
            && op'.FindRead1? && SameCall(q, op'.q) && op'.q.forRemove == q.forRemove
            && (op'.slot == slot || op'.slot == slot + 1)
            && (op'.slot == slot <==>
                  && At(run[i3], c).counter >= At(run[i1], c).counter + 2
                  && At(run[j], d).counter >= At(run[i2], d).counter + 2
                  && At(run[j], d).counter >= At(run[i1], c).counter + 3)
  {
    RunFollows(w, run, t);
    i1, i2, i3 := RoundWas(w, run, j, t);
    assert OwnStepped(w, run[j], run[j + 1], t);
    AgainGoesOn(w, run[j], run[j + 1], t);
  }

  // ----- an entry that comes, goes and comes again -----

  /** At step k some thread copies the word out of `c`. */
  ghost predicate Copied(w: World, run: seq<State>, k: nat, c: Cell, word: Word) {
    exists u: nat :: CopiesAt(w, run, k, u, c, word)
  }

  /** What a copy of an entry that no remove took does to the counters of its two cells. */
  lemma CopyCounts(w: World, run: seq<State>, k: nat, c: Cell, word: Word)
    requires w.Ok() && IsRun(w, run) && Copied(w, run, k, c, word)
    requires w.Movable(w.fingerprint(word.ptr)) && word.ptr !in run[k].removed
    ensures k + 1 < |run| && At(run[k], c) == word
    ensures var d := w.other(c, word.ptr);
            At(run[k + 1], d).counter > word.counter && At(run[k + 1], d).counter > At(run[k], d).counter
  {
    var u: nat :| CopiesAt(w, run, k, u, c, word);
    CopyLands(w, run, k, u, c, word);
    RunInv(w, run, k);
    assert ThreadOk(w, run[k], u);
    var s, p := run[k], word.ptr;
    assert EntryOk(w, s, p) && NotLost(s, p);
    SplitsIff(w, s, p);
    assert SeenMarked(s, c, word) && Places(s, p, c);
  }

  lemma NotYetRemoved(w: World, run: seq<State>, k: nat, j: nat, p: nat)
    requires w.Ok() && IsRun(w, run) && k <= j < |run| && p !in run[j].removed
    ensures p !in run[k].removed
  {
    RunGrows(w, run, k, j);
  }

  lemma CountersRise(w: World, run: seq<State>, i: nat, j: nat, c: Cell)
    requires IsRun(w, run) && i <= j < |run|
    ensures At(run[i], c).counter <= At(run[j], c).counter
  {
    CountersGrow(w, run, i, j, c);
  }

  /** Entry `p` is copied from `d` to `c` at k1, back at k2, and to `c` again, this time as `word`, at k3. */
  ghost predicate ThreeCopies(w: World, run: seq<State>, k1: nat, k2: nat, k3: nat, p: nat, c: Cell, d: Cell,
                              word: Word)
  {
    && k1 < k2 < k3 && word.ptr == p && w.other(c, p) == d && w.other(d, p) == c
    && (exists word1: Word :: word1.ptr == p && Copied(w, run, k1, d, word1))
    && (exists word2: Word :: word2.ptr == p && Copied(w, run, k2, c, word2))
    && Copied(w, run, k3, d, word)
  }

  /** A copy raises the counter where it goes, above what was there and above where it comes from. */
  lemma CopyRaises(w: World, run: seq<State>, k: nat, j: nat, p: nat, c: Cell, d: Cell)
    requires w.Ok() && IsRun(w, run) && w.Movable(w.fingerprint(p)) && w.other(c, p) == d
    requires exists word: Word :: word.ptr == p && Copied(w, run, k, c, word)
    requires k < j < |run| && p !in run[j].removed
    ensures At(run[j], d).counter > At(run[k], c).counter && At(run[j], d).counter > At(run[k], d).counter
  {
    var word: Word :| word.ptr == p && Copied(w, run, k, c, word);
    NotYetRemoved(w, run, k, j, p);
    CopyCounts(w, run, k, c, word);
    CountersRise(w, run, k + 1, j, d);
  }

  lemma CopiesRaise(w: World, run: seq<State>, k1: nat, m: nat, k2: nat, k3: nat, j: nat, p: nat, c: Cell, d: Cell,
                    word: Word)
    requires w.Ok() && IsRun(w, run) && ThreeCopies(w, run, k1, k2, k3, p, c, d, word) && k1 < m < k2
    requires w.Movable(w.fingerprint(p)) && k3 < j < |run| && p !in run[j].removed
    ensures word.counter >= At(run[k1], c).counter + 2 && word.counter >= At(run[m], d).counter + 1
    ensures At(run[j], c).counter >= At(run[k1], c).counter + 3
  {
    NotYetRemoved(w, run, k3, j, p);
    NotYetRemoved(w, run, k2, j, p);
    CopyRaises(w, run, k1, k2, p, d, c);
    CopyRaises(w, run, k2, k3, p, c, d);
    CopyRaises(w, run, k3, j, p, d, c);
    CopyCounts(w, run, k3, d, word);
    CountersRise(w, run, m, k2, d);
  }

  /** The cells of the lane a find is at. */
  function CellOf(op: Op, second: bool): Cell
    requires op.FindAgain2?
  {
    Cell(if second then op.q.h2 else op.q.h1, op.slot)
  }

  /** An entry came into the lane's first cell before the second read, went back, and came again before the third. */
  ghost predicate CameTwice(w: World, run: seq<State>, i1: nat, k1: nat, i2: nat, k2: nat, k3: nat, i3: nat, j: nat,
                            t: nat, p: nat, word: Word)
    requires j < |run| && t in run[j].threads && run[j].threads[t].op.FindAgain2?
  {
    var op := run[j].threads[t].op;
    && Round(w, run, i1, i2, i3, j, t, op.q, op.slot)
    && i1 <= k1 < i2 < k2 < k3 < i3
    && w.params.Valid() && w.Movable(w.fingerprint(p)) && p !in run[j].removed
    && ThreeCopies(w, run, k1, k2, k3, p, CellOf(op, false), CellOf(op, true), word)
  }

  lemma CameTwiceCounts(w: World, run: seq<State>, i1: nat, k1: nat, i2: nat, k2: nat, k3: nat, i3: nat, j: nat,
                        t: nat, p: nat, word: Word)
    requires w.Ok() && IsRun(w, run) && j < |run| && t in run[j].threads && run[j].threads[t].op.FindAgain2?
    requires CameTwice(w, run, i1, k1, i2, k2, k3, i3, j, t, p, word)
    ensures var c, d := CellOf(run[j].threads[t].op, false), CellOf(run[j].threads[t].op, true);
            && At(run[i3], c).counter >= At(run[i1], c).counter + 3
            && word.counter >= At(run[i1], c).counter + 2 && word.counter >= At(run[i2], d).counter + 1
            && (At(run[j], d) == word || At(run[j], d).counter > word.counter)
  {
    var c, d := CellOf(run[j].threads[t].op, false), CellOf(run[j].threads[t].op, true);
    NotYetRemoved(w, run, i3, j, p);
    CopiesRaise(w, run, k1, i2, k2, k3, i3, p, c, d, word);
    CountersRise(w, run, i1, k1, c);
    var u: nat :| CopiesAt(w, run, k3, u, d, word);
    SourceRaised(w, run, k3, j, u, d, word);
  }

  /**
    Such a find passes the lane exactly when at its last read the second cell
    still holds the word copied last, at too small a counter. Once that cell is
    cleared, it reads the lane again.
   */
  lemma PassedIfNotCleared(w: World, run: seq<State>, i1: nat, k1: nat, i2: nat, k2: nat, k3: nat, i3: nat, j: nat,
                           t: nat, p: nat, word: Word)
    requires w.Ok() && IsRun(w, run) && j + 1 < |run| && t in run[j].threads && t in run[j + 1].threads
    requires run[j].threads[t].op.FindAgain2? && run[j + 1].threads[t].op != run[j].threads[t].op
    requires CameTwice(w, run, i1, k1, i2, k2, k3, i3, j, t, p, word)
    ensures var op, op' := run[j].threads[t].op, run[j + 1].threads[t].op;
            var c, d := CellOf(op, false), CellOf(op, true);
            && op'.FindRead1? && (op'.slot == op.slot || op'.slot == op.slot + 1)
            && (op'.slot == op.slot + 1 <==>
                  && At(run[j], d) == word
                  && (word.counter < At(run[i2], d).counter + 2 || word.counter < At(run[i1], c).counter + 3))
  {
    CameTwiceCounts(w, run, i1, k1, i2, k2, k3, i3, j, t, p, word);
    RoundIs(w, run, i1, i2, i3, j, t);
  }

  /** What the reads of a round decide, whichever these are. */
  lemma RoundIs(w: World, run: seq<State>, i1: nat, i2: nat, i3: nat, j: nat, t: nat)
    requires IsRun(w, run) && j + 1 < |run| && t in run[j].threads && t in run[j + 1].threads
    requires run[j].threads[t].op.FindAgain2? && run[j + 1].threads[t].op != run[j].threads[t].op
    requires Round(w, run, i1, i2, i3, j, t, run[j].threads[t].op.q, run[j].threads[t].op.slot)
    ensures var op, op' := run[j].threads[t].op, run[j + 1].threads[t].op;
            var c, d := CellOf(op, false), CellOf(op, true);
            && op'.FindRead1? && (op'.slot == op.slot || op'.slot == op.slot + 1)
            && (op'.slot == op.slot <==>
                  && At(run[i3], c).counter >= At(run[i1], c).counter + 2
                  && At(run[j], d).counter >= At(run[i2], d).counter + 2
                  && At(run[j], d).counter >= At(run[i1], c).counter + 3)
  {
    var m1, m2, m3 := RoundDecides(w, run, j, t);
    var q, slot := run[j].threads[t].op.q, run[j].threads[t].op.slot;
    OneWait(run, i3, m3, j, t);
    OneWait(run, i2, m2, i3, t);
    OneWait(run, i1, m1, i2, t);
  }

  /** The step that brought a thread to its point is one. */
  lemma OneWait(run: seq<State>, m: nat, n: nat, j: nat, t: nat)
    requires m < j && n < j && Waits(run, m + 1, j, t) && Waits(run, n + 1, j, t)
    requires t in run[m].threads ==> run[m].threads[t].op != run[j].threads[t].op
    requires t in run[n].threads ==> run[n].threads[t].op != run[j].threads[t].op
    ensures m == n
  {
  }

  // ----- what a find and a remove answer -----

  predicate Searching(op: Op) {
    Finding(op) || op.RemoveCas?
  }

  /** A find reads, in one of its key's cells, an unmarked entry of the fingerprint; the location is that cell's. */
  predicate Hits(w: World, s: State, op: Op, location: nat) {
    && ((op.FindRead1? && location == op.slot < 4) || (op.FindRead2? && location == op.slot + 4 < 8))
    && var c := Cell(if op.FindRead1? then op.q.h1 else op.q.h2, op.slot);
       At(s, c).ptr != NULL && !At(s, c).mark && w.fingerprint(At(s, c).ptr) == op.q.fp
  }

  /** How a search ends, or what a remove's search finds. */
  ghost predicate SearchEnds(w: World, s: State, s': State, t: nat)
    requires t in s.threads && t in s'.threads && Searching(s.threads[t].op)
  {
    var op, op' := s.threads[t].op, s'.threads[t].op;
    if op.RemoveCas? then
      || (op' == Idle(1) && Takes(w, s, s', t))
      || (op'.FindRead1? && !Takes(w, s, s', t) && op'.slot == 0 && op'.q.start == Present(s)
          && op'.q == op.q.(start := op'.q.start, steady := true))
    else if op'.Idle? then
      || (op.FindRead1? && op.slot >= 4 && op' == Idle(if op.q.forRemove then 0 else 8))
      || (!op.q.forRemove && Hits(w, s, op, op'.result))
    else
      Searching(op') && SameSearch(op.q, op'.q) && (op'.RemoveCas? ==> op.q.forRemove && Hits(w, s, op, op'.location))
  }

  /** The same fingerprint, in the same buckets, for the same purpose. */
  predicate SameSearch(q: Query, r: Query) {
    q.fp == r.fp && q.h1 == r.h1 && q.h2 == r.h2 && q.forRemove == r.forRemove
  }

  lemma SearchGoesOn(w: World, s: State, s': State, t: nat)
    requires w.params.Valid() && HasTable(w, s) && t in s.threads && t in s'.threads && OpStep(w, s, s', t)
    requires Searching(s.threads[t].op) && s'.threads[t].op != s.threads[t].op
    ensures SearchEnds(w, s, s', t)
  {
    if FindFirst(w, s, s', t) {
      FirstGoesOn(w, s, s', t);
    } else if FindSecond(w, s, s', t) {
      SecondGoesOn(w, s, s', t);
    } else if RemoveSwap(w, s, s', t) {
      RemoveGoesOn(w, s, s', t);
    }
  }

  lemma FirstGoesOn(w: World, s: State, s': State, t: nat)
    requires HasTable(w, s) && t in s.threads && t in s'.threads && FindFirst(w, s, s', t)
    requires s'.threads[t].op != s.threads[t].op
    ensures SearchEnds(w, s, s', t)
  {
  }

  lemma SecondGoesOn(w: World, s: State, s': State, t: nat)
    requires HasTable(w, s) && t in s.threads && t in s'.threads && FindSecond(w, s, s', t)
    requires s'.threads[t].op != s.threads[t].op
    ensures SearchEnds(w, s, s', t)
  {
  }

  lemma RemoveGoesOn(w: World, s: State, s': State, t: nat)
    requires HasTable(w, s) && t in s.threads && t in s'.threads && RemoveSwap(w, s, s', t)
    ensures SearchEnds(w, s, s', t)
  {
  }

  lemma SearchGoesOnAt(w: World, run: seq<State>, j: nat, t: nat)
    requires IsRun(w, run) && j + 1 < |run| && t in run[j].threads && t in run[j + 1].threads
    requires Searching(run[j].threads[t].op) && run[j + 1].threads[t].op != run[j].threads[t].op
    ensures SearchEnds(w, run[j], run[j + 1], t)
  {
    RunFollows(w, run, t);
    assert OwnStepped(w, run[j], run[j + 1], t);
    SearchGoesOn(w, run[j], run[j + 1], t);
  }

  /** The search at step m passed this lane: its fourth read decided so. */
  ghost predicate PassedAt(run: seq<State>, m: nat, t: nat, q: Query, lane: nat) {
    && m + 1 < |run| && t in run[m].threads && t in run[m + 1].threads
    && run[m].threads[t].op.FindAgain2? && run[m].threads[t].op.slot == lane && SameCall(run[m].threads[t].op.q, q)
    && run[m + 1].threads[t].op.FindRead1? && run[m + 1].threads[t].op.slot == lane + 1
  }

  /** From state m to state j thread t is in one search. */
  predicate InSearch(run: seq<State>, m: nat, j: nat, t: nat, q: Query) {
    j < |run| && forall k | m <= k <= j ::
      t in run[k].threads && Finding(run[k].threads[t].op) && SameCall(run[k].threads[t].op.q, q)
  }

  /** Where a search beyond a lane was one step earlier. */
  lemma BeyondFrom(w: World, run: seq<State>, k: nat, t: nat, lane: nat)
    requires Follows(w, run, t) && k + 1 < |run| && t in run[k + 1].threads
    requires Finding(run[k + 1].threads[t].op) && run[k + 1].threads[t].op.slot > lane
    ensures t in run[k].threads && Finding(run[k].threads[t].op)
    ensures SameCall(run[k].threads[t].op.q, run[k + 1].threads[t].op.q)
    ensures run[k].threads[t].op.slot > lane || PassedAt(run, k, t, run[k + 1].threads[t].op.q, lane)
  {
    assert OwnStepped(w, run[k], run[k + 1], t);
    if run[k].threads[t].op != run[k + 1].threads[t].op {
      FindComesFrom(w, run[k], run[k + 1], t);
    }
  }

  ghost predicate LanePassed(run: seq<State>, j: nat, t: nat, q: Query, lane: nat) {
    exists m: nat :: m < j && PassedAt(run, m, t, q, lane) && InSearch(run, m, j, t, q)
  }

  lemma PassedStays(run: seq<State>, j: nat, t: nat, q: Query, r: Query, lane: nat)
    requires LanePassed(run, j, t, q, lane) && j + 1 < |run| && t in run[j + 1].threads
    requires Finding(run[j + 1].threads[t].op) && run[j + 1].threads[t].op.q == r && SameCall(q, r)
    ensures LanePassed(run, j + 1, t, r, lane)
  {
    var m: nat :| m < j && PassedAt(run, m, t, q, lane) && InSearch(run, m, j, t, q);
    assert InSearch(run, m, j + 1, t, r);
    assert PassedAt(run, m, t, r, lane);
  }

  lemma PassedHere(run: seq<State>, m: nat, t: nat, q: Query, lane: nat)
    requires PassedAt(run, m, t, q, lane) && SameCall(run[m + 1].threads[t].op.q, q)
    ensures LanePassed(run, m + 1, t, q, lane)
  {
    assert InSearch(run, m, m + 1, t, q);
  }

  /** A search beyond a lane has passed it. */
  lemma {:induction false} BeyondPassed(w: World, run: seq<State>, j: nat, t: nat, lane: nat)
    requires Follows(w, run, t) && j < |run| && t in run[j].threads
    requires Finding(run[j].threads[t].op) && run[j].threads[t].op.slot > lane
    ensures LanePassed(run, j, t, run[j].threads[t].op.q, lane)
    decreases j
  {
    NotAtStart(w, run, j, t);
    var m := j - 1;
    BeyondFrom(w, run, m, t, lane);
    if run[m].threads[t].op.slot > lane {
      BeyondPassed(w, run, m, t, lane);
      PassedStays(run, m, t, run[m].threads[t].op.q, run[j].threads[t].op.q, lane);
    } else {
      PassedHere(run, m, t, run[j].threads[t].op.q, lane);
    }
  }

  /** The search has passed the four lanes of its key, since it began or its last swap lost. */
  ghost predicate SearchedAll(run: seq<State>, j: nat, t: nat, q: Query) {
    forall lane: nat | lane < 4 :: LanePassed(run, j, t, q, lane)
  }

  lemma EndsBeyond(w: World, run: seq<State>, j: nat, t: nat)
    requires IsRun(w, run) && j < |run| && t in run[j].threads
    requires run[j].threads[t].op.FindRead1? && run[j].threads[t].op.slot >= 4
    ensures SearchedAll(run, j, t, run[j].threads[t].op.q)
  {
    RunFollows(w, run, t);
    forall lane: nat | lane < 4
      ensures LanePassed(run, j, t, run[j].threads[t].op.q, lane)
    {
      BeyondPassed(w, run, j, t, lane);
    }
  }

  /** A remove answers true exactly with its own successful swap, and false exactly beyond the four lanes. */
  lemma RemoveAnswers(w: World, run: seq<State>, j: nat, t: nat)
    requires IsRun(w, run) && j + 1 < |run| && t in run[j].threads && t in run[j + 1].threads
    requires run[j].threads[t].op.RemoveCas? || (Finding(run[j].threads[t].op) && run[j].threads[t].op.q.forRemove)
    requires run[j + 1].threads[t].op.Idle?
    ensures run[j + 1].threads[t].op == Idle(1) || run[j + 1].threads[t].op == Idle(0)
    ensures run[j + 1].threads[t].op == Idle(1) <==> Takes(w, run[j], run[j + 1], t)
    ensures run[j + 1].threads[t].op == Idle(0) ==>
              run[j].threads[t].op.FindRead1? && SearchedAll(run, j, t, run[j].threads[t].op.q)
  {
    SearchGoesOnAt(w, run, j, t);
    if run[j].threads[t].op.FindRead1? && run[j].threads[t].op.slot >= 4 {
      EndsBeyond(w, run, j, t);
    }
  }

  /** A remove's swap that another thread was ahead of leaves the call under way: it searches again from the start. */
  lemma LostSwapSearchesOn(w: World, run: seq<State>, j: nat, t: nat)
    requires IsRun(w, run) && j + 1 < |run| && t in run[j].threads && t in run[j + 1].threads
    requires run[j].threads[t].op.RemoveCas? && run[j + 1].threads[t].op != run[j].threads[t].op
    requires !Takes(w, run[j], run[j + 1], t)
    ensures run[j + 1].threads[t].op.FindRead1? && run[j + 1].threads[t].op.slot == 0
    ensures SameSearch(run[j].threads[t].op.q, run[j + 1].threads[t].op.q)
    ensures run[j + 1].threads[t].op.q.start == Present(run[j])
  {
    SearchGoesOnAt(w, run, j, t);
  }

  /** A find that has just answered `r`. */
  ghost predicate FindAnswered(w: World, run: seq<State>, j: nat, t: nat, op: Op, r: nat)
    requires j < |run| && Finding(op)
  {
    && r <= 8
    && (r < 8 ==> Hits(w, run[j], op, r))
    && (r == 8 ==> op.FindRead1? && SearchedAll(run, j, t, op.q))
  }

  lemma FindAnswered8(w: World, run: seq<State>, j: nat, t: nat)
    requires IsRun(w, run) && j + 1 < |run| && t in run[j].threads
    requires run[j].threads[t].op.FindRead1? && run[j].threads[t].op.slot >= 4
    ensures FindAnswered(w, run, j, t, run[j].threads[t].op, 8)
  {
    EndsBeyond(w, run, j, t);
  }

  /** A find answers with the location of an unmarked entry it just read there, or with 8 beyond the four lanes. */
  lemma FindAnswers(w: World, run: seq<State>, j: nat, t: nat)
    requires IsRun(w, run) && j + 1 < |run| && t in run[j].threads && t in run[j + 1].threads
    requires Finding(run[j].threads[t].op) && !run[j].threads[t].op.q.forRemove && run[j + 1].threads[t].op.Idle?
    ensures FindAnswered(w, run, j, t, run[j].threads[t].op, run[j + 1].threads[t].op.result)
  {
    SearchGoesOnAt(w, run, j, t);
    FindEnds(w, run[j], run[j + 1], t);
    if run[j].threads[t].op.FindRead1? && run[j].threads[t].op.slot >= 4 {
      FindAnswered8(w, run, j, t);
    }
  }

  lemma FindEnds(w: World, s: State, s': State, t: nat)
    requires t in s.threads && t in s'.threads && Finding(s.threads[t].op) && !s.threads[t].op.q.forRemove
    requires s'.threads[t].op.Idle? && SearchEnds(w, s, s', t)
    ensures var op, r := s.threads[t].op, s'.threads[t].op.result;
            if op.FindRead1? && op.slot >= 4 then r == 8 else r < 8 && Hits(w, s, op, r)
  {
  }

  // ----- what is done about a mark -----

  /** The cell an operation is about to read. */
  function Reading(op: Op): Cell
    requires op.FindRead1? || op.FindRead2? || (op.Discover? && op.walk.turn < |op.walk.order|)
             || (op.Back? && op.walk.turn < |op.walk.order| && op.top < |op.walk.route|)
  {
    match op
    case FindRead1(q, slot) => Cell(q.h1, slot)
    case FindRead2(q, slot, _, _) => Cell(q.h2, slot)
    case Discover(_, _, _, walk, _) => Cell(walk.bucket, walk.order[walk.turn])
    case _ => SourceCell(op)
  }

  /** It is about to read a marked entry; a loop back that has helped once reads on. */
  predicate MeetsMark(s: State, op: Op) {
    && ((op.FindRead1? && op.slot < 4) || op.FindRead2? || (op.Discover? && op.walk.turn < |op.walk.order|)
        || (op.Back? && !op.again && op.walk.turn < |op.walk.order| && op.top < |op.walk.route|))
    && At(s, Reading(op)).mark && At(s, Reading(op)).ptr != NULL
  }

  /** An operation that meets a mark helps that slot, and reads its lane, or its path, again from there. */
  lemma MarkIsHelped(w: World, s: State, s': State, t: nat)
    requires w.params.Valid() && HasTable(w, s) && t in s.threads && t in s'.threads && OpStep(w, s, s', t)
    requires MeetsMark(s, s.threads[t].op)
    ensures s'.threads[t].help == Read1(Reading(s.threads[t].op), false) && s'.table == s.table
    ensures var op, op' := s.threads[t].op, s'.threads[t].op;
            || op' == op
            || (op.FindRead2? && op' == FindRead1(op.q, op.slot))
            || (op.Back? && op' == op.(again := true))
  {
  }
}
