/** How a call of `help_relocate` comes to its end, and when one stops the program, in every run and for every size. */
module LockFreeHelp {
  import opened Words
  import opened LockFreeModel
  import opened LockFreeInvariant
  import opened LockFreeWrites
  import opened LockFreeTheorems
  import opened LockFreeCounters

  // ----- a thread's own help -----

  /** A step after which t's help is where it was, or that was t's own: of its operation, or of the help itself. */
  ghost predicate HelpStepped(w: World, s: State, s': State, t: nat) {
    t in s'.threads ==>
      && HasTable(w, s) && t in s.threads && !s.aborted
      && (s'.threads[t].help != s.threads[t].help ==>
            || (s.threads[t].help.NoHelp? && s'.threads[t].help.Read1?)
            || HelpStep(w, s, s', t))
  }

  ghost predicate HelpFollows(w: World, run: seq<State>, t: nat) {
    && |run| > 0 && (t in run[0].threads ==> run[0].threads[t].help.NoHelp?)
    && forall m | 0 <= m < |run| - 1 :: HelpStepped(w, run[m], run[m + 1], t)
  }

  lemma StepHelpStepped(w: World, s: State, s': State, u: nat, t: nat)
    requires Step(w, s, s', u)
    ensures HelpStepped(w, s, s', t)
  {
    if OpStep(w, s, s', u) {
      OpStepHelp(w, s, s', u);
      if u == t {
        OpStepNoHelp(w, s, s', t);
      }
    } else {
      HelpStepOthers(w, s, s', u);
    }
  }

  /** Operations go on only while their thread does not help. */
  lemma OpStepNoHelp(w: World, s: State, s': State, t: nat)
    requires w.params.Valid() && HasTable(w, s) && t in s.threads && OpStep(w, s, s', t)
    ensures s.threads[t].help.NoHelp?
  {
    if InsertStep(w, s, s', t) {
    } else if RelocateStep(w, s, s', t) {
    }
  }

  lemma HelpStepOthers(w: World, s: State, s': State, u: nat)
    requires HasTable(w, s) && u in s.threads && HelpStep(w, s, s', u)
    ensures s'.threads.Keys == s.threads.Keys && forall t | t in s.threads && t != u :: s'.threads[t] == s.threads[t]
  {
    if HelpRead1(w, s, s', u) || HelpRead2(w, s, s', u) || HelpCheck(w, s, s', u) {
    } else if HelpMark(w, s, s', u) || HelpCopy(w, s, s', u) || HelpClear(w, s, s', u) {
    }
  }

  lemma RunHelpFollows(w: World, run: seq<State>, t: nat)
    requires IsRun(w, run)
    ensures HelpFollows(w, run, t)
  {
    forall m | 0 <= m < |run| - 1
      ensures HelpStepped(w, run[m], run[m + 1], t)
    {
      assert Next(w, run[m], run[m + 1]);
      var u :| Step(w, run[m], run[m + 1], u);
      StepHelpStepped(w, run[m], run[m + 1], u, t);
    }
  }

  // ----- where a helper's points come from -----

  predicate SameCell(h: Help, h': Help) {
    !h.NoHelp? && !h'.NoHelp? && h.cell == h'.cell
  }

  /** How a helper comes to its next point; the last clause is how it ends. */
  ghost predicate HelpFrom(w: World, s: State, s': State, t: nat, h: Help, h': Help) {
    match h'
    case Read1(c, initiator) =>
      || (SameCell(h, h') && initiator && h.Mark?)
      || (h.Check? && c == h.cell && initiator == h.initiator && At(s, c) != h.ptr1)
    case Mark(c, ptr1) => h == Read1(c, true) && ptr1 == At(s, c) && ptr1.ptr != NULL && !ptr1.mark
    case Read2(c, initiator, ptr1) => h == Read1(c, initiator) && ptr1 == At(s, c) && ptr1.mark
    case Check(c, initiator, ptr1, ptr2) =>
      h == Read2(c, initiator, ptr1) && ptr2 == At(s, w.other(c, ptr1.ptr)) && ptr2.ptr == NULL
    case Copy(c, ptr1, ptr2) => h.Check? && h == Check(c, h.initiator, ptr1, ptr2) && At(s, c) == ptr1
    case Clear(c, ptr1) =>
      && h.Copy? && h == Copy(c, ptr1, h.ptr2) && Copies(w, s, s', t) && At(s, w.other(c, ptr1.ptr)) == h.ptr2
      && At(s', w.other(c, ptr1.ptr)) == Word(Max(ptr1.counter, h.ptr2.counter) + 1, ptr1.ptr, false)
    case SameEntry(c, ptr1) =>
      h.Read2? && h == Read2(c, h.initiator, ptr1) && At(s, w.other(c, ptr1.ptr)).ptr == ptr1.ptr
    case Occupied(c, ptr1) =>
      || (&& h.Read2? && h == Read2(c, h.initiator, ptr1)
          && At(s, w.other(c, ptr1.ptr)).ptr != NULL && At(s, w.other(c, ptr1.ptr)).ptr != ptr1.ptr)
      || (h.Copy? && h == Copy(c, ptr1, h.ptr2) && At(s, w.other(c, ptr1.ptr)) != h.ptr2)
    case NoHelp =>
      || (h.Read1? && !At(s, h.cell).mark && (h.initiator ==> At(s, h.cell).ptr == NULL))
      || (h.Clear? && At(s', h.cell) != h.ptr1)
      || h.SameEntry? || h.Occupied?
  }

  lemma HelpComesFrom(w: World, s: State, s': State, t: nat)
    requires HasTable(w, s) && t in s.threads && t in s'.threads && HelpStep(w, s, s', t)
    requires s'.threads[t].help != s.threads[t].help
    ensures HelpFrom(w, s, s', t, s.threads[t].help, s'.threads[t].help)
  {
    if HelpRead1(w, s, s', t) || HelpRead2(w, s, s', t) || HelpCheck(w, s, s', t) {
      ReadsComeFrom(w, s, s', t);
    } else {
      SwapsComeFrom(w, s, s', t);
    }
  }

  lemma ReadsComeFrom(w: World, s: State, s': State, t: nat)
    requires HasTable(w, s) && t in s.threads && t in s'.threads && s'.threads[t].help != s.threads[t].help
    requires HelpRead1(w, s, s', t) || HelpRead2(w, s, s', t) || HelpCheck(w, s, s', t)
    ensures HelpFrom(w, s, s', t, s.threads[t].help, s'.threads[t].help)
  {
  }

  lemma SwapsComeFrom(w: World, s: State, s': State, t: nat)
    requires HasTable(w, s) && t in s.threads && t in s'.threads && s'.threads[t].help != s.threads[t].help
    requires || HelpMark(w, s, s', t) || HelpCopy(w, s, s', t) || HelpClear(w, s, s', t)
             || HelpSameEntry(w, s, s', t) || HelpOccupied(w, s, s', t)
    ensures HelpFrom(w, s, s', t, s.threads[t].help, s'.threads[t].help)
  {
  }

  lemma HelpFromAt(w: World, run: seq<State>, m: nat, t: nat)
    requires HelpFollows(w, run, t) && m + 1 < |run| && t in run[m + 1].threads
    requires t in run[m].threads ==> run[m].threads[t].help != run[m + 1].threads[t].help
    ensures t in run[m].threads
    ensures || HelpFrom(w, run[m], run[m + 1], t, run[m].threads[t].help, run[m + 1].threads[t].help)
            || (run[m].threads[t].help.NoHelp? && run[m + 1].threads[t].help.Read1?)
  {
    assert HelpStepped(w, run[m], run[m + 1], t);
    if HelpStep(w, run[m], run[m + 1], t) {
      HelpComesFrom(w, run[m], run[m + 1], t);
    }
  }

  /** Thread t's help does not change from state i to j. */
  predicate Pauses(run: seq<State>, i: nat, j: nat, t: nat) {
    && i <= j < |run| && t in run[j].threads
    && forall m | i <= m <= j :: t in run[m].threads && run[m].threads[t].help == run[j].threads[t].help
  }

  /** The step that brought a helper to its point. */
  lemma {:induction false} HelpCameAt(w: World, run: seq<State>, j: nat, t: nat) returns (m: nat)
    requires HelpFollows(w, run, t) && j < |run| && t in run[j].threads && !run[j].threads[t].help.NoHelp?
    ensures m < j && t in run[m].threads && Pauses(run, m + 1, j, t)
    ensures || HelpFrom(w, run[m], run[m + 1], t, run[m].threads[t].help, run[j].threads[t].help)
            || (run[m].threads[t].help.NoHelp? && run[j].threads[t].help.Read1?)
    decreases j
  {
    NotFirst(w, run, j, t);
    m := j - 1;
    if t in run[m].threads && run[m].threads[t].help == run[j].threads[t].help {
      m := HelpCameAt(w, run, j - 1, t);
    } else {
      HelpFromAt(w, run, m, t);
    }
  }

  lemma NotFirst(w: World, run: seq<State>, j: nat, t: nat)
    requires HelpFollows(w, run, t) && j < |run| && t in run[j].threads && !run[j].threads[t].help.NoHelp?
    ensures j > 0
  {
  }

  // ----- a call, from its begin to its end -----

  /** The help of a call on this cell; `initiator` says whether the call is to start the move. */
  predicate OfCall(h: Help, c: Cell, initiator: bool) {
    && !h.NoHelp? && h.cell == c
    && (h.Read1? || h.Read2? || h.Check? ==> h.initiator == initiator) && (h.Mark? ==> initiator)
  }

  /** At step b thread t begins a call on this cell, and it is in it from then to state j. */
  ghost predicate InCall(run: seq<State>, b: nat, j: nat, t: nat, c: Cell, initiator: bool) {
    && b < j < |run| && t in run[b].threads && run[b].threads[t].help.NoHelp?
    && t in run[b + 1].threads && run[b + 1].threads[t].help == Read1(c, initiator)
    && forall m | b < m <= j :: t in run[m].threads && OfCall(run[m].threads[t].help, c, initiator)
  }

  lemma InCallOn(run: seq<State>, b: nat, j: nat, t: nat, c: Cell, initiator: bool)
    requires InCall(run, b, j, t, c, initiator) && j + 1 < |run| && t in run[j + 1].threads
    requires OfCall(run[j + 1].threads[t].help, c, initiator)
    ensures InCall(run, b, j + 1, t, c, initiator)
  {
  }

  lemma CallGoesOn(w: World, run: seq<State>, m: nat, t: nat, c: Cell, initiator: bool)
    requires HelpFollows(w, run, t) && m + 1 < |run| && t in run[m].threads && t in run[m + 1].threads
    requires OfCall(run[m].threads[t].help, c, initiator) && !run[m + 1].threads[t].help.NoHelp?
    ensures OfCall(run[m + 1].threads[t].help, c, initiator)
  {
    if run[m].threads[t].help != run[m + 1].threads[t].help {
      HelpFromAt(w, run, m, t);
    }
  }

  lemma CallStarts(w: World, run: seq<State>, m: nat, t: nat)
    requires HelpFollows(w, run, t) && m + 1 < |run| && t in run[m].threads && t in run[m + 1].threads
    requires run[m].threads[t].help.NoHelp? && !run[m + 1].threads[t].help.NoHelp?
    ensures run[m + 1].threads[t].help.Read1?
  {
    HelpFromAt(w, run, m, t);
  }

  /** A helper is in some call. */
  lemma {:induction false} CallBegan(w: World, run: seq<State>, j: nat, t: nat)
    returns (b: nat, c: Cell, initiator: bool)
    requires HelpFollows(w, run, t) && j < |run| && t in run[j].threads && !run[j].threads[t].help.NoHelp?
    ensures InCall(run, b, j, t, c, initiator)
    decreases j
  {
    NotFirst(w, run, j, t);
    var m := j - 1;
    assert HelpStepped(w, run[m], run[m + 1], t);
    if run[m].threads[t].help.NoHelp? {
      CallStarts(w, run, m, t);
      b, c, initiator := m, run[j].threads[t].help.cell, run[j].threads[t].help.initiator;
    } else {
      b, c, initiator := CallBegan(w, run, m, t);
      CallGoesOn(w, run, m, t, c, initiator);
      InCallOn(run, b, m, t, c, initiator);
    }
  }

  // ----- what a call has read -----

  predicate HelpAt(run: seq<State>, j: nat, t: nat, h: Help) {
    j < |run| && t in run[j].threads && run[j].threads[t].help == h
  }

  /** At step k, in its call, thread t read this marked word in the source. */
  ghost predicate ReadSource(run: seq<State>, b: nat, k: nat, j: nat, c: Cell, ptr1: Word) {
    b < k < j < |run| && At(run[k], c) == ptr1 && ptr1.mark
  }

  /** Nothing of a call was before its begin. */
  lemma CameInCall(w: World, run: seq<State>, b: nat, j: nat, t: nat, c: Cell, initiator: bool) returns (m: nat)
    requires HelpFollows(w, run, t) && InCall(run, b, j, t, c, initiator) && !run[j].threads[t].help.Read1?
    ensures b < m < j && InCall(run, b, m, t, c, initiator)
    ensures HelpFrom(w, run[m], run[m + 1], t, run[m].threads[t].help, run[j].threads[t].help)
  {
    m := HelpCameAt(w, run, j, t);
  }

  lemma {:induction false} SourceRead(w: World, run: seq<State>, b: nat, j: nat, t: nat, c: Cell, initiator: bool)
    returns (k: nat)
    requires HelpFollows(w, run, t) && InCall(run, b, j, t, c, initiator) && HasSource(run[j].threads[t].help)
    ensures ReadSource(run, b, k, j, c, run[j].threads[t].help.ptr1)
    decreases j
  {
    k := CameInCall(w, run, b, j, t, c, initiator);
    if !run[j].threads[t].help.Read2? {
      k := SourceRead(w, run, b, k, t, c, initiator);
    }
  }

  /** A helper about to copy has read its source, then its destination, empty, and then its source again, unchanged. */
  ghost predicate ReadThrice(w: World, run: seq<State>, b: nat, k0: nat, k1: nat, k2: nat, j: nat, c: Cell, ptr1: Word,
                             ptr2: Word)
  {
    && b < k0 < k1 < k2 < j < |run|
    && At(run[k0], c) == ptr1 && ptr1.mark && At(run[k2], c) == ptr1
    && At(run[k1], w.other(c, ptr1.ptr)) == ptr2 && ptr2.ptr == NULL
  }

  lemma CopyRead(w: World, run: seq<State>, b: nat, j: nat, t: nat, c: Cell, initiator: bool)
    returns (k0: nat, k1: nat, k2: nat)
    requires HelpFollows(w, run, t) && InCall(run, b, j, t, c, initiator) && run[j].threads[t].help.Copy?
    ensures ReadThrice(w, run, b, k0, k1, k2, j, c, run[j].threads[t].help.ptr1, run[j].threads[t].help.ptr2)
  {
    k2 := CameInCall(w, run, b, j, t, c, initiator);
    k1 := CameInCall(w, run, b, k2, t, c, initiator);
    k0 := CameInCall(w, run, b, k1, t, c, initiator);
  }

  // ----- why a call ends -----

  /** At step k the call found its destination taken by another entry. */
  ghost predicate FoundTaken(w: World, run: seq<State>, b: nat, k: nat, j: nat, t: nat, c: Cell, initiator: bool,
                             ptr1: Word)
  {
    && b < k < j < |run| && HelpAt(run, k, t, Read2(c, initiator, ptr1))
    && At(run[k], w.other(c, ptr1.ptr)).ptr != NULL && At(run[k], w.other(c, ptr1.ptr)).ptr != ptr1.ptr
  }

  /** At step k its copying swap lost: the destination was no longer the word read there. */
  ghost predicate LostCopy(w: World, run: seq<State>, b: nat, k: nat, j: nat, t: nat, c: Cell, ptr1: Word) {
    && b < k < j < |run| && t in run[k].threads && run[k].threads[t].help.Copy?
    && run[k].threads[t].help == Copy(c, ptr1, run[k].threads[t].help.ptr2)
    && At(run[k], w.other(c, ptr1.ptr)) != run[k].threads[t].help.ptr2
    && exists k0: nat, k1: nat, k2: nat ::
         ReadThrice(w, run, b, k0, k1, k2, k, c, ptr1, run[k].threads[t].help.ptr2)
  }

  /** At step k it found the same entry in its destination. */
  ghost predicate FoundSame(w: World, run: seq<State>, b: nat, k: nat, j: nat, t: nat, c: Cell, initiator: bool,
                            ptr1: Word)
  {
    && b < k < j < |run| && HelpAt(run, k, t, Read2(c, initiator, ptr1))
    && At(run[k], w.other(c, ptr1.ptr)).ptr == ptr1.ptr
  }

  /** Why a call that ends with the step after state j does so. */
  ghost predicate EndsFor(w: World, run: seq<State>, b: nat, j: nat, t: nat, c: Cell, initiator: bool)
    requires j + 1 < |run| && t in run[j].threads
  {
    var h := run[j].threads[t].help;
    || (h.Read1? && !At(run[j], c).mark && (initiator ==> At(run[j], c).ptr == NULL))
    || (h.Clear? && At(run[j + 1], c) != h.ptr1 && exists k: nat :: b < k < j && CopiesAt(w, run, k, t, c, h.ptr1))
    || (h.SameEntry? && exists k: nat :: FoundSame(w, run, b, k, j, t, c, initiator, h.ptr1))
    || (h.Occupied? && exists k: nat ::
          FoundTaken(w, run, b, k, j, t, c, initiator, h.ptr1) || LostCopy(w, run, b, k, j, t, c, h.ptr1))
  }

  /**
    A call ends for one of these reasons only: its source is unmarked, and empty
    if the call was to start a move; it has copied the entry, and the source is
    no longer what it copied; the entry is in the destination already; or the
    destination is another's. A lost mark, and a source that changed before the
    copy, make it start over.
   */
  lemma CallEnds(w: World, run: seq<State>, j: nat, t: nat) returns (b: nat, c: Cell, initiator: bool)
    requires IsRun(w, run) && j + 1 < |run| && t in run[j].threads && t in run[j + 1].threads
    requires !run[j].threads[t].help.NoHelp? && run[j + 1].threads[t].help.NoHelp?
    ensures InCall(run, b, j, t, c, initiator) && EndsFor(w, run, b, j, t, c, initiator)
    ensures HasSource(run[j].threads[t].help) ==>
              exists k: nat :: ReadSource(run, b, k, j, c, run[j].threads[t].help.ptr1)
  {
    RunHelpFollows(w, run, t);
    b, c, initiator := CallBegan(w, run, j, t);
    HelpFromAt(w, run, j, t);
    if HasSource(run[j].threads[t].help) {
      var k := SourceRead(w, run, b, j, t, c, initiator);
      EndsWithSource(w, run, b, j, t, c, initiator);
    }
  }

  lemma EndsWithSource(w: World, run: seq<State>, b: nat, j: nat, t: nat, c: Cell, initiator: bool)
    requires HelpFollows(w, run, t) && j + 1 < |run| && InCall(run, b, j, t, c, initiator)
    requires t in run[j + 1].threads && HasSource(run[j].threads[t].help) && run[j + 1].threads[t].help.NoHelp?
    ensures EndsFor(w, run, b, j, t, c, initiator)
  {
    HelpFromAt(w, run, j, t);
    var m := CameInCall(w, run, b, j, t, c, initiator);
    var h, g := run[j].threads[t].help, run[m].threads[t].help;
    if h.Clear? {
      assert CopiesAt(w, run, m, t, c, h.ptr1);
    } else if h.SameEntry? {
      assert FoundSame(w, run, b, m, j, t, c, initiator, h.ptr1);
    } else if g.Read2? {
      assert FoundTaken(w, run, b, m, j, t, c, initiator, h.ptr1);
    } else {
      var k0, k1, k2 := CopyRead(w, run, b, m, t, c, initiator);
      assert LostCopy(w, run, b, m, j, t, c, h.ptr1);
    }
  }

  // ----- when the program is stopped -----

  lemma AbortIs(w: World, s: State, s': State, t: nat)
    requires HasTable(w, s) && t in s.threads && HelpStep(w, s, s', t) && s'.aborted && !s.aborted
    ensures HasSource(s.threads[t].help)
    ensures var h := s.threads[t].help;
            || (h.Copy? && (h.ptr1.counter >= 65535 || h.ptr2.counter >= 65535))
            || h.ptr1.counter >= 65535
  {
    if HelpRead1(w, s, s', t) || HelpRead2(w, s, s', t) || HelpCheck(w, s, s', t) {
    } else if HelpMark(w, s, s', t) || HelpCopy(w, s, s', t) || HelpClear(w, s, s', t) {
    }
  }

  lemma OpsGoOn(w: World, s: State, s': State, t: nat)
    requires w.params.Valid() && HasTable(w, s) && t in s.threads && OpStep(w, s, s', t)
    ensures s'.aborted == s.aborted
  {
    if InsertStep(w, s, s', t) {
    } else if RelocateStep(w, s, s', t) {
      RelocateGoesOn(w, s, s', t);
    } else if FindFirst(w, s, s', t) || FindSecond(w, s, s', t) {
      FindGoesOn(w, s, s', t);
    }
  }

  lemma RelocateGoesOn(w: World, s: State, s': State, t: nat)
    requires HasTable(w, s) && t in s.threads && RelocateStep(w, s, s', t)
    ensures s'.aborted == s.aborted
  {
  }

  lemma FindGoesOn(w: World, s: State, s': State, t: nat)
    requires HasTable(w, s) && t in s.threads && (FindFirst(w, s, s', t) || FindSecond(w, s, s', t))
    ensures s'.aborted == s.aborted
  {
  }

  lemma StepStops(w: World, run: seq<State>, k: nat) returns (t: nat)
    requires IsRun(w, run) && k + 1 < |run| && run[k + 1].aborted
    ensures t in run[k].threads && HasSource(run[k].threads[t].help)
    ensures var h := run[k].threads[t].help;
            || (h.Copy? && (h.ptr1.counter >= 65535 || h.ptr2.counter >= 65535))
            || h.ptr1.counter >= 65535
  {
    assert Next(w, run[k], run[k + 1]);
    t :| Step(w, run[k], run[k + 1], t);
    if OpStep(w, run[k], run[k + 1], t) {
      OpsGoOn(w, run[k], run[k + 1], t);
    } else {
      AbortIs(w, run[k], run[k + 1], t);
    }
  }

  lemma StillAtLimit(w: World, run: seq<State>, i: nat, k: nat, c: Cell)
    requires IsRun(w, run) && i <= k < |run| && At(run[i], c).counter >= 65535
    ensures At(run[k], c).counter == 65535
  {
    CountersGrow(w, run, i, k, c);
  }

  /** The program is stopped only when some slot's counter is at its limit. */
  lemma StopsAtLimit(w: World, run: seq<State>, k: nat) returns (c: Cell)
    requires IsRun(w, run) && k + 1 < |run| && run[k + 1].aborted
    ensures At(run[k], c).counter == 65535
  {
    var t := StepStops(w, run, k);
    RunHelpFollows(w, run, t);
    var b, cell, initiator := CallBegan(w, run, k, t);
    var h := run[k].threads[t].help;
    if h.ptr1.counter >= 65535 {
      var i := SourceRead(w, run, b, k, t, cell, initiator);
      c := cell;
      StillAtLimit(w, run, i, k, c);
    } else {
      var k0, k1, k2 := CopyRead(w, run, b, k, t, cell, initiator);
      c := w.other(cell, h.ptr1.ptr);
      StillAtLimit(w, run, k1, k, c);
    }
  }

  /** A copy comes with a counter one above the larger of its source's and its destination's, unmarked. */
  lemma CopyWrites(w: World, run: seq<State>, k: nat, t: nat, c: Cell, word: Word)
    requires CopiesAt(w, run, k, t, c, word)
    ensures var d := w.other(c, word.ptr); var n := At(run[k], d).counter;
            At(run[k + 1], d) == Word((if n > word.counter then n else word.counter) + 1, word.ptr, false)
  {
  }
}
