/** What holds in every state, and of every step, of every run of the lock-free filter. */
module LockFreeSafety {
  import opened Words
  import opened LockFreeModel
  import opened LockFreeInvariant
  import opened LockFreeSteps
  import opened LockFreeOps
  import opened LockFreeWrites

  lemma InitInv(w: World, s: State)
    requires Init(w, s)
    ensures Inv(w, s)
  {
    assert forall c :: At(s, c) == EMPTY;
    forall t | t in s.threads ensures ThreadOk(w, s, t) {
      assert s.threads[t].op.Idle? && s.threads[t].help == NoHelp;
    }
    forall t, u | t in s.threads && u in s.threads ensures ThreadsOk(w, s, t, u) {
      assert s.threads[t].op.Idle? && s.threads[t].help == NoHelp;
    }
  }

  lemma OpStepInv(w: World, s: State, s': State, t: nat)
    requires w.Ok() && Inv(w, s) && t in s.threads && OpStep(w, s, s', t)
    ensures Inv(w, s') && Grows(s, s')
  {
    if InsertStep(w, s, s', t) {
      InsertStepInv(w, s, s', t);
    } else if RelocateStep(w, s, s', t) {
      RelocateStepInv(w, s, s', t);
    } else if FindStep(w, s, s', t) {
      FindStepInv(w, s, s', t);
    } else {
      var op := s.threads[t].op;
      if At(s, LocationCell(op.q, op.location)) == op.expected {
        RemoveKeeps(w, s, s', t);
      } else {
        RemoveSwapFailedKeeps(w, s, s', t);
      }
    }
  }

  lemma InsertStepInv(w: World, s: State, s': State, t: nat)
    requires w.Ok() && Inv(w, s) && t in s.threads && InsertStep(w, s, s', t)
    ensures Inv(w, s') && Grows(s, s')
  {
    var op := s.threads[t].op;
    if InsertBegin(w, s, s', t) {
      InsertBeginKeeps(w, s, s', t);
    } else if InsertReadSlot(w, s, s', t) {
      InsertReadKeeps(w, s, s', t);
    } else if At(s, ScanCell(op.h1, op.h2, op.k)) == op.expected {
      InsertKeeps(w, s, s', t);
    } else {
      InsertSwapFailedKeeps(w, s, s', t);
    }
  }

  lemma RelocateStepInv(w: World, s: State, s': State, t: nat)
    requires Inv(w, s) && t in s.threads && RelocateStep(w, s, s', t)
    ensures Inv(w, s') && Grows(s, s')
  {
    if PathLook(w, s, s', t) {
      PathLookKeeps(w, s, s', t);
    } else if SourceLook(w, s, s', t) {
      SourceLookKeeps(w, s, s', t);
    } else {
      DestLookKeeps(w, s, s', t);
    }
  }

  lemma FindStepInv(w: World, s: State, s': State, t: nat)
    requires w.Ok() && Inv(w, s) && t in s.threads && FindStep(w, s, s', t)
    ensures Inv(w, s') && Grows(s, s')
  {
    if FindBegin(w, s, s', t) {
      FindBeginKeeps(w, s, s', t);
    } else if FindFirst(w, s, s', t) {
      FindFirstKeeps(w, s, s', t);
    } else if FindSecond(w, s, s', t) {
      FindSecondKeeps(w, s, s', t);
    } else if FindCounter1(w, s, s', t) {
      FindCounter1Keeps(w, s, s', t);
    } else {
      FindCounter2Keeps(w, s, s', t);
    }
  }

  lemma HelpStepInv(w: World, s: State, s': State, t: nat)
    requires Inv(w, s) && t in s.threads && HelpStep(w, s, s', t)
    ensures Inv(w, s') && Grows(s, s')
  {
    if HelpRead1(w, s, s', t) {
      HelpRead1Keeps(w, s, s', t);
    } else if HelpMark(w, s, s', t) {
      MarkKeeps(w, s, s', t);
    } else if HelpRead2(w, s, s', t) {
      HelpRead2Keeps(w, s, s', t);
    } else if HelpCheck(w, s, s', t) {
      HelpCheckKeeps(w, s, s', t);
    } else if HelpCopy(w, s, s', t) {
      CopyKeeps(w, s, s', t);
    } else if HelpClear(w, s, s', t) {
      ClearKeeps(w, s, s', t);
    } else {
      var h := s.threads[t].help;
      if w.other(h.cell, h.ptr1.ptr) == h.cell && At(s, h.cell) == h.ptr1 {
        EraseKeeps(w, s, s', t);
      } else {
        FallThroughKeeps(w, s, s', t);
      }
    }
  }

  lemma StepInv(w: World, s: State, s': State, t: nat)
    requires w.Ok() && Inv(w, s) && Step(w, s, s', t)
    ensures Inv(w, s') && Grows(s, s')
  {
    if OpStep(w, s, s', t) {
      OpStepInv(w, s, s', t);
    } else {
      HelpStepInv(w, s, s', t);
    }
  }

  /** The invariant holds in every state of every run. */
  lemma {:induction false} RunInv(w: World, run: seq<State>, i: nat)
    requires w.Ok() && IsRun(w, run) && i < |run|
    ensures Inv(w, run[i])
    decreases i
  {
    if i == 0 {
      InitInv(w, run[0]);
    } else {
      RunInv(w, run, i - 1);
      assert Next(w, run[i - 1], run[i - 1 + 1]);
      var t :| Step(w, run[i - 1], run[i], t);
      StepInv(w, run[i - 1], run[i], t);
    }
  }
}
