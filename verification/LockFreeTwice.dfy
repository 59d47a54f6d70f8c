/**
  A run in which one inserted entry is taken out by two removes, both of which
  report success: the first takes the copy of an entry that is being moved, and
  the second copies it again from the marked source.
 */
module LockFreeTwice {
  import opened Words
  import opened LockFreeModel
  import opened LockFreeTheorems
  import opened LockFreeRun
  import opened LockFreeFalseMiss

  const C := Cell(1, 0)
  const D := Cell(0, 0)
  const AGAIN := Word(2, 2, false)
  const GONE := Word(2, NULL, false)

  /** Thread 1 has copied entry 2 to (0, 0), and is about to clear (1, 0); thread 0 is at `th`. */
  function Taking(o: State, th: Thread, first: Word, second: Word, gone: set<nat>): State {
    o.(table := o.table[D := first][C := second],
       threads := map[0 := th, 1 := Thread(Walker(5), Clear(C, MARKED_2))],
       moved := {(C, MARKED_2)},
       removed := gone)
  }

  function First(o: State): Query {
    Query("f", 0, 1, true, o.info.Keys - {1}, true)
  }

  function Second(o: State): Query {
    Query("f", 0, 1, true, o.info.Keys - {1, 2}, true)
  }

  function Watched(o: State): set<nat> {
    o.info.Keys - {1, 2}
  }

  function Doing(op: Op): Thread {
    Thread(op, NoHelp)
  }

  /** What thread 0 does while it helps in its second remove. */
  function Helping(o: State, help: Help): Thread {
    Thread(FindRead1(Second(o), 0), help)
  }

  // ----- what a step changes -----

  lemma TakingTable(o: State, th: Thread, first: Word, second: Word, gone: set<nat>)
    requires Ready(o)
    ensures var s := Taking(o, th, first, second, gone);
            && HasTable(W(), s) && !s.aborted && 0 in s.threads && s.threads[0] == th
            && s.table[D] == first && s.table[C] == second
    ensures Present(Taking(o, th, first, second, gone)) == o.info.Keys - gone
  {
  }

  lemma OnlyThread(o: State, th: Thread, op: Op, help: Help, first: Word, second: Word, gone: set<nat>)
    ensures var s := Taking(o, th, first, second, gone);
            && WithOp(s, 0, op) == Taking(o, Thread(op, th.help), first, second, gone)
            && WithHelp(s, 0, help) == Taking(o, Thread(th.op, help), first, second, gone)
  {
    var other := Thread(Walker(5), Clear(C, MARKED_2));
    TwoThreads(th, other, Thread(op, th.help));
    TwoThreads(th, other, Thread(th.op, help));
  }

  lemma OnlyCell(o: State, th: Thread, first: Word, second: Word, gone: set<nat>, word: Word)
    ensures WriteCell(Taking(o, th, first, second, gone), D, word) == Taking(o, th, word, second, gone)
    ensures WriteCell(Taking(o, th, first, second, gone), C, word) == Taking(o, th, first, word, gone)
  {
    TwoCells(o.table, D, C, first, second, word);
  }

  // ----- a remove that meets the copy -----

  lemma Asks(o: State, first: Word, second: Word, gone: set<nat>, q: Query)
    requires Ready(o) && q == Query("f", 0, 1, true, o.info.Keys - gone, true)
    ensures Step(W(), Taking(o, Doing(Idle(1)), first, second, gone),
                      Taking(o, Doing(FindRead1(q, 0)), first, second, gone), 0)
  {
    Sizes();
    TakingTable(o, Doing(Idle(1)), first, second, gone);
    OnlyThread(o, Doing(Idle(1)), FindRead1(q, 0), NoHelp, first, second, gone);
    var w, key, s := W(), "x", Taking(o, Doing(Idle(1)), first, second, gone);
    assert q == Query(w.params.md5(key), w.params.Bucket1(key), w.params.Bucket2(key), true, Present(s), true);
    assert FindBegin(w, s, Taking(o, Doing(FindRead1(q, 0)), first, second, gone), 0);
  }

  lemma Finds(o: State, first: Word, second: Word, gone: set<nat>, q: Query)
    requires Ready(o) && q == Query("f", 0, 1, true, q.start, true) && first.ptr == 2 && !first.mark
    ensures Step(W(), Taking(o, Doing(FindRead1(q, 0)), first, second, gone),
                      Taking(o, Doing(RemoveCas(q, 0, first)), first, second, gone), 0)
  {
    TakingTable(o, Doing(FindRead1(q, 0)), first, second, gone);
    OnlyThread(o, Doing(FindRead1(q, 0)), RemoveCas(q, 0, first), NoHelp, first, second, gone);
    assert FindFirst(W(), Taking(o, Doing(FindRead1(q, 0)), first, second, gone),
                          Taking(o, Doing(RemoveCas(q, 0, first)), first, second, gone), 0);
  }

  lemma TakesIt(o: State, first: Word, second: Word, gone: set<nat>, q: Query)
    requires Ready(o) && q == Query("f", 0, 1, true, q.start, true) && first.ptr == 2 && !first.mark
    ensures var s := Taking(o, Doing(RemoveCas(q, 0, first)), first, second, gone);
            var s' := Taking(o, Doing(Idle(1)), Word(first.counter, NULL, false), second, gone + {2});
            Step(W(), s, s', 0) && Takes(W(), s, s', 0) && s.threads[0].op.expected.ptr == 2
  {
    var op, word := RemoveCas(q, 0, first), Word(first.counter, NULL, false);
    TakingTable(o, Doing(op), first, second, gone);
    OnlyCell(o, Doing(op), first, second, gone, word);
    OnlyThread(o, Doing(op), Idle(1), NoHelp, word, second, gone);
    assert LocationCell(q, 0) == D;
    assert RemoveSwap(W(), Taking(o, Doing(op), first, second, gone),
                           Taking(o, Doing(Idle(1)), word, second, gone + {2}), 0);
  }

  // ----- the second remove, up to its help -----

  lemma PassesEmpty(o: State)
    requires Ready(o)
    ensures Step(W(), Taking(o, Doing(FindRead1(Second(o), 0)), CLEARED, MARKED_2, {1, 2}),
                      Taking(o, Doing(FindRead2(Second(o), 0, 1, Watched(o))), CLEARED, MARKED_2, {1, 2}), 0)
  {
    var op, op' := FindRead1(Second(o), 0), FindRead2(Second(o), 0, 1, Watched(o));
    TakingTable(o, Doing(op), CLEARED, MARKED_2, {1, 2});
    OnlyThread(o, Doing(op), op', NoHelp, CLEARED, MARKED_2, {1, 2});
    assert FindFirst(W(), Taking(o, Doing(op), CLEARED, MARKED_2, {1, 2}),
                          Taking(o, Doing(op'), CLEARED, MARKED_2, {1, 2}), 0);
  }

  lemma MeetsMark(o: State)
    requires Ready(o)
    ensures Step(W(), Taking(o, Doing(FindRead2(Second(o), 0, 1, Watched(o))), CLEARED, MARKED_2, {1, 2}),
                      Taking(o, Helping(o, Read1(C, false)), CLEARED, MARKED_2, {1, 2}), 0)
  {
    var op, op', help := FindRead2(Second(o), 0, 1, Watched(o)), FindRead1(Second(o), 0), Read1(C, false);
    TakingTable(o, Doing(op), CLEARED, MARKED_2, {1, 2});
    OnlyThread(o, Doing(op), op', NoHelp, CLEARED, MARKED_2, {1, 2});
    OnlyThread(o, Doing(op'), op', help, CLEARED, MARKED_2, {1, 2});
    assert FindSecond(W(), Taking(o, Doing(op), CLEARED, MARKED_2, {1, 2}),
                           Taking(o, Thread(op', help), CLEARED, MARKED_2, {1, 2}), 0);
  }

  // ----- its help -----

  lemma HelpReads(o: State)
    requires Ready(o)
    ensures Step(W(), Taking(o, Helping(o, Read1(C, false)), CLEARED, MARKED_2, {1, 2}),
                      Taking(o, Helping(o, Read2(C, false, MARKED_2)), CLEARED, MARKED_2, {1, 2}), 0)
  {
    var h, h' := Read1(C, false), Read2(C, false, MARKED_2);
    TakingTable(o, Helping(o, h), CLEARED, MARKED_2, {1, 2});
    OnlyThread(o, Helping(o, h), Idle(1), h', CLEARED, MARKED_2, {1, 2});
    assert HelpRead1(W(), Taking(o, Helping(o, h), CLEARED, MARKED_2, {1, 2}),
                          Taking(o, Helping(o, h'), CLEARED, MARKED_2, {1, 2}), 0);
  }

  lemma HelpSeesEmpty(o: State)
    requires Ready(o)
    ensures Step(W(), Taking(o, Helping(o, Read2(C, false, MARKED_2)), CLEARED, MARKED_2, {1, 2}),
                      Taking(o, Helping(o, Check(C, false, MARKED_2, CLEARED)), CLEARED, MARKED_2, {1, 2}), 0)
  {
    var h, h' := Read2(C, false, MARKED_2), Check(C, false, MARKED_2, CLEARED);
    OtherCell();
    TakingTable(o, Helping(o, h), CLEARED, MARKED_2, {1, 2});
    OnlyThread(o, Helping(o, h), Idle(1), h', CLEARED, MARKED_2, {1, 2});
    assert HelpRead2(W(), Taking(o, Helping(o, h), CLEARED, MARKED_2, {1, 2}),
                          Taking(o, Helping(o, h'), CLEARED, MARKED_2, {1, 2}), 0);
  }

  lemma HelpChecks(o: State)
    requires Ready(o)
    ensures Step(W(), Taking(o, Helping(o, Check(C, false, MARKED_2, CLEARED)), CLEARED, MARKED_2, {1, 2}),
                      Taking(o, Helping(o, Copy(C, MARKED_2, CLEARED)), CLEARED, MARKED_2, {1, 2}), 0)
  {
    var h, h' := Check(C, false, MARKED_2, CLEARED), Copy(C, MARKED_2, CLEARED);
    TakingTable(o, Helping(o, h), CLEARED, MARKED_2, {1, 2});
    OnlyThread(o, Helping(o, h), Idle(1), h', CLEARED, MARKED_2, {1, 2});
    assert HelpCheck(W(), Taking(o, Helping(o, h), CLEARED, MARKED_2, {1, 2}),
                          Taking(o, Helping(o, h'), CLEARED, MARKED_2, {1, 2}), 0);
  }

  lemma HelpCopiesAgain(o: State)
    requires Ready(o)
    ensures Step(W(), Taking(o, Helping(o, Copy(C, MARKED_2, CLEARED)), CLEARED, MARKED_2, {1, 2}),
                      Taking(o, Helping(o, Clear(C, MARKED_2)), AGAIN, MARKED_2, {1, 2}), 0)
  {
    var h, h' := Copy(C, MARKED_2, CLEARED), Clear(C, MARKED_2);
    OtherCell();
    TakingTable(o, Helping(o, h), CLEARED, MARKED_2, {1, 2});
    OnlyCell(o, Helping(o, h), CLEARED, MARKED_2, {1, 2}, AGAIN);
    OnlyThread(o, Helping(o, h), Idle(1), h', AGAIN, MARKED_2, {1, 2});
    assert {(C, MARKED_2)} + {(C, MARKED_2)} == {(C, MARKED_2)};
    CopyStep(W(), Taking(o, Helping(o, h), CLEARED, MARKED_2, {1, 2}),
             Taking(o, Helping(o, h'), AGAIN, MARKED_2, {1, 2}), 0, C, D, MARKED_2, CLEARED);
  }

  lemma HelpClears(o: State)
    requires Ready(o)
    ensures Step(W(), Taking(o, Helping(o, Clear(C, MARKED_2)), AGAIN, MARKED_2, {1, 2}),
                      Taking(o, Helping(o, NoHelp), AGAIN, CLEARED, {1, 2}), 0)
  {
    var h := Clear(C, MARKED_2);
    TakingTable(o, Helping(o, h), AGAIN, MARKED_2, {1, 2});
    OnlyCell(o, Helping(o, h), AGAIN, MARKED_2, {1, 2}, CLEARED);
    OnlyThread(o, Helping(o, h), Idle(1), NoHelp, AGAIN, CLEARED, {1, 2});
    assert HelpClear(W(), Taking(o, Helping(o, h), AGAIN, MARKED_2, {1, 2}),
                          Taking(o, Helping(o, NoHelp), AGAIN, CLEARED, {1, 2}), 0);
  }

  // ----- the run -----

  /** The n-th state after the copy. */
  function After(o: State, n: nat): State {
    if n == 0 then Taking(o, Doing(Idle(1)), COPY, MARKED_2, {1})
    else if n == 1 then Taking(o, Doing(FindRead1(First(o), 0)), COPY, MARKED_2, {1})
    else if n == 2 then Taking(o, Doing(RemoveCas(First(o), 0, COPY)), COPY, MARKED_2, {1})
    else if n == 3 then Taking(o, Doing(Idle(1)), CLEARED, MARKED_2, {1, 2})
    else if n == 4 then Taking(o, Doing(FindRead1(Second(o), 0)), CLEARED, MARKED_2, {1, 2})
    else if n == 5 then Taking(o, Doing(FindRead2(Second(o), 0, 1, Watched(o))), CLEARED, MARKED_2, {1, 2})
    else if n == 6 then Taking(o, Helping(o, Read1(C, false)), CLEARED, MARKED_2, {1, 2})
    else if n == 7 then Taking(o, Helping(o, Read2(C, false, MARKED_2)), CLEARED, MARKED_2, {1, 2})
    else if n == 8 then Taking(o, Helping(o, Check(C, false, MARKED_2, CLEARED)), CLEARED, MARKED_2, {1, 2})
    else if n == 9 then Taking(o, Helping(o, Copy(C, MARKED_2, CLEARED)), CLEARED, MARKED_2, {1, 2})
    else if n == 10 then Taking(o, Helping(o, Clear(C, MARKED_2)), AGAIN, MARKED_2, {1, 2})
    else if n == 11 then Taking(o, Helping(o, NoHelp), AGAIN, CLEARED, {1, 2})
    else if n == 12 then Taking(o, Doing(RemoveCas(Second(o), 0, AGAIN)), AGAIN, CLEARED, {1, 2})
    else Taking(o, Doing(Idle(1)), GONE, CLEARED, {1, 2})
  }

  lemma StepsToTake(o: State, n: nat)
    requires Ready(o) && n < 3
    ensures Step(W(), After(o, n), After(o, n + 1), 0)
    ensures n == 2 ==> Takes(W(), After(o, 2), After(o, 3), 0) && After(o, 2).threads[0].op.expected.ptr == 2
  {
    if n == 0 {
      Asks(o, COPY, MARKED_2, {1}, First(o));
    } else if n == 1 {
      Finds(o, COPY, MARKED_2, {1}, First(o));
    } else {
      TakesIt(o, COPY, MARKED_2, {1}, First(o));
      assert {1} + {2} == {1, 2};
    }
  }

  lemma StepsOfHelp(o: State, n: nat)
    requires Ready(o) && 3 <= n < 11
    ensures Step(W(), After(o, n), After(o, n + 1), 0)
  {
    if n == 3 {
      Asks(o, CLEARED, MARKED_2, {1, 2}, Second(o));
    } else if n == 4 {
      PassesEmpty(o);
    } else if n == 5 {
      MeetsMark(o);
    } else if n == 6 {
      HelpReads(o);
    } else if n == 7 {
      HelpSeesEmpty(o);
    } else if n == 8 {
      HelpChecks(o);
    } else if n == 9 {
      HelpCopiesAgain(o);
    } else {
      HelpClears(o);
    }
  }

  lemma StepsToTakeAgain(o: State, n: nat)
    requires Ready(o) && 11 <= n < 13
    ensures Step(W(), After(o, n), After(o, n + 1), 0)
    ensures n == 12 ==> Takes(W(), After(o, 12), After(o, 13), 0) && After(o, 12).threads[0].op.expected.ptr == 2
  {
    if n == 11 {
      Finds(o, AGAIN, CLEARED, {1, 2}, Second(o));
    } else {
      TakesIt(o, AGAIN, CLEARED, {1, 2}, Second(o));
      assert {1, 2} + {2} == {1, 2};
    }
  }

  lemma AfterStep(o: State, n: nat)
    requires Ready(o) && n < 13
    ensures Step(W(), After(o, n), After(o, n + 1), 0)
  {
    if n < 3 {
      StepsToTake(o, n);
    } else if n < 11 {
      StepsOfHelp(o, n);
    } else {
      StepsToTakeAgain(o, n);
    }
  }

  /** Up to the copy, with thread 0 idle. */
  lemma {:induction false} UpToCopy(o: State, c: seq<State>, n: nat) returns (run: seq<State>)
    requires IsRun(W(), c) && c[|c| - 1] == o && Ready(o) && n <= 7
    ensures IsRun(W(), run) && run[|run| - 1] == MovePoint(o, Idle(1), n)
    decreases n
  {
    if n == 0 {
      run := c;
      AsMoving(o);
    } else {
      run := UpToCopy(o, c, n - 1);
      MoveStep(o, Idle(1), n - 1);
      Extended(W(), run, MovePoint(o, Idle(1), n), 1);
      run := run + [MovePoint(o, Idle(1), n)];
    }
  }

  lemma AsMoving(o: State)
    requires Ready(o)
    ensures MovePoint(o, Idle(1), 0) == o
  {
    assert o.table[D := EMPTY][C := ENTRY_2] == o.table;
  }

  lemma AsTaking(o: State)
    requires Ready(o)
    ensures MovePoint(o, Idle(1), 7) == After(o, 0)
  {
  }

  /** The states from index `base` on are the first n after the copy. */
  ghost predicate Continues(o: State, run: seq<State>, base: nat, n: nat) {
    |run| == base + n + 1 && forall k | 0 <= k <= n :: run[base + k] == After(o, k)
  }

  lemma ContinuesOn(o: State, run: seq<State>, base: nat, n: nat)
    requires Continues(o, run, base, n)
    ensures run[|run| - 1] == After(o, n) && Continues(o, run + [After(o, n + 1)], base, n + 1)
  {
  }

  lemma {:induction false} Afterwards(o: State, c: seq<State>, n: nat) returns (run: seq<State>)
    requires IsRun(W(), c) && c[|c| - 1] == After(o, 0) && Ready(o) && n <= 13
    ensures IsRun(W(), run) && Continues(o, run, |c| - 1, n)
    decreases n
  {
    if n == 0 {
      run := c;
    } else {
      run := Afterwards(o, c, n - 1);
      ContinuesOn(o, run, |c| - 1, n - 1);
      AfterStep(o, n - 1);
      Extended(W(), run, After(o, n), 0);
      run := run + [After(o, n)];
    }
  }

  /**
    A run in which two removes take the same entry, at steps i and j, although
    it was inserted once, and no other entry of its fingerprint ever was.
   */
  lemma TakenTwice() returns (run: seq<State>, i: nat, j: nat)
    ensures W().Ok() && IsRun(W(), run) && i < j
    ensures TakesAt(W(), run, i, 0, 2) && TakesAt(W(), run, j, 0, 2)
    ensures forall k, e | 0 <= k < |run| && e in run[k].info && W().fingerprint(e) == W().fingerprint(2) :: e == 2
  {
    Sizes();
    var c := Before();
    var o := c[|c| - 1];
    c := UpToCopy(o, c, 7);
    AsTaking(o);
    run := Afterwards(o, c, 13);
    i, j := |c| - 1 + 2, |c| - 1 + 12;
    StepsToTake(o, 2);
    StepsToTakeAgain(o, 12);
    assert run[i] == After(o, 2) && run[|c| - 1 + 3] == After(o, 3);
    assert run[j] == After(o, 12) && run[|c| - 1 + 13] == After(o, 13);
  }
}
