/**
  A run in which `find` misses a key that is in the filter all the time: one
  move between its two reads is enough, and its counter check asks for two.
 */
module LockFreeFalseMiss {
  import opened Words
  import opened LockFreeModel
  import opened LockFreeInvariant
  import opened LockFreeRun
  import opened Chains

  // ----- the find, and the move between its reads -----

  /** The query for key "x". */
  function Q(o: State, steady: bool): Query {
    Query("f", 0, 1, false, Present(o), steady)
  }

  /** Thread 1 is about to move an entry, or past that. */
  function Mover(help: Help, copied: bool): Op {
    Walker(if help.NoHelp? && !copied then 4 else 5)
  }

  /** Thread 0 is at `op`, thread 1 at `help`, with these words in the two cells of entry 2. */
  function Moving(o: State, op: Op, help: Help, first: Word, second: Word, copied: bool): State {
    o.(table := o.table[Cell(0, 0) := first][Cell(1, 0) := second],
       threads := map[0 := Thread(op, NoHelp), 1 := Thread(Mover(help, copied), help)],
       moved := if copied then {(Cell(1, 0), MARKED_2)} else {})
  }

  const MARKED_2 := Word(0, 2, true)
  const COPY := Word(1, 2, false)
  const CLEARED := Word(1, NULL, false)

  lemma MovingHasTable(o: State, op: Op, help: Help, first: Word, second: Word, copied: bool)
    requires Ready(o)
    ensures HasTable(W(), Moving(o, op, help, first, second, copied))
    ensures Moving(o, op, help, first, second, copied).table[Cell(0, 0)] == first
    ensures Moving(o, op, help, first, second, copied).table[Cell(1, 0)] == second
  {
  }

  /** The n-th point of thread 1's move of entry 2 from (1, 0) to (0, 0), with thread 0 at `op`. */
  function MovePoint(o: State, op: Op, n: nat): State
    requires n <= 8
  {
    var c := Cell(1, 0);
    if n == 0 then Moving(o, op, NoHelp, EMPTY, ENTRY_2, false)
    else if n == 1 then Moving(o, op, Read1(c, true), EMPTY, ENTRY_2, false)
    else if n == 2 then Moving(o, op, Mark(c, ENTRY_2), EMPTY, ENTRY_2, false)
    else if n == 3 then Moving(o, op, Read1(c, true), EMPTY, MARKED_2, false)
    else if n == 4 then Moving(o, op, Read2(c, true, MARKED_2), EMPTY, MARKED_2, false)
    else if n == 5 then Moving(o, op, Check(c, true, MARKED_2, EMPTY), EMPTY, MARKED_2, false)
    else if n == 6 then Moving(o, op, Copy(c, MARKED_2, EMPTY), EMPTY, MARKED_2, false)
    else if n == 7 then Moving(o, op, Clear(c, MARKED_2), COPY, MARKED_2, true)
    else Moving(o, op, NoHelp, COPY, CLEARED, true)
  }

  /** Thread 1's help frame is all that a move point changes in the threads. */
  lemma OnlyHelp(o: State, op: Op, h: Help, h': Help, first: Word, second: Word, copied: bool)
    requires Mover(h, copied) == Mover(h', copied)
    ensures WithHelp(Moving(o, op, h, first, second, copied), 1, h') == Moving(o, op, h', first, second, copied)
  {
    TwoThreads(Thread(op, NoHelp), Thread(Mover(h, copied), h), Thread(Mover(h, copied), h'));
  }

  lemma PointStarts(o: State, op: Op)
    requires Ready(o)
    ensures Step(W(), MovePoint(o, op, 0), MovePoint(o, op, 1), 1)
  {
    Sizes();
    WalkerOk(4);
    var s, s' := MovePoint(o, op, 0), MovePoint(o, op, 1);
    MovingHasTable(o, op, NoHelp, EMPTY, ENTRY_2, false);
    assert SourceCell(Walker(4)) == Cell(1, 0) && W().other(Cell(1, 0), 2) == Cell(0, 0);
    assert s'.threads == WithHelp(WithOp(s, 1, Walker(5)), 1, Read1(Cell(1, 0), true)).threads;
    assert DestLook(W(), s, s', 1);
  }

  lemma PointReads(o: State, op: Op)
    requires Ready(o)
    ensures Step(W(), MovePoint(o, op, 1), MovePoint(o, op, 2), 1)
    ensures Step(W(), MovePoint(o, op, 3), MovePoint(o, op, 4), 1)
  {
    var h := Read1(Cell(1, 0), true);
    MovingHasTable(o, op, h, EMPTY, ENTRY_2, false);
    OnlyHelp(o, op, h, Mark(Cell(1, 0), ENTRY_2), EMPTY, ENTRY_2, false);
    assert HelpRead1(W(), MovePoint(o, op, 1), MovePoint(o, op, 2), 1);
    MovingHasTable(o, op, h, EMPTY, MARKED_2, false);
    OnlyHelp(o, op, h, Read2(Cell(1, 0), true, MARKED_2), EMPTY, MARKED_2, false);
    assert HelpRead1(W(), MovePoint(o, op, 3), MovePoint(o, op, 4), 1);
  }

  lemma PointMarks(o: State, op: Op)
    requires Ready(o)
    ensures Step(W(), MovePoint(o, op, 2), MovePoint(o, op, 3), 1)
  {
    var s, c, h, h' := MovePoint(o, op, 2), Cell(1, 0), Mark(Cell(1, 0), ENTRY_2), Read1(Cell(1, 0), true);
    MovingHasTable(o, op, h, EMPTY, ENTRY_2, false);
    WritesSecond(o, op, h, EMPTY, ENTRY_2, false, MARKED_2);
    OnlyHelp(o, op, h, h', EMPTY, MARKED_2, false);
    assert HelpMark(W(), s, MovePoint(o, op, 3), 1);
  }

  lemma PointReadsDestination(o: State, op: Op)
    requires Ready(o)
    ensures Step(W(), MovePoint(o, op, 4), MovePoint(o, op, 5), 1)
  {
    Sizes();
    var c := Cell(1, 0);
    MovingHasTable(o, op, Read2(c, true, MARKED_2), EMPTY, MARKED_2, false);
    OnlyHelp(o, op, Read2(c, true, MARKED_2), Check(c, true, MARKED_2, EMPTY), EMPTY, MARKED_2, false);
    assert W().other(c, 2) == Cell(0, 0);
    assert HelpRead2(W(), MovePoint(o, op, 4), MovePoint(o, op, 5), 1);
  }

  lemma PointChecks(o: State, op: Op)
    requires Ready(o)
    ensures Step(W(), MovePoint(o, op, 5), MovePoint(o, op, 6), 1)
  {
    var c := Cell(1, 0);
    MovingHasTable(o, op, Check(c, true, MARKED_2, EMPTY), EMPTY, MARKED_2, false);
    OnlyHelp(o, op, Check(c, true, MARKED_2, EMPTY), Copy(c, MARKED_2, EMPTY), EMPTY, MARKED_2, false);
    assert HelpCheck(W(), MovePoint(o, op, 5), MovePoint(o, op, 6), 1);
  }

  lemma WritesFirst(o: State, op: Op, h: Help, first: Word, second: Word, copied: bool, word: Word)
    ensures WriteCell(Moving(o, op, h, first, second, copied), Cell(0, 0), word)
         == Moving(o, op, h, word, second, copied)
  {
    TwoCells(o.table, Cell(0, 0), Cell(1, 0), first, second, word);
  }

  lemma WritesSecond(o: State, op: Op, h: Help, first: Word, second: Word, copied: bool, word: Word)
    ensures WriteCell(Moving(o, op, h, first, second, copied), Cell(1, 0), word)
         == Moving(o, op, h, first, word, copied)
  {
    TwoCells(o.table, Cell(0, 0), Cell(1, 0), first, second, word);
  }

  /** The copy is noted as the helper goes on to clear the source. */
  lemma NotesCopy(o: State, op: Op, h: Help)
    requires h != NoHelp
    ensures var s := Moving(o, op, h, COPY, MARKED_2, false);
            WithHelp(s, 1, Clear(Cell(1, 0), MARKED_2)).(moved := s.moved + {(Cell(1, 0), MARKED_2)})
            == Moving(o, op, Clear(Cell(1, 0), MARKED_2), COPY, MARKED_2, true)
  {
    OnlyHelp(o, op, h, Clear(Cell(1, 0), MARKED_2), COPY, MARKED_2, false);
    assert {} + {(Cell(1, 0), MARKED_2)} == {(Cell(1, 0), MARKED_2)};
  }

  lemma OtherCell()
    ensures W().params.Valid() && W().other(Cell(1, 0), 2) == Cell(0, 0)
  {
    Sizes();
  }

  lemma CopyLeads(o: State, op: Op)
    ensures var s := MovePoint(o, op, 6);
            MovePoint(o, op, 7)
            == WithHelp(WriteCell(s, Cell(0, 0), COPY), 1, Clear(Cell(1, 0), MARKED_2))
               .(moved := s.moved + {(Cell(1, 0), MARKED_2)})
  {
    var h := Copy(Cell(1, 0), MARKED_2, EMPTY);
    WritesFirst(o, op, h, EMPTY, MARKED_2, false, COPY);
    NotesCopy(o, op, h);
  }

  lemma PointCopies(o: State, op: Op)
    requires Ready(o)
    ensures Step(W(), MovePoint(o, op, 6), MovePoint(o, op, 7), 1)
  {
    OtherCell();
    MovingHasTable(o, op, Copy(Cell(1, 0), MARKED_2, EMPTY), EMPTY, MARKED_2, false);
    CopyLeads(o, op);
    CopyStep(W(), MovePoint(o, op, 6), MovePoint(o, op, 7), 1, Cell(1, 0), Cell(0, 0), MARKED_2, EMPTY);
  }

  lemma ClearLeads(o: State, op: Op)
    ensures MovePoint(o, op, 8) == WithHelp(WriteCell(MovePoint(o, op, 7), Cell(1, 0), CLEARED), 1, NoHelp)
  {
    var h := Clear(Cell(1, 0), MARKED_2);
    WritesSecond(o, op, h, COPY, MARKED_2, true, CLEARED);
    OnlyHelp(o, op, h, NoHelp, COPY, CLEARED, true);
  }

  lemma PointClears(o: State, op: Op)
    requires Ready(o)
    ensures Step(W(), MovePoint(o, op, 7), MovePoint(o, op, 8), 1)
  {
    MovingHasTable(o, op, Clear(Cell(1, 0), MARKED_2), COPY, MARKED_2, true);
    ClearLeads(o, op);
    assert HelpClear(W(), MovePoint(o, op, 7), MovePoint(o, op, 8), 1);
  }

  lemma MoveStep(o: State, op: Op, n: nat)
    requires Ready(o)
    requires n < 8
    ensures Step(W(), MovePoint(o, op, n), MovePoint(o, op, n + 1), 1)
  {
    if n == 0 {
      PointStarts(o, op);
    } else if n == 1 || n == 3 {
      PointReads(o, op);
    } else if n == 2 {
      PointMarks(o, op);
    } else if n == 4 {
      PointReadsDestination(o, op);
    } else if n == 5 {
      PointChecks(o, op);
    } else if n == 6 {
      PointCopies(o, op);
    } else {
      PointClears(o, op);
    }
  }

  /** Thread 1 makes the move, whatever thread 0 is at. */
  lemma {:induction false} MoveEntry(o: State, next: (State, State) -> bool, a: State, op: Op, n: nat)
    requires Ready(o)
    requires HasBusySteps(next) && n <= 8 && !op.Idle? && Leads(next, a, MovePoint(o, op, 0))
    ensures Leads(next, a, MovePoint(o, op, n))
    decreases n
  {
    if n > 0 {
      MoveEntry(o, next, a, op, n - 1);
      assert next(MovePoint(o, op, n - 1), MovePoint(o, op, n)) by {
        MoveStep(o, op, n - 1);
        assert Busy(MovePoint(o, op, n));
      }
      LeadsOn(next, a, MovePoint(o, op, n - 1), MovePoint(o, op, n));
    }
  }

  /** The table after the move, with thread 0 at `op`. */
  function Moved(o: State, op: Op): State {
    Moving(o, op, NoHelp, COPY, CLEARED, true)
  }

  /** Thread 0's next point is all that changes. */
  lemma OpChanges(o: State, op: Op, op': Op)
    ensures Moved(o, op') == WithOp(Moved(o, op), 0, op')
  {
    TwoThreads(Thread(op, NoHelp), Thread(Walker(5), NoHelp), Thread(op', NoHelp));
  }

  lemma OpStays(o: State, op: Op, op': Op)
    requires Ready(o)
    ensures HasTable(W(), Moved(o, op)) && Moved(o, op') == WithOp(Moved(o, op), 0, op')
    ensures Moved(o, op).table[Cell(0, 0)] == COPY && Moved(o, op).table[Cell(1, 0)] == CLEARED
  {
    MovingHasTable(o, op, NoHelp, COPY, CLEARED, true);
    OpChanges(o, op, op');
  }

  /** The later slots hold what the filling put there. */
  lemma LaterSlots(o: State, op: Op, slot: nat)
    requires Ready(o)
    requires 1 <= slot < 4
    ensures Cell(0, slot) in Moved(o, op).table && Moved(o, op).table[Cell(0, slot)] == Word(0, 2 * slot + 1, false)
    ensures Cell(1, slot) in Moved(o, op).table && Moved(o, op).table[Cell(1, slot)] == Word(0, 2 * slot + 2, false)
  {
    assert Original(o, Cell(0, slot)) && Original(o, Cell(1, slot));
  }

  lemma PassReads1(o: State, slot: nat, watch: set<nat>)
    requires Ready(o)
    requires 1 <= slot < 4 && watch == Present(Moved(o, FindRead1(Q(o, false), slot)))
    ensures Step(W(), Moved(o, FindRead1(Q(o, false), slot)), Moved(o, FindRead2(Q(o, false), slot, 0, watch)), 0)
  {
    var op, op' := FindRead1(Q(o, false), slot), FindRead2(Q(o, false), slot, 0, watch);
    OpStays(o, op, op');
    LaterSlots(o, op, slot);
    assert FindFirst(W(), Moved(o, op), Moved(o, op'), 0);
  }

  lemma PassReads2(o: State, slot: nat, watch: set<nat>)
    requires Ready(o)
    requires 1 <= slot < 4
    ensures Step(W(), Moved(o, FindRead2(Q(o, false), slot, 0, watch)),
                      Moved(o, FindAgain1(Q(o, false), slot, 0, 0, watch)), 0)
  {
    var op, op' := FindRead2(Q(o, false), slot, 0, watch), FindAgain1(Q(o, false), slot, 0, 0, watch);
    OpStays(o, op, op');
    LaterSlots(o, op, slot);
    assert FindSecond(W(), Moved(o, op), Moved(o, op'), 0);
  }

  lemma PassReadsAgain(o: State, slot: nat, watch: set<nat>)
    requires Ready(o)
    requires 1 <= slot < 4
    ensures Step(W(), Moved(o, FindAgain1(Q(o, false), slot, 0, 0, watch)),
                      Moved(o, FindAgain2(Q(o, false), slot, 0, 0, 0, watch)), 0)
    ensures Step(W(), Moved(o, FindAgain2(Q(o, false), slot, 0, 0, 0, watch)),
                      Moved(o, FindRead1(Q(o, false), slot + 1)), 0)
  {
    var op1, op2 := FindAgain1(Q(o, false), slot, 0, 0, watch), FindAgain2(Q(o, false), slot, 0, 0, 0, watch);
    var op3 := FindRead1(Q(o, false), slot + 1);
    OpStays(o, op1, op2);
    LaterSlots(o, op1, slot);
    assert FindCounter1(W(), Moved(o, op1), Moved(o, op2), 0);
    OpStays(o, op2, op3);
    LaterSlots(o, op2, slot);
    assert FindCounter2(W(), Moved(o, op2), Moved(o, op3), 0);
  }

  /** In a later slot there is nothing to find: the find passes it. */
  lemma PassSlot(o: State, next: (State, State) -> bool, a: State, slot: nat)
    requires Ready(o)
    requires HasBusySteps(next) && 1 <= slot < 4 && Leads(next, a, Moved(o, FindRead1(Q(o, false), slot)))
    ensures Leads(next, a, Moved(o, FindRead1(Q(o, false), slot + 1)))
  {
    var q := Q(o, false);
    var s0 := Moved(o, FindRead1(q, slot));
    var watch := Present(s0);
    var s1, s2 := Moved(o, FindRead2(q, slot, 0, watch)), Moved(o, FindAgain1(q, slot, 0, 0, watch));
    var s3, s4 := Moved(o, FindAgain2(q, slot, 0, 0, 0, watch)), Moved(o, FindRead1(q, slot + 1));
    assert next(s0, s1) by { PassReads1(o, slot, watch); assert Busy(s1); }
    assert next(s1, s2) by { PassReads2(o, slot, watch); assert Busy(s2); }
    assert next(s2, s3) && next(s3, s4) by { PassReadsAgain(o, slot, watch); assert Busy(s3) && Busy(s4); }
    LeadsOn(next, a, s0, s1);
    LeadsOn(next, a, s1, s2);
    LeadsOn(next, a, s2, s3);
    LeadsOn(next, a, s3, s4);
  }

  lemma ReadsFirst(o: State, q: Query, watch: set<nat>)
    requires Ready(o)
    requires q == Q(o, true) && watch == Present(o)
    ensures Step(W(), MovePoint(o, FindRead1(q, 0), 0), MovePoint(o, FindRead2(q, 0, 0, watch), 0), 0)
  {
    var s, s' := MovePoint(o, FindRead1(q, 0), 0), MovePoint(o, FindRead2(q, 0, 0, watch), 0);
    MovingHasTable(o, FindRead1(q, 0), NoHelp, EMPTY, ENTRY_2, false);
    assert s'.threads == WithOp(s, 0, FindRead2(q, 0, 0, watch)).threads;
    assert FindFirst(W(), s, s', 0);
  }

  lemma PassFirstAgain(o: State, watch: set<nat>)
    requires Ready(o)
    ensures Step(W(), Moved(o, FindRead2(Q(o, true), 0, 0, watch)), Moved(o, FindAgain1(Q(o, true), 0, 0, 1, watch)), 0)
    ensures Step(W(), Moved(o, FindAgain1(Q(o, true), 0, 0, 1, watch)),
                      Moved(o, FindAgain2(Q(o, true), 0, 0, 1, 1, watch)), 0)
    ensures Step(W(), Moved(o, FindAgain2(Q(o, true), 0, 0, 1, 1, watch)), Moved(o, FindRead1(Q(o, false), 1)), 0)
  {
    var op1, op2 := FindRead2(Q(o, true), 0, 0, watch), FindAgain1(Q(o, true), 0, 0, 1, watch);
    var op3, op4 := FindAgain2(Q(o, true), 0, 0, 1, 1, watch), FindRead1(Q(o, false), 1);
    OpStays(o, op1, op2);
    assert FindSecond(W(), Moved(o, op1), Moved(o, op2), 0);
    OpStays(o, op2, op3);
    assert FindCounter1(W(), Moved(o, op2), Moved(o, op3), 0);
    OpStays(o, op3, op4);
    assert FindCounter2(W(), Moved(o, op3), Moved(o, op4), 0);
  }

  /** The find reads (0, 0) before the move and (1, 0) after it, and passes the slot. */
  lemma PassFirst(o: State, next: (State, State) -> bool)
    requires Ready(o)
    requires HasBusySteps(next)
    ensures Leads(next, MovePoint(o, FindRead1(Q(o, true), 0), 0), Moved(o, FindRead1(Q(o, false), 1)))
  {
    var q, watch := Q(o, true), Present(o);
    var op := FindRead2(q, 0, 0, watch);
    var a, s0 := MovePoint(o, FindRead1(q, 0), 0), MovePoint(o, op, 0);
    LeadsNow(next, a);
    assert next(a, s0) by { ReadsFirst(o, q, watch); assert Busy(s0); }
    LeadsOn(next, a, a, s0);
    MoveEntry(o, next, a, op, 8);
    var s1, s2 := Moved(o, op), Moved(o, FindAgain1(q, 0, 0, 1, watch));
    var s3, s4 := Moved(o, FindAgain2(q, 0, 0, 1, 1, watch)), Moved(o, FindRead1(Q(o, false), 1));
    assert next(s1, s2) && next(s2, s3) && next(s3, s4) by {
      PassFirstAgain(o, watch);
      assert Busy(s2) && Busy(s3) && Busy(s4);
    }
    LeadsOn(next, a, s1, s2);
    LeadsOn(next, a, s2, s3);
    LeadsOn(next, a, s3, s4);
  }

  /** The find of key "x" has begun. */
  function Begun(o: State): State {
    MovePoint(o, FindRead1(Q(o, true), 0), 0)
  }

  lemma BeginChangesOp(o: State)
    requires Ready(o)
    ensures HasTable(W(), o) && Begun(o) == WithOp(o, 0, FindRead1(Q(o, true), 0))
  {
    var s, s' := o, Begun(o);
    assert s'.table == s.table;
    assert s.threads[0 := Thread(FindRead1(Q(o, true), 0), NoHelp)] == s'.threads;
  }

  lemma FindBegins(o: State)
    requires Ready(o)
    ensures FindBegin(W(), o, Begun(o), 0) && Step(W(), o, Begun(o), 0)
  {
    Sizes();
    BeginChangesOp(o);
    var w, key := W(), "x";
    assert Q(o, true)
        == Query(w.params.md5(key), w.params.Bucket1(key), w.params.Bucket2(key), false, Present(o), true);
    assert FindBegin(w, o, Begun(o), 0);
  }

  lemma FindEnds(o: State)
    requires Ready(o)
    ensures Step(W(), Moved(o, FindRead1(Q(o, false), 4)), Moved(o, Idle(8)), 0)
  {
    OpStays(o, FindRead1(Q(o, false), 4), Idle(8));
    assert FindFirst(W(), Moved(o, FindRead1(Q(o, false), 4)), Moved(o, Idle(8)), 0);
  }

  /** From the call of the find to its last step, thread 0 is in it. */
  lemma WholeFind(o: State, next: (State, State) -> bool)
    requires Ready(o)
    requires HasBusySteps(next)
    ensures Leads(next, Begun(o), Moved(o, FindRead1(Q(o, false), 4)))
  {
    PassFirst(o, next);
    PassSlot(o, next, Begun(o), 1);
    PassSlot(o, next, Begun(o), 2);
    PassSlot(o, next, Begun(o), 3);
  }

  /** The part in which the find is under way. */
  lemma During(o: State) returns (d: seq<State>)
    requires Ready(o)
    ensures |d| > 1 && d[0] == Begun(o) && d[|d| - 1] == Moved(o, FindRead1(Q(o, false), 4))
    ensures forall i | 0 <= i < |d| - 1 :: Next(W(), d[i], d[i + 1])
    ensures forall i | 0 <= i < |d| :: Busy(d[i])
  {
    var next := (s: State, s': State) => Next(W(), s, s') && Busy(s');
    assert HasBusySteps(next);
    WholeFind(o, next);
    d :| Path(next, d, Begun(o), Moved(o, FindRead1(Q(o, false), 4)));
    forall i | 0 <= i < |d| - 1
      ensures Next(W(), d[i], d[i + 1])
    {
      assert next(d[i], d[i + 1]);
    }
    forall i | 0 <= i < |d|
      ensures Busy(d[i])
    {
      if i > 0 {
        assert next(d[i - 1], d[i - 1 + 1]);
      }
    }
  }

  /** Entry 2 is in the filter when the find begins, and still when it ends. */
  lemma StillThere(o: State)
    requires Ready(o)
    ensures var q := Q(o, true); 2 in q.start && Matches(W(), Begun(o), q, 0, 2)
    ensures 2 !in Moved(o, Idle(8)).removed && At(Moved(o, Idle(8)), Cell(0, 0)).ptr == 2
  {
    OpStays(o, Idle(8), Idle(8));
  }

  lemma WholeRun() returns (o: State, run: seq<State>, b: nat)
    ensures Ready(o) && IsRun(W(), run) && b + 1 < |run|
    ensures run[b] == o && run[b + 1] == Begun(o) && run[|run| - 1] == Moved(o, Idle(8))
    ensures forall i | b < i < |run| - 1 :: Busy(run[i])
  {
    var c := Before();
    o := c[|c| - 1];
    var d := During(o);
    FindBegins(o);
    FindEnds(o);
    run := Joined(c, d, Moved(o, Idle(8)));
    b := |c| - 1;
    forall i | b < i < |run| - 1
      ensures Busy(run[i])
    {
      assert run[i] == d[i - |c|];
    }
  }

  /**
    A find that begins with a matching entry in the filter, ends with it there,
    has it never removed, and still reports that it found nothing.
   */
  lemma FalseMiss() returns (run: seq<State>, b: nat)
    ensures W().Ok() && IsRun(W(), run) && b + 1 < |run|
    ensures 0 in run[b].threads && FindBegin(W(), run[b], run[b + 1], 0)
    ensures 0 in run[b + 1].threads && run[b + 1].threads[0].op.FindRead1?
    ensures var q := run[b + 1].threads[0].op.q;
            !q.forRemove && 2 in q.start && Matches(W(), run[b + 1], q, 0, 2)
    ensures forall i | b < i < |run| - 1 :: Busy(run[i])
    ensures var last := run[|run| - 1];
            && 0 in last.threads && last.threads[0].op == Idle(2 * SLOTS)
            && 2 !in last.removed && At(last, Cell(0, 0)).ptr == 2
  {
    var o;
    o, run, b := WholeRun();
    assert W().Ok() by { Sizes(); }
    FindBegins(o);
    StillThere(o);
  }
}
