/**
  The beginning of two runs of the lock-free filter, step by step: a table is
  filled, an insert starts to relocate, and meanwhile an entry on its path is removed.
 */
module LockFreeRun {
  import opened Bits
  import opened HashIndex
  import opened Words
  import opened LockFreeModel
  import opened Chains

  // ----- a table of two buckets -----

  function Hash(s: string): nat {
    if s == "f" || s == "g" then 1 else 0
  }

  function Fingerprint(key: string): string {
    if key == "x" then "f" else "g"
  }

  /** Entry 2 is the one of key "x"; all others are of key "k". */
  function EntryFingerprint(e: nat): string {
    if e == 2 then "f" else "g"
  }

  function Destination(c: Cell, e: nat): Cell {
    Cell(Alternate(2, c.bucket, 1), c.slot)
  }

  function W(): World {
    World(Params(2, Hash, Fingerprint), EntryFingerprint, Destination)
  }

  lemma Sizes()
    ensures W().Ok()
    ensures Alternate(2, 0, 1) == 1 && Alternate(2, 1, 1) == 0
    ensures forall key: string | key == "k" || key == "x" ::
              W().params.Bucket1(key) == 0 && W().params.Bucket2(key) == 1
    ensures W().Movable("f") && W().Movable("g")
  {
    assert Pow2(1) == 2;
    assert IsPow2(2);
    assert Xor(0, 1) == 1 && Xor(1, 1) == 0;
  }

  // ----- chains of steps -----

  /** Thread 0 is in the middle of a call. */
  ghost predicate Busy(s: State) {
    0 in s.threads && !s.threads[0].op.Idle?
  }

  /** `next` has all steps of the filter; keeping it a variable keeps them folded. */
  ghost predicate HasSteps(next: (State, State) -> bool) {
    forall s, s', t | Step(W(), s, s', t) :: next(s, s')
  }

  ghost predicate HasBusySteps(next: (State, State) -> bool) {
    forall s, s', t | Step(W(), s, s', t) && Busy(s') :: next(s, s')
  }

  // ----- two threads, and two cells of a table -----

  lemma TwoThreads(a: Thread, b: Thread, c: Thread)
    ensures map[0 := a, 1 := b][0 := c] == map[0 := c, 1 := b]
    ensures map[0 := a, 1 := b][1 := c] == map[0 := a, 1 := c]
  {
  }

  lemma TwoCells(t: map<Cell, Word>, c: Cell, d: Cell, a: Word, b: Word, word: Word)
    requires c != d
    ensures t[c := a][d := b][c := word] == t[c := word][d := b]
    ensures t[c := a][d := b][d := word] == t[c := a][d := word]
  {
  }

  /** A helper's copy into an empty cell. */
  lemma CopyStep(w: World, s: State, s': State, t: nat, c: Cell, d: Cell, ptr1: Word, ptr2: Word)
    requires w.params.Valid() && HasTable(w, s) && !s.aborted && t in s.threads
    requires s.threads[t].help == Copy(c, ptr1, ptr2) && w.other(c, ptr1.ptr) == d && w.Valid(d) && s.table[d] == ptr2
    requires Max(ptr1.counter, ptr2.counter) < MAX_COUNTER
    requires s' == WithHelp(WriteCell(s, d, Word(Max(ptr1.counter, ptr2.counter) + 1, ptr1.ptr, false)),
                            t, Clear(c, ptr1))
                   .(moved := s.moved + {(c, ptr1)})
    ensures Step(w, s, s', t)
  {
    assert HelpCopy(w, s, s', t);
  }

  // ----- filling the table -----

  predicate Holds(s: State, c: Cell, word: Word) {
    c in s.table && s.table[c] == word
  }

  function EmptyTable(): (t: map<Cell, Word>)
    ensures forall c | InTable(c) :: c in t
    ensures forall c | c in t :: t[c] == EMPTY
  {
    map b: nat, slot: nat | b < 2 && slot < 4 :: Cell(b, slot) := EMPTY
  }

  /** The place of a cell in the order of an insert's scan. */
  function Rank(c: Cell): nat {
    2 * c.slot + c.bucket
  }

  function FilledTable(n: nat): map<Cell, Word> {
    if n == 0 then EmptyTable() else FilledTable(n - 1)[ScanCell(0, 1, n - 1) := Word(0, n, false)]
  }

  function Entries(n: nat): set<nat> {
    if n == 0 then {} else Entries(n - 1) + {n}
  }

  /** Entries go into the lanes two by two. */
  function Infos(n: nat): map<nat, Info> {
    if n == 0 then map[] else Infos(n - 1)[n := Info(ScanCell(0, 1, n - 1).slot, 0, 1)]
  }

  predicate InTable(c: Cell) {
    c.bucket < 2 && c.slot < 4
  }

  /** Each cell of the scan holds the entry that came with it. */
  predicate Contains(n: nat, c: Cell) {
    c in FilledTable(n) && FilledTable(n)[c] == if Rank(c) < n then Word(0, Rank(c) + 1, false) else EMPTY
  }

  lemma RankOfScan(c: Cell, k: nat)
    requires InTable(c)
    ensures Rank(c) == k <==> c == ScanCell(0, 1, k)
  {
  }

  lemma {:induction false} FilledCell(n: nat, c: Cell)
    requires n <= 8 && InTable(c)
    ensures Contains(n, c)
  {
    if n > 0 {
      FilledCell(n - 1, c);
      RankOfScan(c, n - 1);
    }
  }

  lemma FilledCells(n: nat)
    requires n <= 8
    ensures forall c | InTable(c) :: c in FilledTable(n)
    ensures forall c | InTable(c) :: Contains(n, c)
  {
    forall c | InTable(c)
      ensures c in FilledTable(n) && Contains(n, c)
    {
      FilledCell(n, c);
    }
  }

  lemma {:induction false} EntriesAre(n: nat)
    ensures forall e: nat :: e in Entries(n) <==> 1 <= e <= n
    ensures forall e: nat :: e in Infos(n) <==> 1 <= e <= n
  {
    if n > 0 {
      EntriesAre(n - 1);
    }
  }

  /** The first n slots hold entries 1 to n; both threads are idle. */
  function Filled(n: nat, last: nat): State {
    State(FilledTable(n),
          map[0 := Thread(Idle(last), NoHelp), 1 := Thread(Idle(0), NoHelp)],
          false,
          Entries(n), Infos(n),
          {}, {})
  }

  /** ... and thread t is about to read the k-th slot, to insert entry n + 1. */
  function Scanning(n: nat, last: nat, t: nat, k: nat): State
    requires t <= 1
  {
    var s := Filled(n, last);
    WithOp(s, t, InsertRead(n + 1, 0, 1, k, false)).(addresses := s.addresses + {n + 1})
  }

  lemma KeyOfEntry(n: nat, key: string)
    requires n <= 8 && key == if n == 1 then "x" else "k"
    ensures W().params.md5(key) == W().fingerprint(n + 1)
    ensures W().params.Bucket1(key) == 0 && W().params.Bucket2(key) == 1
  {
    Sizes();
  }

  lemma InsertStarts(s: State, t: nat, key: string, entry: nat)
    requires HasTable(W(), s) && !s.aborted && t in s.threads && s.threads[t].op.Idle? && s.threads[t].help.NoHelp?
    requires entry != NULL && entry !in s.addresses && W().params.md5(key) == W().fingerprint(entry)
    requires W().params.Bucket1(key) == 0 && W().params.Bucket2(key) == 1
    ensures Step(W(), s, WithOp(s, t, InsertRead(entry, 0, 1, 0, false)).(addresses := s.addresses + {entry}), t)
  {
    assert InsertBegin(W(), s, WithOp(s, t, InsertRead(entry, 0, 1, 0, false))
                               .(addresses := s.addresses + {entry}), t);
  }

  lemma StartInsert(n: nat, last: nat, t: nat, key: string)
    requires n <= 8 && t <= 1 && key == if n == 1 then "x" else "k"
    ensures Step(W(), Filled(n, last), Scanning(n, last, t, 0), t)
  {
    KeyOfEntry(n, key);
    FilledCells(n);
    EntriesAre(n);
    assert HasTable(W(), Filled(n, last));
    InsertStarts(Filled(n, last), t, key, n + 1);
  }

  lemma ReadsFull(s: State, t: nat, entry: nat, k: nat, ptr: nat)
    requires HasTable(W(), s) && !s.aborted && t in s.threads
    requires s.threads[t] == Thread(InsertRead(entry, 0, 1, k, false), NoHelp)
    requires k < 8 && Holds(s, ScanCell(0, 1, k), Word(0, ptr, false)) && ptr != NULL
    ensures Step(W(), s, WithOp(s, t, InsertRead(entry, 0, 1, k + 1, false)), t)
  {
    assert InsertReadSlot(W(), s, WithOp(s, t, InsertRead(entry, 0, 1, k + 1, false)), t);
  }

  lemma ReadsEmpty(s: State, t: nat, entry: nat, k: nat)
    requires HasTable(W(), s) && !s.aborted && t in s.threads
    requires s.threads[t] == Thread(InsertRead(entry, 0, 1, k, false), NoHelp)
    requires k < 8 && Holds(s, ScanCell(0, 1, k), EMPTY)
    ensures Step(W(), s, WithOp(s, t, InsertCas(entry, 0, 1, k, EMPTY)), t)
  {
    assert InsertReadSlot(W(), s, WithOp(s, t, InsertCas(entry, 0, 1, k, EMPTY)), t);
  }

  lemma ScanMoves(n: nat, last: nat, t: nat, k: nat)
    requires t <= 1
    ensures WithOp(Scanning(n, last, t, k), t, InsertRead(n + 1, 0, 1, k + 1, false)) == Scanning(n, last, t, k + 1)
  {
    assert WithOp(Scanning(n, last, t, k), t, InsertRead(n + 1, 0, 1, k + 1, false)).threads
        == Scanning(n, last, t, k + 1).threads;
  }

  lemma ScanHolds(n: nat, last: nat, t: nat, k: nat)
    requires k < n <= 8 && t <= 1
    ensures HasTable(W(), Scanning(n, last, t, k))
    ensures Holds(Scanning(n, last, t, k), ScanCell(0, 1, k), Word(0, k + 1, false))
  {
    FilledCells(n);
    assert Contains(n, ScanCell(0, 1, k)) && Rank(ScanCell(0, 1, k)) == k;
  }

  lemma ScanThread(n: nat, last: nat, t: nat, k: nat)
    requires t <= 1
    ensures var s := Scanning(n, last, t, k);
            !s.aborted && t in s.threads && s.threads[t] == Thread(InsertRead(n + 1, 0, 1, k, false), NoHelp)
  {
  }

  lemma ScanStep(n: nat, last: nat, t: nat, k: nat)
    requires k < n <= 8 && t <= 1
    ensures Step(W(), Scanning(n, last, t, k), Scanning(n, last, t, k + 1), t)
  {
    ScanHolds(n, last, t, k);
    ScanThread(n, last, t, k);
    ReadsFull(Scanning(n, last, t, k), t, n + 1, k, k + 1);
    ScanMoves(n, last, t, k);
  }

  lemma ScanStarts(next: (State, State) -> bool, n: nat, last: nat, t: nat)
    requires HasSteps(next) && n <= 8 && t <= 1
    ensures next(Filled(n, last), Scanning(n, last, t, 0))
  {
    StartInsert(n, last, t, if n == 1 then "x" else "k");
  }

  lemma ScanSteps(next: (State, State) -> bool, n: nat, last: nat, t: nat, k: nat)
    requires HasSteps(next) && k < n <= 8 && t <= 1
    ensures next(Scanning(n, last, t, k), Scanning(n, last, t, k + 1))
  {
    ScanStep(n, last, t, k);
  }

  /** Thread t begins an insert and passes the n full slots. */
  lemma {:induction false} ScanPast(next: (State, State) -> bool, a: State, n: nat, last: nat, t: nat, k: nat)
    requires HasSteps(next) && k <= n <= 8 && t <= 1 && Leads(next, a, Filled(n, last))
    ensures Leads(next, a, Scanning(n, last, t, k))
    decreases k
  {
    if k == 0 {
      ScanStarts(next, n, last, t);
      LeadsOn(next, a, Filled(n, last), Scanning(n, last, t, 0));
    } else {
      ScanPast(next, a, n, last, t, k - 1);
      ScanOn(next, a, n, last, t, k - 1);
    }
  }

  lemma ScanOn(next: (State, State) -> bool, a: State, n: nat, last: nat, t: nat, k: nat)
    requires HasSteps(next) && k < n <= 8 && t <= 1 && Leads(next, a, Scanning(n, last, t, k))
    ensures Leads(next, a, Scanning(n, last, t, k + 1))
  {
    ScanSteps(next, n, last, t, k);
    LeadsOn(next, a, Scanning(n, last, t, k), Scanning(n, last, t, k + 1));
  }

  /** Thread 0 is about to put entry n + 1 into the n-th slot. */
  function Storing(n: nat, last: nat): State {
    WithOp(Scanning(n, last, 0, n), 0, InsertCas(n + 1, 0, 1, n, EMPTY))
  }

  lemma SeesEmpty(n: nat, last: nat)
    requires n < 8
    ensures Step(W(), Scanning(n, last, 0, n), Storing(n, last), 0)
  {
    FilledCells(n);
    assert Contains(n, ScanCell(0, 1, n)) && Rank(ScanCell(0, 1, n)) == n;
    assert HasTable(W(), Scanning(n, last, 0, n));
    ScanThread(n, last, 0, n);
    ReadsEmpty(Scanning(n, last, 0, n), 0, n + 1, n);
  }

  lemma StoresEntry(n: nat, last: nat)
    requires n < 8
    ensures Step(W(), Storing(n, last), Filled(n + 1, 1), 0)
  {
    FilledCells(n);
    var s, s' := Storing(n, last), Filled(n + 1, 1);
    var cell := ScanCell(0, 1, n);
    assert Contains(n, cell) && Rank(cell) == n;
    var t := WithOp(WriteCell(s, cell, Word(0, n + 1, false)), 0, Idle(1))
             .(info := s.info[n + 1 := Info(cell.slot, 0, 1)]);
    assert t.threads == s'.threads;
    assert t == s';
    assert HasTable(W(), s);
    assert InsertSwap(W(), s, s', 0);
  }

  lemma {:induction false} Fill(next: (State, State) -> bool, n: nat)
    requires HasSteps(next) && n <= 8
    ensures Leads(next, Filled(0, 0), Filled(n, if n == 0 then 0 else 1))
  {
    if n == 0 {
      LeadsNow(next, Filled(0, 0));
    } else {
      var a, m, last := Filled(0, 0), n - 1, if n == 1 then 0 else 1;
      Fill(next, m);
      ScanPast(next, a, m, last, 0, m);
      assert next(Scanning(m, last, 0, m), Storing(m, last)) by {
        SeesEmpty(m, last);
      }
      LeadsOn(next, a, Scanning(m, last, 0, m), Storing(m, last));
      assert next(Storing(m, last), Filled(n, 1)) by {
        StoresEntry(m, last);
      }
      LeadsOn(next, a, Storing(m, last), Filled(n, 1));
    }
  }

  // ----- relocating, and removing the entry in the first slot -----

  /** The slot holds the entry it got in the filling. */
  predicate Original(s: State, c: Cell) {
    Holds(s, c, Word(0, Rank(c) + 1, false))
  }

  /** Both threads are idle, and the slot that is k-th in the order of a scan holds entry k + 1. */
  ghost predicate Full(s: State) {
    && HasTable(W(), s) && !s.aborted
    && (forall c | InTable(c) :: Original(s, c))
    && s.threads == map[0 := Thread(Idle(1), NoHelp), 1 := Thread(Idle(0), NoHelp)]
    && (forall e | e in s.addresses :: e <= 8)
    && 2 in s.info && s.info[2] == Info(0, 0, 1)
    && s.removed == {} && s.moved == {}
  }

  lemma FilledIsFull(n: nat)
    requires n == 8
    ensures Full(Filled(n, 1))
  {
    EntriesAre(n);
    EntryTwo(n);
    FilledHolds(n);
  }

  lemma FilledHolds(n: nat)
    requires n == 8
    ensures HasTable(W(), Filled(n, 1))
    ensures forall c | InTable(c) :: Original(Filled(n, 1), c)
  {
    FilledCells(n);
    forall c | InTable(c)
      ensures Original(Filled(n, 1), c)
    {
      assert Contains(n, c);
    }
  }

  lemma {:induction false} EntryTwo(n: nat)
    requires n >= 2
    ensures 2 in Infos(n) && Infos(n)[2] == Info(0, 0, 1)
  {
    if n > 2 {
      EntryTwo(n - 1);
    }
  }

  function Route(n: nat): seq<nat> {
    if n == 0 then NoRoute() else if n == 1 then NoRoute()[0 := 0] else NoRoute()[0 := 0][1 := 1]
  }

  /**
    Thread 1's points while it relocates lane 0, to insert entry 9: it looks at
    (0, 0), at (1, 0), at (0, 0) again, back at (1, 0), at (0, 0); then it moves.
   */
  function Walker(n: nat): Op {
    if n == 0 then Discover(9, 0, 1, Walk(ORDER, 0, 0, Route(0)), 0)
    else if n == 1 then Discover(9, 0, 1, Walk(ORDER, 0, 1, Route(1)), 1)
    else if n == 2 then Discover(9, 0, 1, Walk(ORDER, 0, 0, Route(2)), 2)
    else if n == 3 then Back(9, 0, 1, Walk(ORDER, 0, 0, Route(2)), 1, 1, false)
    else if n == 4 then BackDest(9, 0, 1, Walk(ORDER, 0, 0, Route(2)), 1, 1, 2)
    else Back(9, 0, 1, Walk(ORDER, 0, 0, Route(2)), 1, 0, false)
  }

  lemma WalkerOk(n: nat)
    ensures Walker(n).walk.Ok(2)
  {
  }

  /** A full table, with the two threads at `op` and `op1`, thread 1 in the insert of entry 9. */
  function Both(s: State, op: Op, op1: Op): State {
    s.(threads := map[0 := Thread(op, NoHelp), 1 := Thread(op1, NoHelp)], addresses := s.addresses + {9})
  }

  /** The slot (0, 0) is empty again. */
  function Opened(s: State, op: Op, op1: Op): State {
    WriteCell(Both(s, op, op1), Cell(0, 0), EMPTY).(removed := {1})
  }

  const ENTRY_1 := Word(0, 1, false)
  const ENTRY_2 := Word(0, 2, false)

  lemma BothSteps(s: State, op: Op, op1: Op, op': Op)
    ensures WithOp(Both(s, op, op1), 0, op') == Both(s, op', op1)
    ensures WithOp(Both(s, op, op1), 1, op') == Both(s, op, op')
    ensures WithOp(Opened(s, op, op1), 1, op') == Opened(s, op, op')
  {
    TwoThreads(Thread(op, NoHelp), Thread(op1, NoHelp), Thread(op', NoHelp));
  }

  lemma FirstCells(s: State)
    requires Full(s)
    ensures Holds(s, Cell(0, 0), ENTRY_1) && Holds(s, Cell(1, 0), ENTRY_2)
  {
    assert Original(s, Cell(0, 0)) && Original(s, Cell(1, 0));
  }

  lemma BothTable(s: State, op: Op, op1: Op)
    requires Full(s)
    ensures HasTable(W(), Both(s, op, op1)) && HasTable(W(), Opened(s, op, op1))
    ensures Holds(Both(s, op, op1), Cell(0, 0), ENTRY_1)
    ensures Holds(Opened(s, op, op1), Cell(0, 0), EMPTY) && Holds(Opened(s, op, op1), Cell(1, 0), ENTRY_2)
  {
    FirstCells(s);
  }

  /** Thread 1 has passed all slots. */
  function Asking(s: State): State {
    Both(s, Idle(1), InsertRead(9, 0, 1, 8, false))
  }

  lemma KickBegins(s: State)
    requires Full(s)
    ensures Step(W(), Asking(s), Both(s, Idle(1), Walker(0)), 1)
  {
    OrderOk();
    BothTable(s, Idle(1), InsertRead(9, 0, 1, 8, false));
    BothSteps(s, Idle(1), InsertRead(9, 0, 1, 8, false), StartWalk(9, 0, 1, ORDER, 0));
    assert InsertReadSlot(W(), Asking(s), Both(s, Idle(1), Walker(0)), 1);
  }

  /** Thread 1 looks at (0, 0), where entry 1 still is. */
  lemma WalkStarts(s: State)
    requires Full(s)
    ensures Step(W(), Both(s, Idle(1), Walker(0)), Both(s, Idle(1), Walker(1)), 1)
  {
    FirstFurther();
    BothTable(s, Idle(1), Walker(0));
    BothSteps(s, Idle(1), Walker(0), Walker(1));
    assert PathLook(W(), Both(s, Idle(1), Walker(0)), Both(s, Idle(1), Walker(1)), 1);
  }

  lemma FirstFurther()
    ensures Walker(0).walk.Ok(2) && Further(W(), Walker(0), 1) == Walk(ORDER, 0, 1, Route(1))
  {
    Sizes();
    WalkerOk(0);
  }

  /** Thread 0 removes key "k", which matches the entry in (0, 0). */
  function K(s: State): Query {
    Query("g", 0, 1, true, Present(s), true)
  }

  lemma OpenBegins(s: State)
    requires Full(s)
    ensures Step(W(), Both(s, Idle(1), Walker(1)), Both(s, FindRead1(K(s), 0), Walker(1)), 0)
  {
    Sizes();
    var w, b := W(), Both(s, Idle(1), Walker(1));
    BothTable(s, Idle(1), Walker(1));
    BothSteps(s, Idle(1), Walker(1), FindRead1(K(s), 0));
    var key := "k";
    assert w.params.md5(key) == "g" && Present(s) == Present(b);
    assert K(s) == Query(w.params.md5(key), w.params.Bucket1(key), w.params.Bucket2(key), true, Present(b), true);
    assert FindBegin(w, b, Both(s, FindRead1(K(s), 0), Walker(1)), 0);
  }

  lemma OpenFinds(s: State, q: Query)
    requires Full(s) && q == K(s)
    ensures Step(W(), Both(s, FindRead1(q, 0), Walker(1)), Both(s, RemoveCas(q, 0, ENTRY_1), Walker(1)), 0)
  {
    BothTable(s, FindRead1(q, 0), Walker(1));
    BothSteps(s, FindRead1(q, 0), Walker(1), RemoveCas(q, 0, ENTRY_1));
    assert FindFirst(W(), Both(s, FindRead1(q, 0), Walker(1)), Both(s, RemoveCas(q, 0, ENTRY_1), Walker(1)), 0);
  }

  lemma OpenSwaps(s: State, q: Query)
    requires Full(s) && q == K(s)
    ensures Step(W(), Both(s, RemoveCas(q, 0, ENTRY_1), Walker(1)), Opened(s, Idle(1), Walker(1)), 0)
  {
    var op := RemoveCas(q, 0, ENTRY_1);
    BothTable(s, op, Walker(1));
    BothSteps(s, op, Walker(1), Idle(1));
    assert {} + {ENTRY_1.ptr} == {1};
    assert LocationCell(q, 0) == Cell(0, 0);
    assert RemoveSwap(W(), Both(s, op, Walker(1)), Opened(s, Idle(1), Walker(1)), 0);
  }

  /** It goes on to (1, 0), and finds (0, 0) empty. */
  lemma WalkEnds(s: State, n: nat)
    requires Full(s) && 1 <= n <= 2
    ensures Step(W(), Opened(s, Idle(1), Walker(n)), Opened(s, Idle(1), Walker(n + 1)), 1)
  {
    Sizes();
    WalkerOk(n);
    BothTable(s, Idle(1), Walker(n));
    BothSteps(s, Idle(1), Walker(n), Walker(n + 1));
    assert n == 1 ==> Further(W(), Walker(1), 2) == Walk(ORDER, 0, 0, Route(2));
    assert PathLook(W(), Opened(s, Idle(1), Walker(n)), Opened(s, Idle(1), Walker(n + 1)), 1);
  }

  /** Back over the path, its source is entry 2 in (1, 0). */
  lemma WalksBack(s: State)
    requires Full(s)
    ensures Step(W(), Opened(s, Idle(1), Walker(3)), Opened(s, Idle(1), Walker(4)), 1)
  {
    WalkerOk(3);
    BothTable(s, Idle(1), Walker(3));
    BothSteps(s, Idle(1), Walker(3), Walker(4));
    assert SourceCell(Walker(3)) == Cell(1, 0);
    assert SourceLook(W(), Opened(s, Idle(1), Walker(3)), Opened(s, Idle(1), Walker(4)), 1);
  }

  /** From the full table to the one in which the move is about to begin. */
  lemma WalkOn(next: (State, State) -> bool, a: State, s: State)
    requires HasSteps(next) && Full(s) && Leads(next, a, Asking(s))
    ensures Leads(next, a, Opened(s, Idle(1), Walker(4)))
  {
    var q := K(s);
    var s0, s1 := Both(s, Idle(1), Walker(0)), Both(s, Idle(1), Walker(1));
    var s2, s3 := Both(s, FindRead1(q, 0), Walker(1)), Both(s, RemoveCas(q, 0, ENTRY_1), Walker(1));
    assert next(Asking(s), s0) by { KickBegins(s); }
    LeadsOn(next, a, Asking(s), s0);
    assert next(s0, s1) by { WalkStarts(s); }
    LeadsOn(next, a, s0, s1);
    assert next(s1, s2) by { OpenBegins(s); }
    LeadsOn(next, a, s1, s2);
    assert next(s2, s3) by { OpenFinds(s, q); }
    LeadsOn(next, a, s2, s3);
    assert next(s3, Opened(s, Idle(1), Walker(1))) by { OpenSwaps(s, q); }
    LeadsOn(next, a, s3, Opened(s, Idle(1), Walker(1)));
    Emptied(next, a, s);
  }

  lemma Emptied(next: (State, State) -> bool, a: State, s: State)
    requires HasSteps(next) && Full(s) && Leads(next, a, Opened(s, Idle(1), Walker(1)))
    ensures Leads(next, a, Opened(s, Idle(1), Walker(4)))
  {
    var s1, s2 := Opened(s, Idle(1), Walker(1)), Opened(s, Idle(1), Walker(2));
    var s3, s4 := Opened(s, Idle(1), Walker(3)), Opened(s, Idle(1), Walker(4));
    assert next(s1, s2) by { WalkEnds(s, 1); }
    LeadsOn(next, a, s1, s2);
    assert next(s2, s3) by { WalkEnds(s, 2); }
    LeadsOn(next, a, s2, s3);
    assert next(s3, s4) by { WalksBack(s); }
    LeadsOn(next, a, s3, s4);
  }

  /** The last state of this beginning: (0, 0) is empty, and thread 1 is about to look at it. */
  ghost predicate Ready(s: State) {
    && HasTable(W(), s) && !s.aborted
    && Holds(s, Cell(0, 0), EMPTY) && Holds(s, Cell(1, 0), ENTRY_2)
    && (forall c | InTable(c) && c.slot > 0 :: Original(s, c))
    && s.threads == map[0 := Thread(Idle(1), NoHelp), 1 := Thread(Walker(4), NoHelp)]
    && (forall e | e in s.addresses :: e <= 9)
    && 2 in s.info && s.info[2] == Info(0, 0, 1)
    && s.removed == {1} && s.moved == {}
  }

  lemma OpenedIsReady(s: State)
    requires Full(s)
    ensures Ready(Opened(s, Idle(1), Walker(4)))
  {
    BothTable(s, Idle(1), Walker(4));
  }

  lemma ReachFull(next: (State, State) -> bool, n: nat)
    requires HasSteps(next) && n == 8
    ensures Full(Filled(n, 1)) && Leads(next, Filled(0, 0), Asking(Filled(n, 1)))
  {
    FilledIsFull(n);
    Fill(next, n);
    ScanPast(next, Filled(0, 0), n, 1, 1, n);
    BothSteps(Filled(n, 1), Idle(1), Idle(0), InsertRead(9, 0, 1, 8, false));
    assert Scanning(n, 1, 1, n) == Asking(Filled(n, 1));
  }

  lemma ReachReady(next: (State, State) -> bool) returns (s: State)
    requires HasSteps(next)
    ensures Ready(s) && Leads(next, Filled(0, 0), s)
  {
    ReachFull(next, 8);
    var full :| Full(full) && Leads(next, Filled(0, 0), Asking(full));
    s := Opened(full, Idle(1), Walker(4));
    OpenedIsReady(full);
    WalkOn(next, Filled(0, 0), full);
  }

  lemma StartsEmpty()
    ensures Init(W(), Filled(0, 0))
  {
    FilledCells(0);
    assert HasTable(W(), Filled(0, 0));
  }

  /** A run up to there. */
  lemma Before() returns (c: seq<State>)
    ensures IsRun(W(), c) && Ready(c[|c| - 1])
  {
    var next := (s: State, s': State) => Next(W(), s, s');
    assert HasSteps(next);
    var last := ReachReady(next);
    c :| Path(next, c, Filled(0, 0), last);
    forall i | 0 <= i < |c| - 1
      ensures Next(W(), c[i], c[i + 1])
    {
      assert next(c[i], c[i + 1]);
    }
    StartsEmpty();
  }

  /** Three parts of a run put together. */
  lemma Joined(c: seq<State>, d: seq<State>, last: State) returns (run: seq<State>)
    requires IsRun(W(), c) && |d| > 0
    requires forall i | 0 <= i < |d| - 1 :: Next(W(), d[i], d[i + 1])
    requires Next(W(), c[|c| - 1], d[0]) && Next(W(), d[|d| - 1], last)
    ensures IsRun(W(), run) && run == c + d + [last]
    ensures run[|c| - 1] == c[|c| - 1] && run[|c|] == d[0] && run[|run| - 1] == last
  {
    run := c + d + [last];
    forall i | 0 <= i < |run| - 1
      ensures Next(W(), run[i], run[i + 1])
    {
      if i < |c| - 1 {
        assert Next(W(), c[i], c[i + 1]);
      } else if |c| <= i < |c| + |d| - 1 {
        assert Next(W(), d[i - |c|], d[i - |c| + 1]);
      }
    }
  }
}
