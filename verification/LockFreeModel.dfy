/**
  The lock-free filter as a transition system: any number of threads, each
  at some point of `insert`, `find`, `remove` or `help_relocate`. One step is
  one table read or one compare-and-swap, and steps are sequentially consistent.
 */
module LockFreeModel {
  import opened Bits
  import opened HashIndex
  import opened Words

  datatype Cell = Cell(bucket: nat, slot: nat)

  /**
    What a run takes as given. Addresses are not reused while a run lasts
    (nothing calls the routine that frees them), so the fingerprint an address
    will hold is a function of the address. `other(c, p)` is the cell that
    entry `p` moves to from cell `c`; `FollowsCode` says it is the code's.
   */
  datatype World = World(params: Params, fingerprint: nat -> string, other: (Cell, nat) -> Cell)
  {
    ghost predicate FollowsCode() {
      && params.Valid()
      && forall c, p :: other(c, p) == Cell(params.NextIndex(c.bucket, fingerprint(p)), c.slot)
    }

    ghost predicate Ok() {
      FollowsCode() && IsPow2(params.size)
    }

    predicate Valid(c: Cell) {
      c.bucket < params.size && c.slot < SLOTS
    }

    /** The two buckets of every entry with this fingerprint differ. */
    predicate Movable(fp: string)
      requires params.Valid()
    {
      params.hash(fp) % params.size != 0
    }
  }

  /** Where `help_relocate` is; `cell` is the source it was called on. */
  datatype Help =
    | NoHelp
    | Read1(cell: Cell, initiator: bool)
    | Mark(cell: Cell, ptr1: Word)
    | Read2(cell: Cell, initiator: bool, ptr1: Word)
    | Check(cell: Cell, initiator: bool, ptr1: Word, ptr2: Word)
    | Copy(cell: Cell, ptr1: Word, ptr2: Word)
    | Clear(cell: Cell, ptr1: Word)
    | SameEntry(cell: Cell, ptr1: Word)
    | Occupied(cell: Cell, ptr1: Word)

  /**
    The key a `find` looks for. `start` is history: the entries that were in
    the filter when the call began; `steady` is history too: every slot passed so
    far was passed with its first counter unchanged.
   */
  datatype Query = Query(fp: string, h1: nat, h2: nat, forRemove: bool, start: set<nat>, steady: bool)

  /** A call of `relocate` on the lane `order[turn]`, the bucket it is at, and the buckets it noted. */
  datatype Walk = Walk(order: seq<nat>, turn: nat, bucket: nat, route: seq<nat>)
  {
    predicate Ok(size: nat) {
      && IsOrder(order) && turn < SLOTS && bucket < size
      && |route| == MAX_KICKS && forall i | 0 <= i < MAX_KICKS :: route[i] < size
    }
  }

  /** A route just set to zeros. */
  function NoRoute(): (r: seq<nat>)
    ensures |r| == MAX_KICKS && forall i | 0 <= i < MAX_KICKS :: r[i] == 0
  {
    seq(MAX_KICKS, (i: nat) => 0)
  }

  /** Where a thread is in its current operation; `watch` is history like `start`, taken at the first read. */
  datatype Op =
    | Idle(result: nat)
    | InsertRead(entry: nat, h1: nat, h2: nat, k: nat, foundEmpty: bool)
    | InsertCas(entry: nat, h1: nat, h2: nat, k: nat, expected: Word)
    | Discover(entry: nat, h1: nat, h2: nat, walk: Walk, depth: nat)
    | Back(entry: nat, h1: nat, h2: nat, walk: Walk, top: nat, i: nat, again: bool)
    | BackDest(entry: nat, h1: nat, h2: nat, walk: Walk, top: nat, i: nat, ptr: nat)
    | FindRead1(q: Query, slot: nat)
    | FindRead2(q: Query, slot: nat, ts1: nat, watch: set<nat>)
    | FindAgain1(q: Query, slot: nat, ts1: nat, ts2: nat, watch: set<nat>)
    | FindAgain2(q: Query, slot: nat, ts1: nat, ts2: nat, ts1x: nat, watch: set<nat>)
    | RemoveCas(q: Query, location: nat, expected: Word)

  datatype Thread = Thread(op: Op, help: Help)

  /** History of an inserted entry: the lane it went into and its key's buckets. */
  datatype Info = Info(lane: nat, h1: nat, h2: nat)

  /**
    `table` and `threads` are what the program has; the rest is history. `info`
    has the entries whose inserting swap succeeded, `removed` those a remove's
    swap took out, `moved` the source words whose copy has been made.
   */
  datatype State = State(
    table: map<Cell, Word>,
    threads: map<nat, Thread>,
    aborted: bool,
    addresses: set<nat>,
    info: map<nat, Info>,
    removed: set<nat>,
    moved: set<(Cell, Word)>)

  ghost predicate HasTable(w: World, s: State) {
    forall c: Cell :: w.Valid(c) ==> c in s.table
  }

  ghost predicate Init(w: World, s: State) {
    && w.params.Valid()
    && HasTable(w, s)
    && (forall c | c in s.table :: s.table[c] == EMPTY)
    && (forall t | t in s.threads :: s.threads[t].op.Idle? && s.threads[t].help == NoHelp)
    && !s.aborted
    && s.addresses == {} && s.info == map[] && s.removed == {} && s.moved == {}
  }

  function WithOp(s: State, t: nat, op: Op): State
    requires t in s.threads
  {
    s.(threads := s.threads[t := s.threads[t].(op := op)])
  }

  function WithHelp(s: State, t: nat, help: Help): State
    requires t in s.threads
  {
    s.(threads := s.threads[t := s.threads[t].(help := help)])
  }

  function WriteCell(s: State, c: Cell, word: Word): State {
    s.(table := s.table[c := word])
  }

  // ----- insert -----

  /** The k-th slot an insert looks at: slot k/2 of the first or the second bucket. */
  function ScanCell(h1: nat, h2: nat, k: nat): Cell {
    Cell(if k % 2 == 0 then h1 else h2, k / 2)
  }

  ghost predicate InsertBegin(w: World, s: State, s': State, t: nat)
    requires w.params.Valid() && t in s.threads
  {
    && s.threads[t].op.Idle? && s.threads[t].help.NoHelp?
    && exists key: string, entry: nat ::
         && entry != NULL && entry !in s.addresses
         && w.fingerprint(entry) == w.params.md5(key)
         && s' == WithOp(s, t, InsertRead(entry, w.params.Bucket1(key), w.params.Bucket2(key), 0, false))
                  .(addresses := s.addresses + {entry})
  }

  ghost predicate InsertReadSlot(w: World, s: State, s': State, t: nat)
    requires HasTable(w, s) && t in s.threads
  {
    var op := s.threads[t].op;
    && op.InsertRead? && s.threads[t].help.NoHelp?
    && if op.k < 2 * SLOTS then
         var c := ScanCell(op.h1, op.h2, op.k);
         && w.Valid(c)
         && if s.table[c].ptr == NULL
            then s' == WithOp(s, t, InsertCas(op.entry, op.h1, op.h2, op.k, s.table[c]))
            else s' == WithOp(s, t, InsertRead(op.entry, op.h1, op.h2, op.k + 1, op.foundEmpty))
       else if op.foundEmpty then
         s' == WithOp(s, t, InsertRead(op.entry, op.h1, op.h2, 0, false))
       else
         exists order :: IsOrder(order) && s' == WithOp(s, t, StartWalk(op.entry, op.h1, op.h2, order, 0))
  }

  ghost predicate InsertSwap(w: World, s: State, s': State, t: nat)
    requires HasTable(w, s) && t in s.threads
  {
    var op := s.threads[t].op;
    && op.InsertCas? && s.threads[t].help.NoHelp?
    && var c := ScanCell(op.h1, op.h2, op.k);
    && w.Valid(c)
    && if s.table[c] == op.expected
       then s' == WithOp(WriteCell(s, c, Word(op.expected.counter, op.entry, false)), t, Idle(1))
                  .(info := s.info[op.entry := Info(c.slot, op.h1, op.h2)])
       else s' == WithOp(s, t, InsertRead(op.entry, op.h1, op.h2, op.k + 1, true))
  }

  // ----- relocate, as an insert calls it on one lane after the other -----

  function Retry(entry: nat, h1: nat, h2: nat): Op {
    InsertRead(entry, h1, h2, 0, false)
  }

  function StartWalk(entry: nat, h1: nat, h2: nat, order: seq<nat>, turn: nat): Op {
    Discover(entry, h1, h2, Walk(order, turn, h1, NoRoute()), 0)
  }

  /** This lane's path is too long: try the next lane, or give up. */
  function NextLane(op: Op): Op
    requires op.Discover?
  {
    if op.walk.turn + 1 < SLOTS then StartWalk(op.entry, op.h1, op.h2, op.walk.order, op.walk.turn + 1) else Idle(0)
  }

  /** Path discovery: look at the slot the path has come to. */
  ghost predicate PathLook(w: World, s: State, s': State, t: nat)
    requires HasTable(w, s) && t in s.threads
  {
    var op := s.threads[t].op;
    && op.Discover? && s.threads[t].help.NoHelp?
    && op.walk.Ok(w.params.size) && op.depth < MAX_KICKS
    && var c := Cell(op.walk.bucket, op.walk.order[op.walk.turn]);
       var ptr1 := s.table[c];
       if ptr1.mark then
         s' == WithHelp(s, t, Read1(c, false))
       else if ptr1.ptr == NULL then
         s' == WithOp(s, t, if op.depth == 0 then Retry(op.entry, op.h1, op.h2)
                            else Back(op.entry, op.h1, op.h2, op.walk, op.depth - 1, op.depth - 1, false))
       else if op.depth + 1 < MAX_KICKS then
         s' == WithOp(s, t, Discover(op.entry, op.h1, op.h2, Further(w, op, ptr1.ptr), op.depth + 1))
       else
         s' == WithOp(s, t, NextLane(op))
  }

  /** The path one bucket longer, past entry `p`. */
  function Further(w: World, op: Op, p: nat): Walk
    requires op.Discover? && op.walk.Ok(w.params.size) && op.depth < MAX_KICKS
  {
    var walk := op.walk;
    walk.(bucket := w.other(Cell(walk.bucket, walk.order[walk.turn]), p).bucket,
          route := walk.route[op.depth := walk.bucket])
  }

  /** The cell the loop back over the path looks at, the same one each time. */
  function SourceCell(op: Op): Cell
    requires (op.Back? || op.BackDest?) && op.walk.turn < |op.walk.order| && op.top < |op.walk.route|
  {
    Cell(op.walk.route[op.top], op.walk.order[op.walk.turn])
  }

  /** The loop back is done with its i-th round. */
  function BackNext(op: Op): Op
    requires op.Back? || op.BackDest?
  {
    if op.i == 0 then Retry(op.entry, op.h1, op.h2)
    else Back(op.entry, op.h1, op.h2, op.walk, op.top, op.i - 1, false)
  }

  /** The loop back looks at its source; marked, it helps once and looks again. */
  ghost predicate SourceLook(w: World, s: State, s': State, t: nat)
    requires HasTable(w, s) && t in s.threads
  {
    var op := s.threads[t].op;
    && op.Back? && s.threads[t].help.NoHelp?
    && op.walk.Ok(w.params.size) && op.top < MAX_KICKS
    && var c := SourceCell(op);
       var source := s.table[c];
       if source.mark && !op.again then
         s' == WithHelp(WithOp(s, t, op.(again := true)), t, Read1(c, false))
       else if source.ptr == NULL then
         s' == WithOp(s, t, BackNext(op))
       else
         s' == WithOp(s, t, BackDest(op.entry, op.h1, op.h2, op.walk, op.top, op.i, source.ptr))
  }

  /**
    It looks at its destination. If that is taken, path discovery starts over
    where it ended, with the route set to zeros; if not, the source is relocated.
   */
  ghost predicate DestLook(w: World, s: State, s': State, t: nat)
    requires HasTable(w, s) && t in s.threads
  {
    var op := s.threads[t].op;
    && op.BackDest? && s.threads[t].help.NoHelp?
    && op.walk.Ok(w.params.size) && op.top < MAX_KICKS
    && var c := SourceCell(op);
       var d := w.other(c, op.ptr);
       && w.Valid(d)
       && if s.table[d].ptr != NULL
          then s' == WithOp(s, t, Discover(op.entry, op.h1, op.h2, op.walk.(route := NoRoute()), op.i + 1))
          else s' == WithHelp(WithOp(s, t, BackNext(op)), t, Read1(c, true))
  }

  // ----- find and remove -----

  function Present(s: State): set<nat> {
    s.info.Keys - s.removed
  }

  ghost predicate FindBegin(w: World, s: State, s': State, t: nat)
    requires w.params.Valid() && t in s.threads
  {
    && s.threads[t].op.Idle? && s.threads[t].help.NoHelp?
    && exists key: string, forRemove: bool ::
         s' == WithOp(s, t, FindRead1(
           Query(w.params.md5(key), w.params.Bucket1(key), w.params.Bucket2(key), forRemove, Present(s), true), 0))
  }

  function Found(q: Query, location: nat, word: Word): Op {
    if q.forRemove then RemoveCas(q, location, word) else Idle(location)
  }

  function NotFound(q: Query): Op {
    Idle(if q.forRemove then 0 else 2 * SLOTS)
  }

  ghost predicate FindFirst(w: World, s: State, s': State, t: nat)
    requires HasTable(w, s) && t in s.threads
  {
    var op := s.threads[t].op;
    && op.FindRead1? && s.threads[t].help.NoHelp?
    && if op.slot >= SLOTS then
         s' == WithOp(s, t, NotFound(op.q))
       else
         var c := Cell(op.q.h1, op.slot);
         && w.Valid(c)
         && var ptr1 := s.table[c];
            if ptr1.ptr != NULL && ptr1.mark then
              s' == WithHelp(s, t, Read1(c, false))
            else if ptr1.ptr != NULL && op.q.fp == w.fingerprint(ptr1.ptr) then
              s' == WithOp(s, t, Found(op.q, op.slot, ptr1))
            else
              s' == WithOp(s, t, FindRead2(op.q, op.slot, ptr1.counter, Present(s)))
  }

  ghost predicate FindSecond(w: World, s: State, s': State, t: nat)
    requires HasTable(w, s) && t in s.threads
  {
    var op := s.threads[t].op;
    && op.FindRead2? && s.threads[t].help.NoHelp?
    && var c := Cell(op.q.h2, op.slot);
    && w.Valid(c)
    && var ptr2 := s.table[c];
       if ptr2.ptr != NULL && ptr2.mark then
         s' == WithHelp(WithOp(s, t, FindRead1(op.q, op.slot)), t, Read1(c, false))
       else if ptr2.ptr != NULL && op.q.fp == w.fingerprint(ptr2.ptr) then
         s' == WithOp(s, t, Found(op.q, op.slot + SLOTS, ptr2))
       else
         s' == WithOp(s, t, FindAgain1(op.q, op.slot, op.ts1, ptr2.counter, op.watch))
  }

  ghost predicate FindCounter1(w: World, s: State, s': State, t: nat)
    requires HasTable(w, s) && t in s.threads
  {
    var op := s.threads[t].op;
    && op.FindAgain1? && s.threads[t].help.NoHelp?
    && var c := Cell(op.q.h1, op.slot);
    && w.Valid(c)
    && s' == WithOp(s, t, FindAgain2(op.q, op.slot, op.ts1, op.ts2, s.table[c].counter, op.watch))
  }

  /** Whether the code thinks the first round may have missed the key. */
  predicate CheckCounter(ts1: int, ts2: int, ts1x: int, ts2x: int) {
    ts1x - ts1 >= 2 && ts2x - ts2 >= 2 && ts2x - ts1 >= 3
  }

  ghost predicate FindCounter2(w: World, s: State, s': State, t: nat)
    requires HasTable(w, s) && t in s.threads
  {
    var op := s.threads[t].op;
    && op.FindAgain2? && s.threads[t].help.NoHelp?
    && var c := Cell(op.q.h2, op.slot);
    && w.Valid(c)
    && if CheckCounter(op.ts1, op.ts2, op.ts1x, s.table[c].counter)
       then s' == WithOp(s, t, FindRead1(op.q, op.slot))
       else s' == WithOp(s, t, FindRead1(
                    op.q.(steady := op.q.steady && op.ts1x == op.ts1), op.slot + 1))
  }

  /** The cell a location number from `find` stands for. */
  function LocationCell(q: Query, location: nat): Cell {
    Cell(if location < SLOTS then q.h1 else q.h2, location % SLOTS)
  }

  ghost predicate RemoveSwap(w: World, s: State, s': State, t: nat)
    requires HasTable(w, s) && t in s.threads
  {
    var op := s.threads[t].op;
    && op.RemoveCas? && s.threads[t].help.NoHelp?
    && var c := LocationCell(op.q, op.location);
    && w.Valid(c)
    && if s.table[c] == op.expected
       then s' == WithOp(WriteCell(s, c, Word(op.expected.counter, NULL, false)), t, Idle(1))
                  .(removed := s.removed + {op.expected.ptr})
       else s' == WithOp(s, t, FindRead1(op.q.(start := Present(s), steady := true), 0))
  }

  // ----- help_relocate -----

  ghost predicate HelpRead1(w: World, s: State, s': State, t: nat)
    requires HasTable(w, s) && t in s.threads
  {
    var h := s.threads[t].help;
    && h.Read1? && w.Valid(h.cell)
    && var ptr1 := s.table[h.cell];
       s' == WithHelp(s, t,
         if ptr1.mark then Read2(h.cell, h.initiator, ptr1)
         else if h.initiator && ptr1.ptr != NULL then Mark(h.cell, ptr1)
         else NoHelp)
  }

  ghost predicate HelpMark(w: World, s: State, s': State, t: nat)
    requires HasTable(w, s) && t in s.threads
  {
    var h := s.threads[t].help;
    && h.Mark? && w.Valid(h.cell)
    && var swapped := if s.table[h.cell] == h.ptr1 then WriteCell(s, h.cell, h.ptr1.(mark := true)) else s;
       s' == WithHelp(swapped, t, Read1(h.cell, true))
  }

  ghost predicate HelpRead2(w: World, s: State, s': State, t: nat)
    requires HasTable(w, s) && t in s.threads
  {
    var h := s.threads[t].help;
    && h.Read2?
    && var d := w.other(h.cell, h.ptr1.ptr);
    && w.Valid(d)
    && var ptr2 := s.table[d];
       s' == WithHelp(s, t,
         if ptr2.ptr == NULL then Check(h.cell, h.initiator, h.ptr1, ptr2)
         else if h.ptr1.ptr == ptr2.ptr then SameEntry(h.cell, h.ptr1)
         else Occupied(h.cell, h.ptr1))
  }

  ghost predicate HelpCheck(w: World, s: State, s': State, t: nat)
    requires HasTable(w, s) && t in s.threads
  {
    var h := s.threads[t].help;
    && h.Check? && w.Valid(h.cell)
    && s' == WithHelp(s, t,
         if s.table[h.cell] == h.ptr1 then Copy(h.cell, h.ptr1, h.ptr2)
         else Read1(h.cell, h.initiator))
  }

  ghost predicate HelpCopy(w: World, s: State, s': State, t: nat)
    requires HasTable(w, s) && t in s.threads
  {
    var h := s.threads[t].help;
    && h.Copy?
    && var d := w.other(h.cell, h.ptr1.ptr);
    && w.Valid(d)
    && var count := Max(h.ptr1.counter, h.ptr2.counter) + 1;
       if count > MAX_COUNTER then s' == s.(aborted := true)
       else if s.table[d] == h.ptr2
       then s' == WithHelp(WriteCell(s, d, Word(count, h.ptr1.ptr, false)), t, Clear(h.cell, h.ptr1))
                  .(moved := s.moved + {(h.cell, h.ptr1)})
       else s' == WithHelp(s, t, Occupied(h.cell, h.ptr1))
  }

  ghost predicate HelpClear(w: World, s: State, s': State, t: nat)
    requires HasTable(w, s) && t in s.threads
  {
    var h := s.threads[t].help;
    && h.Clear? && w.Valid(h.cell)
    && if h.ptr1.counter + 1 > MAX_COUNTER then s' == s.(aborted := true)
       else
         var swapped := if s.table[h.cell] == h.ptr1
                        then WriteCell(s, h.cell, Word(h.ptr1.counter + 1, NULL, false)) else s;
         s' == WithHelp(swapped, t, NoHelp)
  }

  /** Empties the destination, if it holds the source's word: only when they are one cell. */
  ghost predicate HelpSameEntry(w: World, s: State, s': State, t: nat)
    requires HasTable(w, s) && t in s.threads
  {
    var h := s.threads[t].help;
    && h.SameEntry?
    && var d := w.other(h.cell, h.ptr1.ptr);
    && w.Valid(d)
    && if h.ptr1.counter + 1 > MAX_COUNTER then s' == s.(aborted := true)
       else
         var swapped := if s.table[d] == h.ptr1
                        then WriteCell(s, d, Word(h.ptr1.counter + 1, NULL, false)) else s;
         s' == WithHelp(swapped, t, NoHelp)
  }

  /** Would mark the destination, if it still held the source's word. */
  ghost predicate HelpOccupied(w: World, s: State, s': State, t: nat)
    requires HasTable(w, s) && t in s.threads
  {
    var h := s.threads[t].help;
    && h.Occupied?
    && var d := w.other(h.cell, h.ptr1.ptr);
    && w.Valid(d)
    && if h.ptr1.counter + 1 > MAX_COUNTER then s' == s.(aborted := true)
       else
         var swapped := if s.table[d] == h.ptr1
                        then WriteCell(s, d, Word(h.ptr1.counter + 1, h.ptr1.ptr, true)) else s;
         s' == WithHelp(swapped, t, NoHelp)
  }

  // ----- runs -----

  ghost predicate InsertStep(w: World, s: State, s': State, t: nat)
    requires w.params.Valid() && HasTable(w, s) && t in s.threads
  {
    || InsertBegin(w, s, s', t)
    || InsertReadSlot(w, s, s', t)
    || InsertSwap(w, s, s', t)
  }

  ghost predicate RelocateStep(w: World, s: State, s': State, t: nat)
    requires HasTable(w, s) && t in s.threads
  {
    || PathLook(w, s, s', t)
    || SourceLook(w, s, s', t)
    || DestLook(w, s, s', t)
  }

  ghost predicate FindStep(w: World, s: State, s': State, t: nat)
    requires w.params.Valid() && HasTable(w, s) && t in s.threads
  {
    || FindBegin(w, s, s', t)
    || FindFirst(w, s, s', t)
    || FindSecond(w, s, s', t)
    || FindCounter1(w, s, s', t)
    || FindCounter2(w, s, s', t)
  }

  ghost predicate OpStep(w: World, s: State, s': State, t: nat)
    requires w.params.Valid() && HasTable(w, s) && t in s.threads
  {
    || InsertStep(w, s, s', t)
    || RelocateStep(w, s, s', t)
    || FindStep(w, s, s', t)
    || RemoveSwap(w, s, s', t)
  }

  ghost predicate HelpStep(w: World, s: State, s': State, t: nat)
    requires HasTable(w, s) && t in s.threads
  {
    || HelpRead1(w, s, s', t)
    || HelpMark(w, s, s', t)
    || HelpRead2(w, s, s', t)
    || HelpCheck(w, s, s', t)
    || HelpCopy(w, s, s', t)
    || HelpClear(w, s, s', t)
    || HelpSameEntry(w, s, s', t)
    || HelpOccupied(w, s, s', t)
  }

  ghost predicate Step(w: World, s: State, s': State, t: nat) {
    && w.params.Valid() && HasTable(w, s)
    && !s.aborted
    && t in s.threads
    && (OpStep(w, s, s', t) || HelpStep(w, s, s', t))
  }

  ghost predicate Next(w: World, s: State, s': State) {
    exists t :: Step(w, s, s', t)
  }

  /** A finite run from an initial state. */
  ghost predicate IsRun(w: World, run: seq<State>) {
    && |run| > 0
    && Init(w, run[0])
    && forall i | 0 <= i < |run| - 1 :: Next(w, run[i], run[i + 1])
  }
}
