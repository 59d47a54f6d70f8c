/** The inductive invariant of the lock-free filter. */
module LockFreeInvariant {
  import opened Words
  import opened LockFreeModel

  function At(s: State, c: Cell): Word {
    if c in s.table then s.table[c] else EMPTY
  }

  function Home(s: State, p: nat): Cell
    requires p in s.info
  {
    Cell(s.info[p].h1, s.info[p].lane)
  }

  function Away(s: State, p: nat): Cell
    requires p in s.info
  {
    Cell(s.info[p].h2, s.info[p].lane)
  }

  /** The two cells an inserted entry may be in. */
  predicate Places(s: State, p: nat, c: Cell) {
    p in s.info && (c == Home(s, p) || c == Away(s, p))
  }

  /** The two cells of `p` differ: what is lost or doubled of an entry is only promised then. */
  predicate Splits(s: State, p: nat)
    requires p in s.info
  {
    s.info[p].h1 != s.info[p].h2
  }

  /** The buckets of `p` are `h1` and `h2`, and moving swaps them. */
  ghost predicate Buckets(w: World, p: nat, h1: nat, h2: nat) {
    && p != NULL
    && h1 < w.params.size && h2 < w.params.size
    && forall slot: nat ::
         w.other(Cell(h1, slot), p) == Cell(h2, slot) && w.other(Cell(h2, slot), p) == Cell(h1, slot)
  }

  ghost predicate EntryOk(w: World, s: State, p: nat)
    requires p in s.info
  {
    && p in s.addresses
    && s.info[p].lane < SLOTS
    && Buckets(w, p, s.info[p].h1, s.info[p].h2)
  }

  ghost predicate CellOk(s: State, c: Cell) {
    var word := At(s, c);
    && word.counter <= MAX_COUNTER
    && (word.mark ==> word.ptr != NULL)
    && (word.ptr != NULL ==> Places(s, word.ptr, c))
  }

  ghost predicate NotLost(s: State, p: nat)
    requires p in s.info
  {
    p !in s.removed && Splits(s, p) ==> At(s, Home(s, p)).ptr == p || At(s, Away(s, p)).ptr == p
  }

  /** Some thread is between its copy of the word in `c` and its clearing of `c`. */
  ghost predicate BeingCleared(s: State, c: Cell) {
    exists t :: t in s.threads && s.threads[t].help == Clear(c, At(s, c))
  }

  /** Of two copies, the one in `c` is the older: it is marked and about to go. */
  ghost predicate OlderCopy(s: State, c: Cell, d: Cell) {
    At(s, c).counter < At(s, d).counter && At(s, c).mark && BeingCleared(s, c)
  }

  ghost predicate CopiesOk(s: State, p: nat)
    requires p in s.info
  {
    Splits(s, p) && At(s, Home(s, p)).ptr == p && At(s, Away(s, p)).ptr == p ==>
      OlderCopy(s, Home(s, p), Away(s, p)) || OlderCopy(s, Away(s, p), Home(s, p))
  }

  /** A marked word once seen in `c` leaves `c` only for a larger counter. */
  ghost predicate SeenMarked(s: State, c: Cell, word: Word) {
    && word.mark
    && Places(s, word.ptr, c)
    && At(s, c).counter >= word.counter
    && (At(s, c).counter == word.counter ==> At(s, c) == word)
  }

  ghost predicate MovedOk(w: World, s: State, c: Cell, word: Word) {
    var d := w.other(c, word.ptr);
    && SeenMarked(s, c, word)
    && d != c
    && At(s, d).counter > word.counter
    && (At(s, c) == word ==> At(s, d).ptr == word.ptr || word.ptr in s.removed)
  }

  /** What a helper that read the marked word `ptr1` in `c` may rely on. */
  ghost predicate Held(w: World, s: State, c: Cell, ptr1: Word) {
    var d := w.other(c, ptr1.ptr);
    && SeenMarked(s, c, ptr1)
    && (d != c && At(s, d).ptr == ptr1.ptr ==> At(s, d).counter != ptr1.counter)
  }

  /** If source and destination are one cell, it no longer holds the word read there. */
  ghost predicate Overtaken(w: World, s: State, c: Cell, ptr1: Word) {
    w.other(c, ptr1.ptr) == c ==> At(s, c).counter > ptr1.counter
  }

  /** ... and one that then read an empty destination. */
  ghost predicate HeldEmpty(w: World, s: State, c: Cell, ptr1: Word, ptr2: Word) {
    var d := w.other(c, ptr1.ptr);
    && Held(w, s, c, ptr1) && Overtaken(w, s, c, ptr1)
    && ptr2.ptr == NULL && !ptr2.mark
    && At(s, d).counter >= ptr2.counter
    && (At(s, d).ptr == ptr1.ptr ==> At(s, d).counter > ptr2.counter)
  }

  ghost predicate HelpOk(w: World, s: State, h: Help) {
    match h
    case NoHelp => true
    case Read1(c, _) => w.Valid(c)
    case Mark(c, ptr1) => w.Valid(c) && ptr1.ptr != NULL && !ptr1.mark
    case Read2(c, _, ptr1) => Held(w, s, c, ptr1)
    case Check(c, _, ptr1, ptr2) => HeldEmpty(w, s, c, ptr1, ptr2)
    case Copy(c, ptr1, ptr2) =>
      && HeldEmpty(w, s, c, ptr1, ptr2)
      && w.other(c, ptr1.ptr) != c
      && (At(s, w.other(c, ptr1.ptr)).counter == ptr2.counter && At(s, c).ptr == ptr1.ptr ==> At(s, c) == ptr1)
    case Clear(c, ptr1) => Held(w, s, c, ptr1) && (c, ptr1) in s.moved
    case SameEntry(c, ptr1) => Held(w, s, c, ptr1)
    case Occupied(c, ptr1) => Held(w, s, c, ptr1) && Overtaken(w, s, c, ptr1)
  }

  /** Entry `p`, inserted in this lane, is of the query's class. */
  predicate OfClass(w: World, s: State, q: Query, lane: nat, p: nat) {
    && p in s.info
    && s.info[p].lane == lane
    && w.fingerprint(p) == q.fp
    && s.info[p].h1 in {q.h1, q.h2}
  }

  /** ... and one the query should find. */
  predicate Matches(w: World, s: State, q: Query, lane: nat, p: nat) {
    OfClass(w, s, q, lane, p) && Splits(s, p)
  }

  ghost predicate QueryOk(w: World, s: State, q: Query) {
    && q.h1 < w.params.size && q.h2 < w.params.size
    && (forall p, slot: nat | w.fingerprint(p) == q.fp ::
          w.other(Cell(q.h1, slot), p) == Cell(q.h2, slot) && w.other(Cell(q.h2, slot), p) == Cell(q.h1, slot))
    && q.start <= s.info.Keys
  }

  /** A steady find has passed no lane with a matching entry that is still due. */
  ghost predicate SteadyOk(w: World, s: State, q: Query, slot: nat) {
    q.steady ==> forall p, lane: nat | p in q.start && lane < slot && Matches(w, s, q, lane, p) :: p in s.removed
  }

  ghost predicate FindingOk(w: World, s: State, q: Query, slot: nat) {
    QueryOk(w, s, q) && SteadyOk(w, s, q, slot)
  }

  ghost predicate WatchOk(w: World, s: State, q: Query, slot: nat, ts1: nat, watch: set<nat>) {
    && FindingOk(w, s, q, slot)
    && slot < SLOTS
    && watch <= s.info.Keys && q.start - s.removed <= watch
    && ts1 <= At(s, Cell(q.h1, slot)).counter
  }

  ghost predicate OpOk(w: World, s: State, op: Op) {
    match op
    case Idle(_) => true
    case InsertRead(p, h1, h2, k, _) => Pending(w, s, p, h1, h2) && k <= 2 * SLOTS
    case InsertCas(p, h1, h2, k, e) => Pending(w, s, p, h1, h2) && k < 2 * SLOTS && e.ptr == NULL && !e.mark
    case Discover(p, h1, h2, walk, depth) => Pending(w, s, p, h1, h2) && walk.Ok(w.params.size) && depth < MAX_KICKS
    case Back(p, h1, h2, walk, top, i, _) =>
      Pending(w, s, p, h1, h2) && walk.Ok(w.params.size) && i <= top && top + 1 < MAX_KICKS
    case BackDest(p, h1, h2, walk, top, i, ptr) =>
      && Pending(w, s, p, h1, h2) && walk.Ok(w.params.size) && i <= top && top + 1 < MAX_KICKS
      && w.Valid(w.other(SourceCell(op), ptr))
    case FindRead1(q, slot) => FindingOk(w, s, q, slot)
    case FindRead2(q, slot, ts1, watch) =>
      && WatchOk(w, s, q, slot, ts1, watch)
      && (forall p | p in watch && Matches(w, s, q, slot, p) && At(s, Cell(q.h1, slot)).ptr == p ::
            At(s, Cell(q.h1, slot)).counter > ts1)
    case FindAgain1(q, slot, ts1, _, watch) =>
      && WatchOk(w, s, q, slot, ts1, watch)
      && (forall p | p in watch && Matches(w, s, q, slot, p) && p !in s.removed ::
            At(s, Cell(q.h1, slot)).counter > ts1)
    case FindAgain2(q, slot, ts1, _, ts1x, watch) =>
      && WatchOk(w, s, q, slot, ts1, watch)
      && (forall p | p in watch && Matches(w, s, q, slot, p) && p !in s.removed :: ts1x > ts1)
    case RemoveCas(q, location, e) =>
      && QueryOk(w, s, q) && location < 2 * SLOTS && e.ptr != NULL && !e.mark
      && OfClass(w, s, q, location % SLOTS, e.ptr)
  }

  ghost predicate Pending(w: World, s: State, p: nat, h1: nat, h2: nat) {
    p in s.addresses && p !in s.info && Buckets(w, p, h1, h2)
  }

  predicate Inserting(op: Op) {
    op.InsertRead? || op.InsertCas? || op.Discover? || op.Back? || op.BackDest?
  }

  /** Whether the helper is past reading the marked source word. */
  predicate HasSource(h: Help) {
    h.Read2? || h.Check? || h.Copy? || h.Clear? || h.SameEntry? || h.Occupied?
  }

  /**
    A helper about to copy is too late once another has seen its entry marked
    in the source with a larger counter; and of two helpers about to copy an
    entry in opposite directions, one is too late.
   */
  ghost predicate HelpersOk(w: World, s: State, h: Help, g: Help) {
    h.Copy? && HasSource(g) && g.ptr1.ptr == h.ptr1.ptr ==>
      && (g.cell == h.cell && g.ptr1.counter > h.ptr1.counter ==>
            At(s, w.other(h.cell, h.ptr1.ptr)).counter > h.ptr2.counter)
      && (g.Copy? && g.cell == w.other(h.cell, h.ptr1.ptr) ==>
            || At(s, w.other(h.cell, h.ptr1.ptr)).counter > h.ptr2.counter
            || At(s, h.cell).counter > g.ptr2.counter)
  }

  ghost predicate ThreadOk(w: World, s: State, t: nat)
    requires t in s.threads
  {
    OpOk(w, s, s.threads[t].op) && HelpOk(w, s, s.threads[t].help)
  }

  ghost predicate ThreadsOk(w: World, s: State, t: nat, u: nat)
    requires t in s.threads && u in s.threads
  {
    && HelpersOk(w, s, s.threads[t].help, s.threads[u].help)
    && (t != u && Inserting(s.threads[t].op) && Inserting(s.threads[u].op) ==>
          s.threads[t].op.entry != s.threads[u].op.entry)
  }

  ghost predicate TableInv(w: World, s: State) {
    && HasTable(w, s)
    && (forall c | w.Valid(c) :: CellOk(s, c))
    && (forall p | p in s.info :: EntryOk(w, s, p) && NotLost(s, p))
    && (forall c, word | (c, word) in s.moved :: MovedOk(w, s, c, word))
    && s.removed <= s.info.Keys
  }

  ghost predicate CopiesInv(s: State) {
    forall p | p in s.info :: CopiesOk(s, p)
  }

  ghost predicate ThreadInv(w: World, s: State) {
    && (forall t | t in s.threads :: ThreadOk(w, s, t))
    && (forall t, u | t in s.threads && u in s.threads :: ThreadsOk(w, s, t, u))
  }

  ghost predicate Inv(w: World, s: State) {
    TableInv(w, s) && CopiesInv(s) && ThreadInv(w, s)
  }
}
