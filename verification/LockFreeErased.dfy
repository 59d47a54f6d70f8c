/**
  A key whose fingerprint has one bucket: its inserted entries can be lost. The
  run that loses one works for every such key, in every filter.
 */
module LockFreeErased {
  import opened HashIndex
  import opened Words
  import opened LockFreeModel
  import opened LockFreeInvariant
  import opened LockFreeTheorems

  // ----- what the run is about -----

  /** Both buckets of the key are `b`, and so are those of its entries. */
  ghost predicate OneBucket(w: World, key: string, b: nat) {
    && w.Ok() && b < w.params.size
    && w.params.Bucket1(key) == b && w.params.Bucket2(key) == b
    && forall p, slot: nat | w.fingerprint(p) == w.params.md5(key) :: w.other(Cell(b, slot), p) == Cell(b, slot)
  }

  lemma HasOneBucket(w: World, key: string)
    requires w.Ok() && !w.Movable(w.params.md5(key))
    ensures OneBucket(w, key, w.params.Bucket1(key))
  {
    SameBucketIff(w.params, w.params.Bucket1(key), w.params.md5(key));
  }

  /** The words in the bucket, the threads, and the addresses allocated, inserted and removed. */
  datatype View = View(words: seq<Word>, threads: map<nat, Thread>, used: set<nat>, keys: set<nat>, gone: set<nat>)

  predicate CellShows(w: World, b: nat, s: State, v: View, c: Cell)
    requires |v.words| == SLOTS && c.slot < SLOTS
  {
    c in s.table && s.table[c] == if c.bucket == b then v.words[c.slot] else EMPTY
  }

  ghost predicate Shows(w: World, b: nat, s: State, v: View) {
    && |v.words| == SLOTS
    && (forall c | w.Valid(c) :: CellShows(w, b, s, v, c))
    && !s.aborted
    && s.threads == v.threads && s.addresses == v.used && s.info.Keys == v.keys && s.removed == v.gone
  }

  lemma ShowsTable(w: World, b: nat, s: State, v: View)
    requires Shows(w, b, s, v)
    ensures HasTable(w, s)
  {
    forall c | w.Valid(c)
      ensures c in s.table
    {
      assert CellShows(w, b, s, v, c);
    }
  }

  /** The slot of lane `i` in the bucket. */
  lemma ShowsLane(w: World, b: nat, s: State, v: View, i: nat)
    requires Shows(w, b, s, v) && b < w.params.size && i < SLOTS
    ensures HasTable(w, s) && w.Valid(Cell(b, i)) && s.table[Cell(b, i)] == v.words[i]
  {
    ShowsTable(w, b, s, v);
    assert CellShows(w, b, s, v, Cell(b, i));
  }

  function WithThread(v: View, t: nat, op: Op, help: Help): View {
    v.(threads := v.threads[t := Thread(op, help)])
  }

  function WithWord(v: View, i: nat, word: Word): View
    requires i < |v.words|
  {
    v.(words := v.words[i := word])
  }

  lemma WriteShows(w: World, b: nat, s: State, v: View, i: nat, word: Word)
    requires Shows(w, b, s, v) && i < SLOTS
    ensures Shows(w, b, WriteCell(s, Cell(b, i), word), WithWord(v, i, word))
  {
    var s', v' := WriteCell(s, Cell(b, i), word), WithWord(v, i, word);
    forall c | w.Valid(c)
      ensures CellShows(w, b, s', v', c)
    {
      assert CellShows(w, b, s, v, c);
    }
  }

  /** One step, and what it shows. */
  ghost predicate Moves(w: World, b: nat, s: State, s': State, t: nat, v: View) {
    Step(w, s, s', t) && Shows(w, b, s', v)
  }

  ghost predicate Runs(w: World, b: nat, run: seq<State>, v: View) {
    IsRun(w, run) && Shows(w, b, run[|run| - 1], v)
  }

  lemma RunsOn(w: World, b: nat, run: seq<State>, s': State, t: nat, v: View)
    requires IsRun(w, run) && Moves(w, b, run[|run| - 1], s', t, v)
    ensures Runs(w, b, run + [s'], v)
  {
    Extended(w, run, s', t);
  }

  // ----- the steps of an insert -----

  lemma Begins(w: World, key: string, b: nat, s: State, v: View, t: nat, r: nat, e: nat) returns (s': State)
    requires OneBucket(w, key, b) && Shows(w, b, s, v)
    requires t in v.threads && v.threads[t] == Thread(Idle(r), NoHelp)
    requires e != NULL && e !in v.used && w.fingerprint(e) == w.params.md5(key)
    ensures Moves(w, b, s, s', t, WithThread(v, t, InsertRead(e, b, b, 0, false), NoHelp).(used := v.used + {e}))
  {
    ShowsTable(w, b, s, v);
    s' := WithOp(s, t, InsertRead(e, b, b, 0, false)).(addresses := s.addresses + {e});
    assert InsertBegin(w, s, s', t);
    SameTable(w, b, s, s', v, WithThread(v, t, InsertRead(e, b, b, 0, false), NoHelp).(used := v.used + {e}));
  }

  lemma SameTable(w: World, b: nat, s: State, s': State, v: View, v': View)
    requires Shows(w, b, s, v) && s'.table == s.table && v'.words == v.words && !s'.aborted
    requires s'.threads == v'.threads && s'.addresses == v'.used && s'.info.Keys == v'.keys && s'.removed == v'.gone
    ensures Shows(w, b, s', v')
  {
    forall c | w.Valid(c)
      ensures CellShows(w, b, s', v', c)
    {
      assert CellShows(w, b, s, v, c);
    }
  }

  /** What an insert does about the word in its k-th slot. */
  function Onward(word: Word, e: nat, b: nat, k: nat): Op {
    if word.ptr == NULL then InsertCas(e, b, b, k, word) else InsertRead(e, b, b, k + 1, false)
  }

  lemma Reads(w: World, b: nat, s: State, v: View, t: nat, e: nat, k: nat) returns (s': State)
    requires w.Ok() && b < w.params.size && Shows(w, b, s, v) && k < 2 * SLOTS
    requires t in v.threads && v.threads[t] == Thread(InsertRead(e, b, b, k, false), NoHelp)
    ensures Moves(w, b, s, s', t, WithThread(v, t, Onward(v.words[k / 2], e, b, k), NoHelp))
  {
    ShowsLane(w, b, s, v, k / 2);
    assert ScanCell(b, b, k) == Cell(b, k / 2);
    var op := Onward(v.words[k / 2], e, b, k);
    s' := WithOp(s, t, op);
    assert InsertReadSlot(w, s, s', t);
    SameTable(w, b, s, s', v, WithThread(v, t, op, NoHelp));
  }

  function Stored(v: View, t: nat, e: nat, i: nat): View
    requires i < |v.words|
  {
    WithThread(WithWord(v, i, Word(v.words[i].counter, e, false)), t, Idle(1), NoHelp).(keys := v.keys + {e})
  }

  lemma Swaps(w: World, b: nat, s: State, v: View, t: nat, e: nat, k: nat) returns (s': State)
    requires w.Ok() && b < w.params.size && Shows(w, b, s, v) && k < 2 * SLOTS
    requires t in v.threads && v.threads[t] == Thread(InsertCas(e, b, b, k, v.words[k / 2]), NoHelp)
    ensures Moves(w, b, s, s', t, Stored(v, t, e, k / 2))
    ensures Inserts(w, s, s', t)
  {
    ShowsLane(w, b, s, v, k / 2);
    assert ScanCell(b, b, k) == Cell(b, k / 2);
    var word := Word(v.words[k / 2].counter, e, false);
    s' := WithOp(WriteCell(s, Cell(b, k / 2), word), t, Idle(1)).(info := s.info[e := Info(k / 2, b, b)]);
    assert InsertSwap(w, s, s', t);
    WriteShows(w, b, s, v, k / 2, word);
    SameTable(w, b, WriteCell(s, Cell(b, k / 2), word), s', WithWord(v, k / 2, word), Stored(v, t, e, k / 2));
  }

  // ----- the steps of a relocate -----

  function Route(b: nat, n: nat): seq<nat> {
    if n == 0 then NoRoute() else NoRoute()[0 := b]
  }

  /** The n-th point of a relocate of lane 0, for entry `e`, before it moves entry `p`. */
  function Point(b: nat, e: nat, p: nat, n: nat): Op {
    if n == 0 then Discover(e, b, b, Walk(ORDER, 0, b, Route(b, 0)), 0)
    else if n == 1 then Discover(e, b, b, Walk(ORDER, 0, b, Route(b, 1)), 1)
    else if n == 2 then Back(e, b, b, Walk(ORDER, 0, b, Route(b, 1)), 0, 0, false)
    else BackDest(e, b, b, Walk(ORDER, 0, b, Route(b, 1)), 0, 0, p)
  }

  lemma PointOk(w: World, b: nat, e: nat, p: nat, n: nat)
    requires w.Ok() && b < w.params.size
    ensures Point(b, e, p, n).walk.Ok(w.params.size)
  {
    OrderOk();
  }

  lemma Kicks(w: World, b: nat, s: State, v: View, t: nat, e: nat) returns (s': State)
    requires w.Ok() && b < w.params.size && Shows(w, b, s, v)
    requires t in v.threads && v.threads[t] == Thread(InsertRead(e, b, b, 2 * SLOTS, false), NoHelp)
    ensures Moves(w, b, s, s', t, WithThread(v, t, Point(b, e, 0, 0), NoHelp))
  {
    ShowsTable(w, b, s, v);
    OrderOk();
    s' := WithOp(s, t, StartWalk(e, b, b, ORDER, 0));
    assert InsertReadSlot(w, s, s', t);
    SameTable(w, b, s, s', v, WithThread(v, t, Point(b, e, 0, 0), NoHelp));
  }

  /** The path leads from the entry's bucket back to it. */
  lemma LooksOn(w: World, key: string, b: nat, s: State, v: View, t: nat, e: nat) returns (s': State)
    requires OneBucket(w, key, b) && Shows(w, b, s, v)
    requires t in v.threads && v.threads[t] == Thread(Point(b, e, 0, 0), NoHelp)
    requires v.words[0].ptr != NULL && !v.words[0].mark && w.fingerprint(v.words[0].ptr) == w.params.md5(key)
    ensures Moves(w, b, s, s', t, WithThread(v, t, Point(b, e, 0, 1), NoHelp))
  {
    ShowsLane(w, b, s, v, 0);
    PointOk(w, b, e, 0, 0);
    assert w.other(Cell(b, 0), v.words[0].ptr) == Cell(b, 0);
    assert Further(w, Point(b, e, 0, 0), v.words[0].ptr) == Walk(ORDER, 0, b, Route(b, 1));
    s' := WithOp(s, t, Point(b, e, 0, 1));
    assert PathLook(w, s, s', t);
    SameTable(w, b, s, s', v, WithThread(v, t, Point(b, e, 0, 1), NoHelp));
  }

  lemma LooksFree(w: World, b: nat, s: State, v: View, t: nat, e: nat) returns (s': State)
    requires w.Ok() && b < w.params.size && Shows(w, b, s, v)
    requires t in v.threads && v.threads[t] == Thread(Point(b, e, 0, 1), NoHelp)
    requires v.words[0].ptr == NULL && !v.words[0].mark
    ensures Moves(w, b, s, s', t, WithThread(v, t, Point(b, e, 0, 2), NoHelp))
  {
    ShowsLane(w, b, s, v, 0);
    PointOk(w, b, e, 0, 1);
    s' := WithOp(s, t, Point(b, e, 0, 2));
    assert PathLook(w, s, s', t);
    SameTable(w, b, s, s', v, WithThread(v, t, Point(b, e, 0, 2), NoHelp));
  }

  lemma LooksBack(w: World, b: nat, s: State, v: View, t: nat, e: nat) returns (s': State)
    requires w.Ok() && b < w.params.size && Shows(w, b, s, v)
    requires t in v.threads && v.threads[t] == Thread(Point(b, e, 0, 2), NoHelp)
    requires v.words[0].ptr != NULL && !v.words[0].mark
    ensures Moves(w, b, s, s', t, WithThread(v, t, Point(b, e, v.words[0].ptr, 3), NoHelp))
  {
    ShowsLane(w, b, s, v, 0);
    PointOk(w, b, e, 0, 2);
    assert SourceCell(Point(b, e, 0, 2)) == Cell(b, 0);
    s' := WithOp(s, t, Point(b, e, v.words[0].ptr, 3));
    assert SourceLook(w, s, s', t);
    SameTable(w, b, s, s', v, WithThread(v, t, Point(b, e, v.words[0].ptr, 3), NoHelp));
  }

  /** Its destination is its source, which is empty now. */
  lemma LooksThere(w: World, key: string, b: nat, s: State, v: View, t: nat, e: nat, p: nat) returns (s': State)
    requires OneBucket(w, key, b) && Shows(w, b, s, v) && w.fingerprint(p) == w.params.md5(key)
    requires t in v.threads && v.threads[t] == Thread(Point(b, e, p, 3), NoHelp)
    requires v.words[0].ptr == NULL
    ensures Moves(w, b, s, s', t, WithThread(v, t, Retry(e, b, b), Read1(Cell(b, 0), true)))
  {
    ShowsLane(w, b, s, v, 0);
    PointOk(w, b, e, p, 3);
    assert SourceCell(Point(b, e, p, 3)) == Cell(b, 0) && w.other(Cell(b, 0), p) == Cell(b, 0);
    s' := WithHelp(WithOp(s, t, Retry(e, b, b)), t, Read1(Cell(b, 0), true));
    assert DestLook(w, s, s', t);
    SameTable(w, b, s, s', v, WithThread(v, t, Retry(e, b, b), Read1(Cell(b, 0), true)));
  }

  // ----- the steps of a remove -----

  function Wanted(w: World, key: string, b: nat, v: View): Query {
    Query(w.params.md5(key), b, b, true, v.keys - v.gone, true)
  }

  lemma Asks(w: World, key: string, b: nat, s: State, v: View, t: nat, r: nat) returns (s': State)
    requires OneBucket(w, key, b) && Shows(w, b, s, v)
    requires t in v.threads && v.threads[t] == Thread(Idle(r), NoHelp)
    ensures Moves(w, b, s, s', t, WithThread(v, t, FindRead1(Wanted(w, key, b, v), 0), NoHelp))
  {
    ShowsTable(w, b, s, v);
    s' := WithOp(s, t, FindRead1(Wanted(w, key, b, v), 0));
    assert Wanted(w, key, b, v)
        == Query(w.params.md5(key), w.params.Bucket1(key), w.params.Bucket2(key), true, Present(s), true);
    assert FindBegin(w, s, s', t);
    SameTable(w, b, s, s', v, WithThread(v, t, FindRead1(Wanted(w, key, b, v), 0), NoHelp));
  }

  lemma Finds(w: World, b: nat, s: State, v: View, t: nat, q: Query) returns (s': State)
    requires w.Ok() && b < w.params.size && Shows(w, b, s, v) && q.h1 == b && q.forRemove
    requires t in v.threads && v.threads[t] == Thread(FindRead1(q, 0), NoHelp)
    requires v.words[0].ptr != NULL && !v.words[0].mark && w.fingerprint(v.words[0].ptr) == q.fp
    ensures Moves(w, b, s, s', t, WithThread(v, t, RemoveCas(q, 0, v.words[0]), NoHelp))
  {
    ShowsLane(w, b, s, v, 0);
    s' := WithOp(s, t, RemoveCas(q, 0, v.words[0]));
    assert FindFirst(w, s, s', t);
    SameTable(w, b, s, s', v, WithThread(v, t, RemoveCas(q, 0, v.words[0]), NoHelp));
  }

  function Taken(v: View, t: nat): View
    requires |v.words| > 0
  {
    WithThread(WithWord(v, 0, Word(v.words[0].counter, NULL, false)), t, Idle(1), NoHelp)
    .(gone := v.gone + {v.words[0].ptr})
  }

  lemma TakesOut(w: World, b: nat, s: State, v: View, t: nat, q: Query) returns (s': State)
    requires w.Ok() && b < w.params.size && Shows(w, b, s, v) && q.h1 == b
    requires t in v.threads && v.threads[t] == Thread(RemoveCas(q, 0, v.words[0]), NoHelp)
    ensures Moves(w, b, s, s', t, Taken(v, t))
  {
    ShowsLane(w, b, s, v, 0);
    assert LocationCell(q, 0) == Cell(b, 0);
    var word := Word(v.words[0].counter, NULL, false);
    s' := WithOp(WriteCell(s, Cell(b, 0), word), t, Idle(1)).(removed := s.removed + {v.words[0].ptr});
    assert RemoveSwap(w, s, s', t);
    WriteShows(w, b, s, v, 0, word);
    SameTable(w, b, WriteCell(s, Cell(b, 0), word), s', WithWord(v, 0, word), Taken(v, t));
  }

  // ----- the steps of help_relocate -----

  lemma HelpReads(w: World, b: nat, s: State, v: View, t: nat, op: Op) returns (s': State)
    requires w.Ok() && b < w.params.size && Shows(w, b, s, v)
    requires t in v.threads && v.threads[t] == Thread(op, Read1(Cell(b, 0), true)) && v.words[0].ptr != NULL
    ensures Moves(w, b, s, s', t, WithThread(v, t, op, if v.words[0].mark then Read2(Cell(b, 0), true, v.words[0])
                                                       else Mark(Cell(b, 0), v.words[0])))
  {
    ShowsLane(w, b, s, v, 0);
    var h := if v.words[0].mark then Read2(Cell(b, 0), true, v.words[0]) else Mark(Cell(b, 0), v.words[0]);
    s' := WithHelp(s, t, h);
    assert HelpRead1(w, s, s', t);
    SameTable(w, b, s, s', v, WithThread(v, t, op, h));
  }

  lemma HelpMarks(w: World, b: nat, s: State, v: View, t: nat, op: Op) returns (s': State)
    requires w.Ok() && b < w.params.size && Shows(w, b, s, v)
    requires t in v.threads && v.threads[t] == Thread(op, Mark(Cell(b, 0), v.words[0]))
    ensures Moves(w, b, s, s', t,
                  WithThread(WithWord(v, 0, v.words[0].(mark := true)), t, op, Read1(Cell(b, 0), true)))
  {
    ShowsLane(w, b, s, v, 0);
    var s1, word := WriteCell(s, Cell(b, 0), v.words[0].(mark := true)), v.words[0].(mark := true);
    s' := WithHelp(s1, t, Read1(Cell(b, 0), true));
    assert HelpMark(w, s, s', t);
    WriteShows(w, b, s, v, 0, word);
    SameTable(w, b, s1, s', WithWord(v, 0, word), WithThread(WithWord(v, 0, word), t, op, Read1(Cell(b, 0), true)));
  }

  lemma HelpReadsAgain(w: World, key: string, b: nat, s: State, v: View, t: nat, op: Op) returns (s': State)
    requires OneBucket(w, key, b) && Shows(w, b, s, v)
    requires t in v.threads && v.threads[t] == Thread(op, Read2(Cell(b, 0), true, v.words[0]))
    requires v.words[0].ptr != NULL && w.fingerprint(v.words[0].ptr) == w.params.md5(key)
    ensures Moves(w, b, s, s', t, WithThread(v, t, op, SameEntry(Cell(b, 0), v.words[0])))
  {
    ShowsLane(w, b, s, v, 0);
    assert w.other(Cell(b, 0), v.words[0].ptr) == Cell(b, 0);
    s' := WithHelp(s, t, SameEntry(Cell(b, 0), v.words[0]));
    assert HelpRead2(w, s, s', t);
    SameTable(w, b, s, s', v, WithThread(v, t, op, SameEntry(Cell(b, 0), v.words[0])));
  }

  lemma HelpErases(w: World, key: string, b: nat, s: State, v: View, t: nat, op: Op) returns (s': State)
    requires OneBucket(w, key, b) && Shows(w, b, s, v)
    requires t in v.threads && v.threads[t] == Thread(op, SameEntry(Cell(b, 0), v.words[0]))
    requires w.fingerprint(v.words[0].ptr) == w.params.md5(key) && v.words[0].counter < MAX_COUNTER
    ensures Moves(w, b, s, s', t,
                  WithThread(WithWord(v, 0, Word(v.words[0].counter + 1, NULL, false)), t, op, NoHelp))
  {
    ShowsLane(w, b, s, v, 0);
    assert w.other(Cell(b, 0), v.words[0].ptr) == Cell(b, 0);
    var word := Word(v.words[0].counter + 1, NULL, false);
    var s1 := WriteCell(s, Cell(b, 0), word);
    s' := WithHelp(s1, t, NoHelp);
    assert HelpSameEntry(w, s, s', t);
    WriteShows(w, b, s, v, 0, word);
    SameTable(w, b, s1, s', WithWord(v, 0, word), WithThread(WithWord(v, 0, word), t, op, NoHelp));
  }

  // ----- whole calls -----

  /** Entries of the key, at different addresses. */
  ghost predicate Supply(w: World, key: string, a: seq<nat>) {
    && |a| == 7 && (forall i, j | 0 <= i < j < |a| :: a[i] != a[j])
    && forall i | 0 <= i < |a| :: a[i] != NULL && w.fingerprint(a[i]) == w.params.md5(key)
  }

  lemma {:induction false} ReadsUpTo(w: World, b: nat, run: seq<State>, v: View, t: nat, e: nat, k: nat)
    returns (run': seq<State>)
    requires w.Ok() && b < w.params.size && Runs(w, b, run, v) && k <= 2 * SLOTS
    requires t in v.threads && v.threads[t] == Thread(InsertRead(e, b, b, 0, false), NoHelp)
    requires forall i | 0 <= i < SLOTS && 2 * i < k :: v.words[i].ptr != NULL
    ensures Runs(w, b, run', WithThread(v, t, InsertRead(e, b, b, k, false), NoHelp))
    decreases k
  {
    if k == 0 {
      run' := run;
      assert v.threads[t := v.threads[t]] == v.threads;
      assert WithThread(v, t, InsertRead(e, b, b, 0, false), NoHelp) == v;
    } else {
      run' := ReadsUpTo(w, b, run, v, t, e, k - 1);
      var v1 := WithThread(v, t, InsertRead(e, b, b, k - 1, false), NoHelp);
      var s' := Reads(w, b, run'[|run'| - 1], v1, t, e, k - 1);
      assert WithThread(v1, t, InsertRead(e, b, b, k, false), NoHelp)
          == WithThread(v, t, InsertRead(e, b, b, k, false), NoHelp);
      RunsOn(w, b, run', s', t, WithThread(v, t, InsertRead(e, b, b, k, false), NoHelp));
      run' := run' + [s'];
    }
  }

  function Pending(v: View, t: nat, e: nat, op: Op): View {
    WithThread(v, t, op, NoHelp).(used := v.used + {e})
  }

  /** An insert up to its reading the k-th slot, all before it being full. */
  lemma InsertScans(w: World, key: string, b: nat, run: seq<State>, v: View, t: nat, r: nat, e: nat, k: nat)
    returns (run': seq<State>)
    requires OneBucket(w, key, b) && Runs(w, b, run, v) && k <= 2 * SLOTS
    requires t in v.threads && v.threads[t] == Thread(Idle(r), NoHelp)
    requires e != NULL && e !in v.used && w.fingerprint(e) == w.params.md5(key)
    requires forall i | 0 <= i < SLOTS && 2 * i < k :: v.words[i].ptr != NULL
    ensures Runs(w, b, run', Pending(v, t, e, InsertRead(e, b, b, k, false)))
  {
    var s' := Begins(w, key, b, run[|run| - 1], v, t, r, e);
    var v1 := Pending(v, t, e, InsertRead(e, b, b, 0, false));
    RunsOn(w, b, run, s', t, v1);
    run' := ReadsUpTo(w, b, run + [s'], v1, t, e, k);
    assert WithThread(v1, t, InsertRead(e, b, b, k, false), NoHelp)
        == Pending(v, t, e, InsertRead(e, b, b, k, false));
  }

  /** ... and up to its swap, of the first empty slot. */
  lemma InsertsUpTo(w: World, key: string, b: nat, run: seq<State>, v: View, t: nat, r: nat, e: nat, n: nat)
    returns (run': seq<State>)
    requires OneBucket(w, key, b) && Runs(w, b, run, v) && n < SLOTS
    requires t in v.threads && v.threads[t] == Thread(Idle(r), NoHelp)
    requires e != NULL && e !in v.used && w.fingerprint(e) == w.params.md5(key)
    requires v.words[n].ptr == NULL && forall i | 0 <= i < n :: v.words[i].ptr != NULL
    ensures Runs(w, b, run', Pending(v, t, e, InsertCas(e, b, b, 2 * n, v.words[n])))
  {
    run' := InsertScans(w, key, b, run, v, t, r, e, 2 * n);
    var v1 := Pending(v, t, e, InsertRead(e, b, b, 2 * n, false));
    var v2 := Pending(v, t, e, InsertCas(e, b, b, 2 * n, v.words[n]));
    var s' := Reads(w, b, run'[|run'| - 1], v1, t, e, 2 * n);
    assert WithThread(v1, t, InsertCas(e, b, b, 2 * n, v.words[n]), NoHelp) == v2;
    RunsOn(w, b, run', s', t, v2);
    run' := run' + [s'];
  }

  function Inserted(v: View, t: nat, e: nat, n: nat): View
    requires n < |v.words|
  {
    Stored(Pending(v, t, e, InsertCas(e, 0, 0, 0, EMPTY)), t, e, n)
  }

  lemma InsertsAll(w: World, key: string, b: nat, run: seq<State>, v: View, t: nat, r: nat, e: nat, n: nat)
    returns (run': seq<State>)
    requires OneBucket(w, key, b) && Runs(w, b, run, v) && n < SLOTS
    requires t in v.threads && v.threads[t] == Thread(Idle(r), NoHelp)
    requires e != NULL && e !in v.used && w.fingerprint(e) == w.params.md5(key)
    requires v.words[n].ptr == NULL && forall i | 0 <= i < n :: v.words[i].ptr != NULL
    ensures Runs(w, b, run', Inserted(v, t, e, n))
  {
    run' := InsertsUpTo(w, key, b, run, v, t, r, e, n);
    var v1 := Pending(v, t, e, InsertCas(e, b, b, 2 * n, v.words[n]));
    var s' := Swaps(w, b, run'[|run'| - 1], v1, t, e, 2 * n);
    assert Stored(v1, t, e, n) == Inserted(v, t, e, n);
    RunsOn(w, b, run', s', t, Inserted(v, t, e, n));
    run' := run' + [s'];
  }

  /** A remove that meets its key's entry in the first lane, and takes it. */
  lemma RemovesFirst(w: World, key: string, b: nat, run: seq<State>, v: View, t: nat, r: nat)
    returns (run': seq<State>)
    requires OneBucket(w, key, b) && Runs(w, b, run, v)
    requires t in v.threads && v.threads[t] == Thread(Idle(r), NoHelp)
    requires v.words[0].ptr != NULL && !v.words[0].mark && w.fingerprint(v.words[0].ptr) == w.params.md5(key)
    ensures Runs(w, b, run', Taken(v, t))
  {
    var q := Wanted(w, key, b, v);
    var v1, v2 := WithThread(v, t, FindRead1(q, 0), NoHelp), WithThread(v, t, RemoveCas(q, 0, v.words[0]), NoHelp);
    var s1 := Asks(w, key, b, run[|run| - 1], v, t, r);
    RunsOn(w, b, run, s1, t, v1);
    var run1 := run + [s1];
    var s2 := Finds(w, b, s1, v1, t, q);
    assert WithThread(v1, t, RemoveCas(q, 0, v.words[0]), NoHelp) == v2;
    RunsOn(w, b, run1, s2, t, v2);
    var run2 := run1 + [s2];
    var s3 := TakesOut(w, b, s2, v2, t, q);
    assert Taken(v2, t) == Taken(v, t);
    RunsOn(w, b, run2, s3, t, Taken(v, t));
    run' := run2 + [s3];
  }

  // ----- the run -----

  /** Thread 0 idle, thread 1 at `th`, this word in lane 0, the entries 1 to 3 in the others; m entries used. */
  ghost predicate Between(v: View, a: seq<nat>, m: nat, th: Thread, word: Word)
    requires m <= |a| == 7
  {
    && |v.words| == SLOTS && v.words[0] == word
    && (forall i | 1 <= i < SLOTS :: v.words[i] == Word(0, a[i], false))
    && 0 in v.threads && v.threads[0].op.Idle? && v.threads[0].help == NoHelp
    && 1 in v.threads && v.threads[1] == th
    && (forall e | e in v.used :: e in a[..m])
    && (forall e | e in v.gone :: e in a[..m])
  }

  /** The first n lanes are filled. */
  ghost predicate Filling(v: View, a: seq<nat>, n: nat)
    requires n <= |a|
  {
    && |v.words| == SLOTS
    && (forall i | 0 <= i < SLOTS :: i < n ==> i < |a| && v.words[i] == Word(0, a[i], false))
    && (forall i | 0 <= i < SLOTS :: n <= i ==> v.words[i] == EMPTY)
    && 0 in v.threads && v.threads[0].op.Idle? && v.threads[0].help == NoHelp
    && 1 in v.threads && v.threads[1] == Thread(Idle(0), NoHelp)
    && (forall e | e in v.used :: e in a[..n])
    && v.gone == {}
  }

  lemma Starts(w: World, key: string, b: nat, a: seq<nat>) returns (run: seq<State>, v: View)
    requires OneBucket(w, key, b)
    ensures Runs(w, b, run, v) && Filling(v, a, 0)
  {
    var table := map bucket: nat, slot: nat | bucket < w.params.size && slot < SLOTS :: Cell(bucket, slot) := EMPTY;
    var threads := map[0 := Thread(Idle(0), NoHelp), 1 := Thread(Idle(0), NoHelp)];
    var s := State(table, threads, false, {}, map[], {}, {});
    run := [s];
    v := View([EMPTY, EMPTY, EMPTY, EMPTY], threads, {}, {}, {});
    forall c | w.Valid(c)
      ensures CellShows(w, b, s, v, c)
    {
      assert c == Cell(c.bucket, c.slot);
    }
    ShowsTable(w, b, s, v);
  }

  lemma {:induction false} Fills(w: World, key: string, b: nat, a: seq<nat>, n: nat) returns (run: seq<State>, v: View)
    requires OneBucket(w, key, b) && Supply(w, key, a) && n <= SLOTS
    ensures Runs(w, b, run, v) && Filling(v, a, n)
    decreases n
  {
    if n == 0 {
      run, v := Starts(w, key, b, a);
    } else {
      var m := n - 1;
      run, v := Fills(w, key, b, a, m);
      run := InsertsAll(w, key, b, run, v, 0, v.threads[0].op.result, a[m], m);
      v := Inserted(v, 0, a[m], m);
      assert a[..n] == a[..m] + [a[m]];
    }
  }

  /** Thread 1 finds the bucket full, and looks at the first lane. */
  lemma KickStarts(w: World, key: string, b: nat, a: seq<nat>) returns (run: seq<State>, v: View)
    requires OneBucket(w, key, b) && Supply(w, key, a)
    ensures Runs(w, b, run, v) && Between(v, a, 5, Thread(Point(b, a[4], 0, 1), NoHelp), Word(0, a[0], false))
  {
    run, v := Fills(w, key, b, a, SLOTS);
    var e := a[4];
    assert e !in v.used;
    run := InsertScans(w, key, b, run, v, 1, 0, e, 2 * SLOTS);
    var v1 := Pending(v, 1, e, InsertRead(e, b, b, 2 * SLOTS, false));
    var s1 := Kicks(w, b, run[|run| - 1], v1, 1, e);
    var v2 := WithThread(v1, 1, Point(b, e, 0, 0), NoHelp);
    RunsOn(w, b, run, s1, 1, v2);
    run := run + [s1];
    var s2 := LooksOn(w, key, b, s1, v2, 1, e);
    RunsOn(w, b, run, s2, 1, WithThread(v2, 1, Point(b, e, 0, 1), NoHelp));
    run := run + [s2];
    v := WithThread(v2, 1, Point(b, e, 0, 1), NoHelp);
    assert a[..5] == a[..4] + [e];
  }

  /** Thread 0 removes the entry in the first lane. */
  lemma Vacates(w: World, key: string, b: nat, a: seq<nat>, run: seq<State>, v: View, m: nat, i: nat, th: Thread)
    returns (run': seq<State>, v': View)
    requires OneBucket(w, key, b) && Supply(w, key, a) && i < m <= |a|
    requires Runs(w, b, run, v) && Between(v, a, m, th, Word(0, a[i], false))
    ensures Runs(w, b, run', v') && Between(v', a, m, th, EMPTY)
  {
    run' := RemovesFirst(w, key, b, run, v, 0, v.threads[0].op.result);
    v' := Taken(v, 0);
    assert a[i] in a[..m];
  }

  /** Thread 0 inserts another there. */
  lemma Refills(w: World, key: string, b: nat, a: seq<nat>, run: seq<State>, v: View, m: nat, th: Thread)
    returns (run': seq<State>, v': View)
    requires OneBucket(w, key, b) && Supply(w, key, a) && m < |a|
    requires Runs(w, b, run, v) && Between(v, a, m, th, EMPTY)
    ensures Runs(w, b, run', v') && Between(v', a, m + 1, th, Word(0, a[m], false))
  {
    assert a[m] !in v.used;
    run' := InsertsAll(w, key, b, run, v, 0, v.threads[0].op.result, a[m], 0);
    v' := Inserted(v, 0, a[m], 0);
    assert a[..m + 1] == a[..m] + [a[m]];
  }

  /** Thread 1 goes on to its next point. */
  lemma OneMove(w: World, b: nat, a: seq<nat>, run: seq<State>, v: View, m: nat, th: Thread, word: Word,
                s': State, op: Op, help: Help) returns (run': seq<State>, v': View)
    requires |a| == 7 && m <= |a| && Runs(w, b, run, v) && Between(v, a, m, th, word)
    requires Moves(w, b, run[|run| - 1], s', 1, WithThread(v, 1, op, help))
    ensures Runs(w, b, run', v') && Between(v', a, m, Thread(op, help), word)
  {
    v' := WithThread(v, 1, op, help);
    RunsOn(w, b, run, s', 1, v');
    run' := run + [s'];
  }

  /** Up to thread 1's call on the empty slot that both its source and its destination are. */
  lemma ReachCall(w: World, key: string, b: nat, a: seq<nat>) returns (run: seq<State>, v: View)
    requires OneBucket(w, key, b) && Supply(w, key, a)
    ensures Runs(w, b, run, v) && Between(v, a, 6, Thread(Retry(a[4], b, b), Read1(Cell(b, 0), true)), EMPTY)
  {
    var e := a[4];
    run, v := KickStarts(w, key, b, a);
    run, v := Vacates(w, key, b, a, run, v, 5, 0, Thread(Point(b, e, 0, 1), NoHelp));
    var s1 := LooksFree(w, b, run[|run| - 1], v, 1, e);
    run, v := OneMove(w, b, a, run, v, 5, Thread(Point(b, e, 0, 1), NoHelp), EMPTY, s1, Point(b, e, 0, 2), NoHelp);
    run, v := Refills(w, key, b, a, run, v, 5, Thread(Point(b, e, 0, 2), NoHelp));
    var s2 := LooksBack(w, b, run[|run| - 1], v, 1, e);
    run, v := OneMove(w, b, a, run, v, 6, Thread(Point(b, e, 0, 2), NoHelp), Word(0, a[5], false),
                      s2, Point(b, e, a[5], 3), NoHelp);
    run, v := Vacates(w, key, b, a, run, v, 6, 5, Thread(Point(b, e, a[5], 3), NoHelp));
    var s3 := LooksThere(w, key, b, run[|run| - 1], v, 1, e, a[5]);
    run, v := OneMove(w, b, a, run, v, 6, Thread(Point(b, e, a[5], 3), NoHelp), EMPTY,
                      s3, Retry(e, b, b), Read1(Cell(b, 0), true));
  }

  /** From a slot that holds an entry, thread 1's call marks it, reads it twice, and empties it. */
  lemma CallErases(w: World, key: string, b: nat, run: seq<State>, v: View, op: Op, p: nat)
    returns (run': seq<State>, v': View)
    requires OneBucket(w, key, b) && Runs(w, b, run, v) && p != NULL && w.fingerprint(p) == w.params.md5(key)
    requires 1 in v.threads && v.threads[1] == Thread(op, Read1(Cell(b, 0), true)) && v.words[0] == Word(0, p, false)
    ensures Runs(w, b, run', v') && run <= run'
    ensures v'.words == v.words[0 := Word(1, NULL, false)] && v'.gone == v.gone
  {
    var marked := Word(0, p, true);
    var s1 := HelpReads(w, b, run[|run| - 1], v, 1, op);
    var v1 := WithThread(v, 1, op, Mark(Cell(b, 0), v.words[0]));
    RunsOn(w, b, run, s1, 1, v1);
    var s2 := HelpMarks(w, b, s1, v1, 1, op);
    var v2 := WithThread(WithWord(v1, 0, marked), 1, op, Read1(Cell(b, 0), true));
    RunsOn(w, b, run + [s1], s2, 1, v2);
    run', v' := MarkedErases(w, key, b, run + [s1] + [s2], v2, op, p);
  }

  lemma MarkedErases(w: World, key: string, b: nat, run: seq<State>, v: View, op: Op, p: nat)
    returns (run': seq<State>, v': View)
    requires OneBucket(w, key, b) && Runs(w, b, run, v) && p != NULL && w.fingerprint(p) == w.params.md5(key)
    requires 1 in v.threads && v.threads[1] == Thread(op, Read1(Cell(b, 0), true)) && v.words[0] == Word(0, p, true)
    ensures Runs(w, b, run', v') && run <= run'
    ensures v'.words == v.words[0 := Word(1, NULL, false)] && v'.gone == v.gone
  {
    var s1 := HelpReads(w, b, run[|run| - 1], v, 1, op);
    var v1 := WithThread(v, 1, op, Read2(Cell(b, 0), true, v.words[0]));
    RunsOn(w, b, run, s1, 1, v1);
    var s2 := HelpReadsAgain(w, key, b, s1, v1, 1, op);
    var v2 := WithThread(v1, 1, op, SameEntry(Cell(b, 0), v.words[0]));
    RunsOn(w, b, run + [s1], s2, 1, v2);
    var s3 := HelpErases(w, key, b, s2, v2, 1, op);
    v' := WithThread(WithWord(v2, 0, Word(1, NULL, false)), 1, op, NoHelp);
    RunsOn(w, b, run + [s1] + [s2], s3, 1, v');
    run' := run + [s1] + [s2] + [s3];
  }

  lemma NeverTaken(w: World, run: seq<State>, p: nat)
    requires w.Ok() && IsRun(w, run) && p !in run[|run| - 1].removed
    ensures forall k: nat, u: nat :: !TakesAt(w, run, k, u, p)
  {
    forall k: nat, u: nat
      ensures !TakesAt(w, run, k, u, p)
    {
      if TakesAt(w, run, k, u, p) {
        RunGrows(w, run, k + 1, |run| - 1);
      }
    }
  }

  /** In the last state the entry is in no cell. */
  lemma Nowhere(w: World, b: nat, s: State, v: View, a: seq<nat>)
    requires Shows(w, b, s, v) && |a| == 7 && (forall i, j | 0 <= i < j < |a| :: a[i] != a[j]) && a[6] != NULL
    requires v.words[0].ptr == NULL && forall i | 1 <= i < SLOTS :: v.words[i].ptr == a[i]
    ensures forall c | w.Valid(c) :: At(s, c).ptr != a[6]
  {
    forall c | w.Valid(c)
      ensures At(s, c).ptr != a[6]
    {
      assert CellShows(w, b, s, v, c);
    }
  }

  /** The insert of the last entry, into the slot that thread 1 is about to move. */
  lemma LastInsert(w: World, key: string, b: nat, a: seq<nat>) returns (run: seq<State>, v: View, i: nat)
    requires OneBucket(w, key, b) && Supply(w, key, a)
    ensures Runs(w, b, run, v) && InsertsAt(w, run, i, 0, a[6], Cell(b, 0))
    ensures Between(v, a, 7, Thread(Retry(a[4], b, b), Read1(Cell(b, 0), true)), Word(0, a[6], false))
    ensures a[6] !in v.gone
  {
    var th := Thread(Retry(a[4], b, b), Read1(Cell(b, 0), true));
    run, v := ReachCall(w, key, b, a);
    assert a[6] !in v.used && a[6] !in v.gone;
    run := InsertsUpTo(w, key, b, run, v, 0, v.threads[0].op.result, a[6], 0);
    var v1 := Pending(v, 0, a[6], InsertCas(a[6], b, b, 0, v.words[0]));
    var s' := Swaps(w, b, run[|run| - 1], v1, 0, a[6], 0);
    i := |run| - 1;
    v := Stored(v1, 0, a[6], 0);
    RunsOn(w, b, run, s', 0, v);
    run := run + [s'];
    assert a[..7] == a[..6] + [a[6]];
  }

  /**
    For every key with one bucket, and seven addresses for its entries: a run
    in which one of them is inserted at step i, is never taken by a remove, and
    at the end is in no cell.
   */
  lemma Erasure(w: World, key: string, a: seq<nat>) returns (run: seq<State>, i: nat)
    requires w.Ok() && !w.Movable(w.params.md5(key)) && Supply(w, key, a)
    ensures IsRun(w, run) && InsertsAt(w, run, i, 0, a[6], Cell(w.params.Bucket1(key), 0))
    ensures forall k: nat, u: nat :: !TakesAt(w, run, k, u, a[6])
    ensures forall c | w.Valid(c) :: At(run[|run| - 1], c).ptr != a[6]
  {
    var b := w.params.Bucket1(key);
    HasOneBucket(w, key);
    var v, start;
    start, v, i := LastInsert(w, key, b, a);
    run, v := CallErases(w, key, b, start, v, Retry(a[4], b, b), a[6]);
    assert run[i] == start[i] && run[i + 1] == start[i + 1];
    Nowhere(w, b, run[|run| - 1], v, a);
    NeverTaken(w, run, a[6]);
  }

  // ----- which keys are safe -----

  /** The promise of `NoLoss` for entries with this fingerprint. */
  ghost predicate NeverLost(w: World, fp: string) {
    forall run, i, j, t, p, c | StoredSince(w, run, i, j, t, p, c) && w.fingerprint(p) == fp ::
      At(run[j], c).ptr == p || At(run[j], w.other(c, p)).ptr == p
  }

  /** Entry `p` came into `c` at step i, and no remove took it before step j. */
  ghost predicate StoredSince(w: World, run: seq<State>, i: nat, j: nat, t: nat, p: nat, c: Cell) {
    && IsRun(w, run) && i < j < |run| && InsertsAt(w, run, i, t, p, c)
    && forall k: nat, u: nat | i < k < j :: !TakesAt(w, run, k, u, p)
  }

  /** A key's entries are never lost if and only if its fingerprint has two buckets. */
  lemma NeverLostIff(w: World, key: string, a: seq<nat>)
    requires w.Ok() && Supply(w, key, a)
    ensures NeverLost(w, w.params.md5(key)) <==> w.Movable(w.params.md5(key))
  {
    if w.Movable(w.params.md5(key)) {
      forall run, i, j, t, p, c | StoredSince(w, run, i, j, t, p, c) && w.fingerprint(p) == w.params.md5(key)
        ensures At(run[j], c).ptr == p || At(run[j], w.other(c, p)).ptr == p
      {
        NoLoss(w, run, i, j, t, p, c);
      }
    } else {
      var run, i := Erasure(w, key, a);
      HasOneBucket(w, key);
      var b := w.params.Bucket1(key);
      assert StoredSince(w, run, i, |run| - 1, 0, a[6], Cell(b, 0));
      assert w.Valid(Cell(b, 0)) && w.other(Cell(b, 0), a[6]) == Cell(b, 0);
    }
  }
}
