/** The lock-free filter without interference: its moves and replacement paths, as functions of the table. */
module SoloSpec {
  import opened Bits
  import opened HashIndex
  import opened Words
  import opened TableBag
  import opened ClassBag

  type Slots = seq<seq<Word>>

  /** Fingerprints by address. Address 0 is null, and reads as no fingerprint. */
  type Heap = seq<string>

  predicate HeapOk(h: Heap) {
    |h| > 0 && h[NULL] == ""
  }

  predicate SlotsOk(p: Params, h: Heap, t: Slots) {
    && HeapOk(h) && Shaped(p, t)
    && forall b, s | 0 <= b < |t| && 0 <= s < SLOTS :: t[b][s].ptr < |h|
  }

  predicate Unmarked(p: Params, t: Slots)
    requires Shaped(p, t)
  {
    forall b, s | 0 <= b < |t| && 0 <= s < SLOTS :: !t[b][s].mark
  }

  /** No entry is stored twice. */
  predicate Distinct(p: Params, t: Slots)
    requires Shaped(p, t)
  {
    forall b, s, c, r | 0 <= b < |t| && 0 <= s < SLOTS && 0 <= c < |t| && 0 <= r < SLOTS
      && t[b][s].ptr == t[c][r].ptr != NULL :: b == c && s == r
  }

  function NextOf(p: Params, h: Heap, t: Slots, b: nat, s: nat): (c: nat)
    requires p.Valid() && SlotsOk(p, h, t) && b < p.size && s < SLOTS
    ensures c < p.size
  {
    p.NextIndex(b, h[t[b][s].ptr])
  }

  /** What the table stores, as fingerprints. */
  function Strings(p: Params, h: Heap, t: Slots): (r: Table)
    requires SlotsOk(p, h, t)
    ensures Shaped(p, r)
    ensures forall b, s | 0 <= b < |t| && 0 <= s < SLOTS :: r[b][s] == h[t[b][s].ptr]
  {
    seq(|t|, b requires 0 <= b < |t| => seq(SLOTS, s requires 0 <= s < SLOTS => h[t[b][s].ptr]))
  }

  // ----- help_relocate, run alone -----

  /** The table a call leaves, or the program stopped by a counter that does not fit. */
  datatype Ran = Ran(table: Slots) | Aborted

  /** The table after the first part of a call: the source marked, if the call is the one to start the move. */
  function WithMark(t: Slots, b: nat, s: nat, initiator: bool): (r: Slots)
    requires b < |t| && s < |t[b]|
    ensures |r| == |t| && forall c | 0 <= c < |t| :: |r[c]| == |t[c]|
  {
    if initiator && t[b][s].ptr != NULL then Put(t, b, s, t[b][s].(mark := true)) else t
  }

  /** One call of `help_relocate` that nothing interferes with. */
  function Help(p: Params, h: Heap, t: Slots, b: nat, s: nat, initiator: bool): (r: Ran)
    requires p.Valid() && SlotsOk(p, h, t) && b < p.size && s < SLOTS
    ensures r.Ran? ==> SlotsOk(p, h, r.table)
  {
    var t1 := WithMark(t, b, s, initiator);
    var ptr1 := t1[b][s];
    if !ptr1.mark then Ran(t1)
    else
      var d := NextOf(p, h, t1, b, s);
      var ptr2 := t1[d][s];
      if ptr2.ptr == NULL then
        var count := Max(ptr1.counter, ptr2.counter) + 1;
        if count > MAX_COUNTER then Aborted
        else
          var t2 := Put(t1, d, s, Word(count, ptr1.ptr, false));
          Ran(if t2[b][s] == ptr1 then Put(t2, b, s, Word(ptr1.counter + 1, NULL, false)) else t2)
      else if ptr1.counter + 1 > MAX_COUNTER then Aborted
      else if ptr2 != ptr1 then Ran(t1)
      else Ran(Put(t1, d, s, Word(ptr1.counter + 1, NULL, false)))
  }

  /** Whether that call copies its source's entry: 1 if it does, 0 if not. */
  function Copies(p: Params, h: Heap, t: Slots, b: nat, s: nat, initiator: bool): (n: nat)
    requires p.Valid() && SlotsOk(p, h, t) && b < p.size && s < SLOTS
  {
    var source := WithMark(t, b, s, initiator)[b][s];
    if source.mark && t[NextOf(p, h, t, b, s)][s].ptr == NULL && Help(p, h, t, b, s, initiator).Ran? then 1 else 0
  }

  /** The entry in (from, s) moved to (to, s), both counters raised. */
  function Move(t: Slots, from: nat, to: nat, s: nat): (r: Slots)
    requires from < |t| && to < |t| && s < |t[from]| && s < |t[to]|
    ensures |r| == |t| && forall b | 0 <= b < |t| :: |r[b]| == |t[b]|
    ensures forall b, l | 0 <= b < |t| && 0 <= l < |t[b]| && !(l == s && (b == from || b == to)) :: r[b][l] == t[b][l]
    ensures from != to ==> r[to][s] == Word(Max(t[from][s].counter, t[to][s].counter) + 1, t[from][s].ptr, false)
    ensures r[from][s] == Word(t[from][s].counter + 1, NULL, false)
  {
    Put(Put(t, to, s, Word(Max(t[from][s].counter, t[to][s].counter) + 1, t[from][s].ptr, false)),
        from, s, Word(t[from][s].counter + 1, NULL, false))
  }

  /** To an empty destination the call moves the entry, if the counters have room. */
  lemma HelpMoves(p: Params, h: Heap, t: Slots, b: nat, s: nat)
    requires p.Valid() && SlotsOk(p, h, t) && b < p.size && s < SLOTS
    requires t[b][s].ptr != NULL && t[NextOf(p, h, t, b, s)][s].ptr == NULL
    ensures var d := NextOf(p, h, t, b, s);
            Help(p, h, t, b, s, true) ==
              if t[b][s].counter >= 65535 || t[d][s].counter >= 65535 then Aborted else Ran(Move(t, b, d, s))
  {
    var d := NextOf(p, h, t, b, s);
    var t1 := Put(t, b, s, t[b][s].(mark := true));
    var t2 := Put(t1, d, s, Word(Max(t[b][s].counter, t[d][s].counter) + 1, t[b][s].ptr, false));
    var l, r := Put(t2, b, s, Word(t[b][s].counter + 1, NULL, false)), Move(t, b, d, s);
    forall c | 0 <= c < |t|
      ensures l[c] == r[c]
    {
    }
    assert l == r;
  }

  /**
    What a call does, in each case: nothing without a mark, unless it is to set
    one on an entry; a move to an empty destination; a mark that stays when the
    destination is another's; and the end of an entry whose two buckets are one.
   */
  lemma HelpCases(p: Params, h: Heap, t: Slots, b: nat, s: nat, initiator: bool)
    requires p.Valid() && SlotsOk(p, h, t) && b < p.size && s < SLOTS
    requires t[b][s].mark ==> t[b][s].ptr != NULL
    ensures var word, d := t[b][s], NextOf(p, h, t, b, s); var there := t[d][s];
            var r := Help(p, h, t, b, s, initiator);
            if !word.mark && !(initiator && word.ptr != NULL) then r == Ran(t)
            else if there.ptr == NULL then
              r == if word.counter >= 65535 || there.counter >= 65535 then Aborted else Ran(Move(t, b, d, s))
            else if word.counter >= 65535 then r == Aborted
            else if d == b then r == Ran(Put(t, b, s, Word(word.counter + 1, NULL, false)))
            else there.ptr != word.ptr ==> r == Ran(Put(t, b, s, word.(mark := true)))
  {
    var word, d := t[b][s], NextOf(p, h, t, b, s);
    var t1 := Put(t, b, s, word.(mark := true));
    assert word.mark ==> t1[b] == t[b] && t1 == t;
    if t[d][s].ptr == NULL && word.ptr != NULL {
      HelpMoves(p, h, t, b, s);
    } else if d == b {
      var word' := Word(word.counter + 1, NULL, false);
      assert Put(t1, b, s, word')[b] == Put(t, b, s, word')[b];
      assert Put(t1, b, s, word') == Put(t, b, s, word');
    }
  }

  /**
    The call keeps its entry in the lane exactly when the entry's two buckets
    differ; when they are one bucket, the entry is erased.
   */
  lemma HelpKeepsEntryIff(p: Params, h: Heap, t: Slots, b: nat, s: nat)
    requires p.Valid() && IsPow2(p.size) && SlotsOk(p, h, t) && b < p.size && s < SLOTS
    requires t[b][s].ptr != NULL && Help(p, h, t, b, s, true).Ran?
    ensures var e := t[b][s].ptr;
            var r := Help(p, h, t, b, s, true).table;
            (r[b][s].ptr == e || r[NextOf(p, h, t, b, s)][s].ptr == e) <==> p.hash(h[e]) % p.size != 0
  {
    SameBucketIff(p, b, h[t[b][s].ptr]);
  }

  // ----- replacement paths -----

  /** Hops from (b, s) to the first empty slot of the path, or n + 1 if there are more than n. */
  function Hops(p: Params, h: Heap, t: Slots, b: nat, s: nat, n: nat): (k: nat)
    requires p.Valid() && SlotsOk(p, h, t) && b < p.size && s < SLOTS
    ensures k <= n + 1
    ensures k == 0 <==> t[b][s].ptr == NULL
    decreases n
  {
    if t[b][s].ptr == NULL then 0
    else if n == 0 then 1
    else 1 + Hops(p, h, t, NextOf(p, h, t, b, s), s, n - 1)
  }

  /** The k-th bucket of the path. */
  function PathBucket(p: Params, h: Heap, t: Slots, b: nat, s: nat, k: nat): (c: nat)
    requires p.Valid() && SlotsOk(p, h, t) && b < p.size && s < SLOTS
    ensures c < p.size
    decreases k
  {
    if k == 0 then b else PathBucket(p, h, t, NextOf(p, h, t, b, s), s, k - 1)
  }

  lemma {:induction false} PathStep(p: Params, h: Heap, t: Slots, b: nat, s: nat, k: nat)
    requires p.Valid() && SlotsOk(p, h, t) && b < p.size && s < SLOTS
    ensures PathBucket(p, h, t, b, s, k + 1) == NextOf(p, h, t, PathBucket(p, h, t, b, s, k), s)
    decreases k
  {
    if k > 0 {
      PathStep(p, h, t, NextOf(p, h, t, b, s), s, k - 1);
    }
  }

  /** Along the path the distance to the empty slot falls by one a hop. */
  lemma {:induction false} HopsAlong(p: Params, h: Heap, t: Slots, b: nat, s: nat, n: nat, k: nat)
    requires p.Valid() && SlotsOk(p, h, t) && b < p.size && s < SLOTS
    requires k <= Hops(p, h, t, b, s, n) && k <= n
    ensures Hops(p, h, t, PathBucket(p, h, t, b, s, k), s, n - k) == Hops(p, h, t, b, s, n) - k
    decreases k
  {
    if k > 0 {
      HopsAlong(p, h, t, NextOf(p, h, t, b, s), s, n - 1, k - 1);
    }
  }

  /** A larger limit finds the same empty slot. */
  lemma {:induction false} HopsLimit(p: Params, h: Heap, t: Slots, b: nat, s: nat, n: nat, m: nat)
    requires p.Valid() && SlotsOk(p, h, t) && b < p.size && s < SLOTS
    requires Hops(p, h, t, b, s, n) <= n && Hops(p, h, t, b, s, n) <= m
    ensures Hops(p, h, t, b, s, m) == Hops(p, h, t, b, s, n)
    decreases n
  {
    if t[b][s].ptr != NULL {
      HopsLimit(p, h, t, NextOf(p, h, t, b, s), s, n - 1, m - 1);
    }
  }

  /** A path that ends does not meet a bucket twice. */
  lemma PathDistinct(p: Params, h: Heap, t: Slots, b: nat, s: nat, n: nat, j: nat, k: nat)
    requires p.Valid() && SlotsOk(p, h, t) && b < p.size && s < SLOTS
    requires Hops(p, h, t, b, s, n) <= n
    requires j < k <= Hops(p, h, t, b, s, n)
    ensures PathBucket(p, h, t, b, s, j) != PathBucket(p, h, t, b, s, k)
  {
    HopsAlong(p, h, t, b, s, n, j);
    HopsAlong(p, h, t, b, s, n, k);
    var c, d := PathBucket(p, h, t, b, s, j), PathBucket(p, h, t, b, s, k);
    if c == d {
      HopsLimit(p, h, t, d, s, n - k, n - j);
    }
  }

  /** The last entry of a path of d hops moved into the empty slot at its end. */
  function MoveLast(p: Params, h: Heap, t: Slots, b: nat, s: nat, d: nat): (r: Slots)
    requires p.Valid() && SlotsOk(p, h, t) && b < p.size && s < SLOTS && d > 0
    ensures SlotsOk(p, h, r)
  {
    Move(t, PathBucket(p, h, t, b, s, d - 1), PathBucket(p, h, t, b, s, d), s)
  }

  /** Moving the last entry shortens the path by one hop. */
  lemma {:induction false} MoveLastShortens(p: Params, h: Heap, t: Slots, b: nat, s: nat, n: nat)
    requires p.Valid() && SlotsOk(p, h, t) && b < p.size && s < SLOTS
    requires 0 < Hops(p, h, t, b, s, n) <= n
    ensures var d := Hops(p, h, t, b, s, n);
            Hops(p, h, MoveLast(p, h, t, b, s, d), b, s, n) == d - 1
    decreases n
  {
    var d := Hops(p, h, t, b, s, n);
    var t' := MoveLast(p, h, t, b, s, d);
    if d > 1 {
      var c := NextOf(p, h, t, b, s);
      MoveLastShortens(p, h, t, c, s, n - 1);
      assert MoveLast(p, h, t, c, s, d - 1) == t';
      PathDistinct(p, h, t, b, s, n, 0, d - 1);
      PathDistinct(p, h, t, b, s, n, 0, d);
      assert t'[b][s] == t[b][s];
    }
  }

  /** Paths in a lane depend only on that lane. */
  lemma {:induction false} HopsOtherLane(p: Params, h: Heap, t: Slots, t': Slots, b: nat, s: nat, n: nat)
    requires p.Valid() && SlotsOk(p, h, t) && SlotsOk(p, h, t') && b < p.size && s < SLOTS
    requires forall c | 0 <= c < p.size :: t'[c][s] == t[c][s]
    ensures Hops(p, h, t', b, s, n) == Hops(p, h, t, b, s, n)
    decreases n
  {
    if t[b][s].ptr != NULL && n > 0 {
      HopsOtherLane(p, h, t, t', NextOf(p, h, t, b, s), s, n - 1);
    }
  }

  /** Allocating an entry changes no path. */
  lemma {:induction false} HopsNewEntry(p: Params, h: Heap, t: Slots, b: nat, s: nat, n: nat, f: string)
    requires p.Valid() && SlotsOk(p, h, t) && b < p.size && s < SLOTS
    ensures SlotsOk(p, h + [f], t)
    ensures Hops(p, h + [f], t, b, s, n) == Hops(p, h, t, b, s, n)
    decreases n
  {
    if t[b][s].ptr != NULL && n > 0 {
      HopsNewEntry(p, h, t, NextOf(p, h, t, b, s), s, n - 1, f);
    }
  }

  // ----- what a relocation keeps -----

  /** Entry `e` is in this lane, in some bucket. */
  ghost predicate InLane(p: Params, t: Slots, e: nat, s: nat)
    requires Shaped(p, t) && s < SLOTS
  {
    exists b :: 0 <= b < p.size && t[b][s].ptr == e
  }

  /** The same entries in the same lanes. */
  ghost predicate SameLanes(p: Params, t: Slots, t': Slots)
    requires Shaped(p, t) && Shaped(p, t')
  {
    forall e: nat, s: nat | e != NULL && s < SLOTS :: InLane(p, t', e, s) <==> InLane(p, t, e, s)
  }

  /** A move to an empty slot of the lane, whatever the size of the table. */
  lemma MoveKeepsLanes(p: Params, t: Slots, b: nat, d: nat, s: nat)
    requires Shaped(p, t) && b < p.size && d < p.size && s < SLOTS
    requires t[b][s].ptr != NULL && t[d][s].ptr == NULL
    ensures Shaped(p, Move(t, b, d, s)) && SameLanes(p, t, Move(t, b, d, s))
  {
    var t': Slots := Move(t, b, d, s);
    forall e: nat, l: nat | e != NULL && l < SLOTS
      ensures InLane(p, t', e, l) <==> InLane(p, t, e, l)
    {
      if c :| 0 <= c < p.size && t[c][l].ptr == e {
        assert t'[if c == b && l == s then d else c][l].ptr == e;
      }
      if c :| 0 <= c < p.size && t'[c][l].ptr == e {
        assert t[if c == d && l == s then b else c][l].ptr == e;
      }
    }
  }

  /** Every entry of `t` is in `t'`, in the same lane and in one of the same two buckets. */
  ghost predicate StaysIn(p: Params, h: Heap, t: Slots, t': Slots)
    requires p.Valid() && SlotsOk(p, h, t) && SlotsOk(p, h, t')
  {
    forall b, s {:trigger t[b][s]} | 0 <= b < p.size && 0 <= s < SLOTS && t[b][s].ptr != NULL ::
      || t'[b][s].ptr == t[b][s].ptr
      || t'[NextOf(p, h, t, b, s)][s].ptr == t[b][s].ptr
  }

  /** The same entries, each moved at most between its two buckets. */
  ghost predicate Rearranged(p: Params, h: Heap, t: Slots, t': Slots)
    requires p.Valid() && SlotsOk(p, h, t) && SlotsOk(p, h, t')
  {
    && StaysIn(p, h, t, t') && StaysIn(p, h, t', t)
    && Bag(p, Strings(p, h, t')) == Bag(p, Strings(p, h, t))
  }

  lemma StaysInTransitive(p: Params, h: Heap, t: Slots, u: Slots, v: Slots)
    requires p.Valid() && IsPow2(p.size) && SlotsOk(p, h, t) && SlotsOk(p, h, u) && SlotsOk(p, h, v)
    requires StaysIn(p, h, t, u) && StaysIn(p, h, u, v)
    ensures StaysIn(p, h, t, v)
  {
    forall b, s | 0 <= b < p.size && 0 <= s < SLOTS && t[b][s].ptr != NULL
      ensures v[b][s].ptr == t[b][s].ptr || v[NextOf(p, h, t, b, s)][s].ptr == t[b][s].ptr
    {
      var d := NextOf(p, h, t, b, s);
      NextIndexTwice(p, b, h[t[b][s].ptr]);
      if u[b][s].ptr == t[b][s].ptr {
        assert NextOf(p, h, u, b, s) == d;
      } else {
        assert u[d][s].ptr == t[b][s].ptr;
        assert NextOf(p, h, u, d, s) == b;
      }
    }
  }

  lemma StringsPut(p: Params, h: Heap, t: Slots, b: nat, s: nat, w: Word)
    requires SlotsOk(p, h, t) && b < p.size && s < SLOTS && w.ptr < |h|
    ensures SlotsOk(p, h, Put(t, b, s, w))
    ensures Strings(p, h, Put(t, b, s, w)) == Put(Strings(p, h, t), b, s, h[w.ptr])
  {
    var l, r := Strings(p, h, Put(t, b, s, w)), Put(Strings(p, h, t), b, s, h[w.ptr]);
    forall c | 0 <= c < p.size
      ensures l[c] == r[c]
    {
    }
  }

  /** A move to the alternate bucket's empty slot rearranges the table. */
  lemma MoveRearranges(p: Params, h: Heap, t: Slots, b: nat, s: nat)
    requires p.Valid() && IsPow2(p.size) && SlotsOk(p, h, t) && b < p.size && s < SLOTS
    requires var d := NextOf(p, h, t, b, s); t[b][s].ptr != NULL && t[d][s].ptr == NULL
    ensures var t' := Move(t, b, NextOf(p, h, t, b, s), s);
            SlotsOk(p, h, t') && Rearranged(p, h, t, t')
  {
    var d := NextOf(p, h, t, b, s);
    var t': Slots := Move(t, b, d, s);
    NextIndexTwice(p, b, h[t[b][s].ptr]);
    MoveKeepsBag(p, h, t, b, s);
    forall c, l | 0 <= c < p.size && 0 <= l < SLOTS && t[c][l].ptr != NULL
      ensures t'[c][l].ptr == t[c][l].ptr || t'[NextOf(p, h, t, c, l)][l].ptr == t[c][l].ptr
    {
      assert c != d || l != s;
    }
    forall c, l | 0 <= c < p.size && 0 <= l < SLOTS && t'[c][l].ptr != NULL
      ensures t[c][l].ptr == t'[c][l].ptr || t[NextOf(p, h, t', c, l)][l].ptr == t'[c][l].ptr
    {
      if c == d && l == s {
        assert NextOf(p, h, t', c, l) == b;
      }
    }
  }

  /** Moving a fingerprint between its two buckets does not change the bag. */
  lemma StringMoveKeepsBag(p: Params, t: Table, b: nat, d: nat, s: nat)
    requires p.Valid() && IsPow2(p.size) && Shaped(p, t) && b < p.size && d < p.size && s < SLOTS && b != d
    requires t[d][s] == "" && d == p.NextIndex(b, t[b][s])
    ensures Bag(p, Put(Put(t, d, s, t[b][s]), b, s, "")) == Bag(p, t)
  {
    var f := t[b][s];
    var t1 := Put(t, d, s, f);
    assert OneClass(p, d, f) == OneClass(p, b, f) by { ClassEitherBucket(p, b, f); }
    assert Bag(p, t1) == Bag(p, t) + OneClass(p, b, f) by { BagPut(p, t, d, s, f); }
    assert Bag(p, Put(t1, b, s, "")) + OneClass(p, b, f) == Bag(p, t1) by { BagPut(p, t1, b, s, ""); }
    Cancel(Bag(p, Put(t1, b, s, "")), Bag(p, t), OneClass(p, b, f));
  }

  lemma MoveKeepsBag(p: Params, h: Heap, t: Slots, b: nat, s: nat)
    requires p.Valid() && IsPow2(p.size) && SlotsOk(p, h, t) && b < p.size && s < SLOTS
    requires var d := NextOf(p, h, t, b, s); t[b][s].ptr != NULL && t[d][s].ptr == NULL
    ensures var t' := Move(t, b, NextOf(p, h, t, b, s), s);
            SlotsOk(p, h, t') && Bag(p, Strings(p, h, t')) == Bag(p, Strings(p, h, t))
  {
    var d := NextOf(p, h, t, b, s);
    var into := Word(Max(t[b][s].counter, t[d][s].counter) + 1, t[b][s].ptr, false);
    StringsPut(p, h, t, d, s, into);
    StringsPut(p, h, Put(t, d, s, into), b, s, Word(t[b][s].counter + 1, NULL, false));
    StringMoveKeepsBag(p, Strings(p, h, t), b, d, s);
  }

  lemma MoveKeepsOrder(p: Params, h: Heap, t: Slots, b: nat, s: nat)
    requires p.Valid() && SlotsOk(p, h, t) && b < p.size && s < SLOTS
    requires var d := NextOf(p, h, t, b, s); t[b][s].ptr != NULL && t[d][s].ptr == NULL
    requires Distinct(p, t) && Unmarked(p, t)
    ensures var t' := Move(t, b, NextOf(p, h, t, b, s), s);
            Shaped(p, t') && Distinct(p, t') && Unmarked(p, t')
  {
  }
}
