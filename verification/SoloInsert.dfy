/** Why an insert that relocates entries comes to an end, and how far it may have to go. */
module SoloInsert {
  import opened Bits
  import opened HashIndex
  import opened Words
  import opened ClassBag
  import opened SoloSpec

  /** A hop fewer than the kicks: the longest path a relocation completes. */
  const LIMIT: nat := MAX_KICKS - 1

  function LaneHops(p: Params, h: Heap, t: Slots, b: nat, s: nat): (k: nat)
    requires p.Valid() && SlotsOk(p, h, t) && b < p.size && s < SLOTS
    ensures k <= LIMIT + 1
    ensures k == 0 <==> t[b][s].ptr == NULL
  {
    Hops(p, h, t, b, s, LIMIT)
  }

  /** Some lane of the bucket reaches an empty slot in time. */
  ghost predicate CanFree(p: Params, h: Heap, t: Slots, b: nat)
    requires p.Valid() && SlotsOk(p, h, t) && b < p.size
  {
    exists s: nat :: s < SLOTS && LaneHops(p, h, t, b, s) <= LIMIT
  }

  /** Up to n hops away there is an empty slot exactly if one of the path's first n + 1 slots is one. */
  lemma {:induction false} HopsWithin(p: Params, h: Heap, t: Slots, b: nat, s: nat, n: nat)
    requires p.Valid() && SlotsOk(p, h, t) && b < p.size && s < SLOTS
    ensures Hops(p, h, t, b, s, n) <= n <==> exists k: nat :: k <= n && EmptyAt(p, h, t, b, s, k)
    decreases n
  {
    if t[b][s].ptr == NULL {
      assert EmptyAt(p, h, t, b, s, 0);
    } else if n > 0 {
      var c := NextOf(p, h, t, b, s);
      HopsWithin(p, h, t, c, s, n - 1);
      if k: nat :| k <= n - 1 && EmptyAt(p, h, t, c, s, k) {
        assert EmptyAt(p, h, t, b, s, k + 1);
      }
      if k: nat :| k <= n && EmptyAt(p, h, t, b, s, k) {
        assert k > 0 && EmptyAt(p, h, t, c, s, k - 1);
      }
    }
  }

  /** The k-th slot of this lane's path is empty. */
  predicate EmptyAt(p: Params, h: Heap, t: Slots, b: nat, s: nat, k: nat)
    requires p.Valid() && SlotsOk(p, h, t) && b < p.size && s < SLOTS
  {
    t[PathBucket(p, h, t, b, s, k)][s].ptr == NULL
  }

  /** One of the first ten slots of this lane's path is empty. */
  ghost predicate RoomInTen(p: Params, h: Heap, t: Slots, b: nat, s: nat)
    requires p.Valid() && SlotsOk(p, h, t) && b < p.size && s < SLOTS
  {
    exists k: nat :: k < 10 && EmptyAt(p, h, t, b, s, k)
  }

  /** A bucket can be freed exactly if, in one of its four lanes, one of the first ten slots of the path is empty. */
  lemma CanFreeIff(p: Params, h: Heap, t: Slots, b: nat)
    requires p.Valid() && SlotsOk(p, h, t) && b < p.size
    ensures CanFree(p, h, t, b) <==> exists s: nat :: s < 4 && RoomInTen(p, h, t, b, s)
  {
    forall s: nat | s < SLOTS
      ensures LaneHops(p, h, t, b, s) <= LIMIT <==> RoomInTen(p, h, t, b, s)
    {
      WithinTen(p, h, t, b, s, LIMIT);
    }
  }

  lemma WithinTen(p: Params, h: Heap, t: Slots, b: nat, s: nat, n: nat)
    requires p.Valid() && SlotsOk(p, h, t) && b < p.size && s < SLOTS && n + 1 == 10
    ensures Hops(p, h, t, b, s, n) <= n <==> RoomInTen(p, h, t, b, s)
  {
    HopsWithin(p, h, t, b, s, n);
  }

  /** One of the key's eight slots is empty. */
  predicate HasEmpty(p: Params, t: Slots, b1: nat, b2: nat)
    requires Shaped(p, t) && b1 < p.size && b2 < p.size
  {
    exists s: nat | s < SLOTS :: t[b1][s].ptr == NULL || t[b2][s].ptr == NULL
  }

  /** All the hops left in the first n lanes that can be freed. */
  function Cost(p: Params, h: Heap, t: Slots, b: nat, n: nat): nat
    requires p.Valid() && SlotsOk(p, h, t) && b < p.size && n <= SLOTS
  {
    if n == 0 then 0
    else
      var k := LaneHops(p, h, t, b, n - 1);
      Cost(p, h, t, b, n - 1) + if k <= LIMIT then k else 0
  }

  /** How many of the first n lanes can be freed. */
  function Lanes(p: Params, h: Heap, t: Slots, b: nat, n: nat): (k: nat)
    requires p.Valid() && SlotsOk(p, h, t) && b < p.size && n <= SLOTS
    ensures k <= n
  {
    if n == 0 then 0
    else Lanes(p, h, t, b, n - 1) + if LaneHops(p, h, t, b, n - 1) <= LIMIT then 1 else 0
  }

  lemma {:induction false} CostBounds(p: Params, h: Heap, t: Slots, b: nat, n: nat)
    requires p.Valid() && SlotsOk(p, h, t) && b < p.size && n <= SLOTS
    ensures Cost(p, h, t, b, n) <= LIMIT * Lanes(p, h, t, b, n)
    ensures (forall s | 0 <= s < n :: t[b][s].ptr != NULL) ==> Cost(p, h, t, b, n) >= Lanes(p, h, t, b, n)
    decreases n
  {
    if n > 0 {
      CostBounds(p, h, t, b, n - 1);
    }
  }

  /** A relocation in lane s, as seen by every lane of the bucket. */
  ghost predicate Shortens(p: Params, h: Heap, t: Slots, t': Slots, b: nat, s: nat)
    requires p.Valid() && SlotsOk(p, h, t) && SlotsOk(p, h, t') && b < p.size && s < SLOTS
  {
    && 0 < LaneHops(p, h, t, b, s) <= LIMIT
    && forall l: nat | l < SLOTS ::
         LaneHops(p, h, t', b, l) == LaneHops(p, h, t, b, l) - if l == s then 1 else 0
  }

  lemma RelocationShortens(p: Params, h: Heap, t: Slots, b: nat, s: nat)
    requires p.Valid() && SlotsOk(p, h, t) && b < p.size && s < SLOTS
    requires 0 < LaneHops(p, h, t, b, s) <= LIMIT
    ensures Shortens(p, h, t, MoveLast(p, h, t, b, s, LaneHops(p, h, t, b, s)), b, s)
  {
    var t' := MoveLast(p, h, t, b, s, LaneHops(p, h, t, b, s));
    MoveLastShortens(p, h, t, b, s, LIMIT);
    forall l: nat | l < SLOTS && l != s
      ensures LaneHops(p, h, t', b, l) == LaneHops(p, h, t, b, l)
    {
      HopsOtherLane(p, h, t, t', b, l, LIMIT);
    }
  }

  lemma {:induction false} ShortensCost(p: Params, h: Heap, t: Slots, t': Slots, b: nat, s: nat, n: nat)
    requires p.Valid() && SlotsOk(p, h, t) && SlotsOk(p, h, t') && b < p.size && s < SLOTS && n <= SLOTS
    requires Shortens(p, h, t, t', b, s)
    ensures Lanes(p, h, t', b, n) == Lanes(p, h, t, b, n)
    ensures Cost(p, h, t', b, n) == Cost(p, h, t, b, n) - if s < n then 1 else 0
    decreases n
  {
    if n > 0 {
      ShortensCost(p, h, t, t', b, s, n - 1);
    }
  }

  /** The lane's last entry goes into the empty slot at the end of the path: a plain move. */
  lemma MoveLastIsMove(p: Params, h: Heap, t: Slots, b: nat, s: nat)
    requires p.Valid() && SlotsOk(p, h, t) && b < p.size && s < SLOTS
    requires 0 < LaneHops(p, h, t, b, s) <= LIMIT
    ensures var d := LaneHops(p, h, t, b, s);
            var c := PathBucket(p, h, t, b, s, d - 1);
            && t[c][s].ptr != NULL
            && PathBucket(p, h, t, b, s, d) == NextOf(p, h, t, c, s)
            && t[NextOf(p, h, t, c, s)][s].ptr == NULL
  {
    var d := LaneHops(p, h, t, b, s);
    HopsAlong(p, h, t, b, s, LIMIT, d - 1);
    HopsAlong(p, h, t, b, s, LIMIT, d);
    PathStep(p, h, t, b, s, d - 1);
  }

  /** The same entries in the same lanes; where alternates lead back, in the same bucket pairs. */
  ghost predicate LanesKept(p: Params, h: Heap, t0: Slots, t: Slots)
    requires p.Valid() && SlotsOk(p, h, t0) && SlotsOk(p, h, t)
  {
    SameLanes(p, t0, t) && (IsPow2(p.size) ==> Rearranged(p, h, t0, t))
  }

  /**
    A relocation keeps every entry in its lane and the table in order; where
    alternates lead back, it rearranges entries within their bucket pairs.
   */
  lemma RelocationRearranges(p: Params, h: Heap, t: Slots, b: nat, s: nat)
    requires p.Valid() && SlotsOk(p, h, t) && b < p.size && s < SLOTS
    requires 0 < LaneHops(p, h, t, b, s) <= LIMIT
    requires Distinct(p, t) && Unmarked(p, t)
    ensures var t' := MoveLast(p, h, t, b, s, LaneHops(p, h, t, b, s));
            LanesKept(p, h, t, t') && Distinct(p, t') && Unmarked(p, t')
  {
    var c := PathBucket(p, h, t, b, s, LaneHops(p, h, t, b, s) - 1);
    MoveLastIsMove(p, h, t, b, s);
    MoveKeepsLanes(p, t, c, NextOf(p, h, t, c, s), s);
    MoveKeepsOrder(p, h, t, c, s);
    if IsPow2(p.size) {
      MoveRearranges(p, h, t, c, s);
    }
  }

  /** How far an insert into buckets `b` and `b2` has come from table `t0` to `t` with `done` relocations. */
  ghost predicate Progress(p: Params, h: Heap, t0: Slots, t: Slots, b: nat, b2: nat, done: nat)
    requires p.Valid() && SlotsOk(p, h, t0) && SlotsOk(p, h, t) && b < p.size && b2 < p.size
  {
    && (done == 0 ==> t == t0)
    && (CanFree(p, h, t, b) <==> CanFree(p, h, t0, b))
    && (done > 0 ==> CanFree(p, h, t0, b) && !HasEmpty(p, t0, b, b2))
    && Lanes(p, h, t, b, SLOTS) == Lanes(p, h, t0, b, SLOTS)
    && done + Cost(p, h, t, b, SLOTS) == Cost(p, h, t0, b, SLOTS)
    && (done > 0 ==> done + Lanes(p, h, t0, b, SLOTS) <= Cost(p, h, t0, b, SLOTS) + 1)
  }

  lemma NoProgressYet(p: Params, h: Heap, t: Slots, b: nat, b2: nat)
    requires p.Valid() && SlotsOk(p, h, t) && b < p.size && b2 < p.size
    ensures Progress(p, h, t, t, b, b2, 0)
  {
  }

  /** One more relocation keeps what those before it kept. */
  lemma KeptTwice(p: Params, h: Heap, t: Slots, u: Slots, v: Slots)
    requires p.Valid() && SlotsOk(p, h, t) && SlotsOk(p, h, u) && SlotsOk(p, h, v)
    requires LanesKept(p, h, t, u) && LanesKept(p, h, u, v)
    ensures LanesKept(p, h, t, v)
  {
    if IsPow2(p.size) {
      StaysInTransitive(p, h, t, u, v);
      StaysInTransitive(p, h, v, u, t);
    }
  }

  /** Each relocation lowers the hops left, and cannot use up the last lane's last hop. */
  lemma OneMoreRelocation(p: Params, h: Heap, t0: Slots, t: Slots, b: nat, b2: nat, s: nat, done: nat)
    requires p.Valid() && SlotsOk(p, h, t0) && SlotsOk(p, h, t) && b < p.size && b2 < p.size && s < SLOTS
    requires Progress(p, h, t0, t, b, b2, done)
    requires 0 < LaneHops(p, h, t, b, s) <= LIMIT && !HasEmpty(p, t, b, b2)
    ensures var t' := MoveLast(p, h, t, b, s, LaneHops(p, h, t, b, s));
            Progress(p, h, t0, t', b, b2, done + 1) && Cost(p, h, t', b, SLOTS) < Cost(p, h, t, b, SLOTS)
  {
    var t' := MoveLast(p, h, t, b, s, LaneHops(p, h, t, b, s));
    RelocationShortens(p, h, t, b, s);
    ShortensCost(p, h, t, t', b, s, SLOTS);
    CostBounds(p, h, t, b, SLOTS);
    assert LaneHops(p, h, t', b, s) <= LIMIT;
  }

  /** At most 33 relocations: four lanes of nine hops, all but one left with one hop to go. */
  lemma RelocationsBounded(p: Params, h: Heap, t0: Slots, t: Slots, b: nat, b2: nat, done: nat)
    requires p.Valid() && SlotsOk(p, h, t0) && SlotsOk(p, h, t) && b < p.size && b2 < p.size
    requires Progress(p, h, t0, t, b, b2, done)
    ensures done <= 33
  {
    CostBounds(p, h, t0, b, SLOTS);
  }
}
