/** What the calls of the sequential filter compute, as functions of the table, and what that means for its bag. */
module SeqSpec {
  import opened Bits
  import opened HashIndex
  import opened Words
  import opened TableBag
  import opened ClassBag

  /** Index of the first occurrence of `f`, or the length. */
  function IndexOf(row: seq<string>, f: string): (i: nat)
    ensures i <= |row|
    ensures i < |row| ==> row[i] == f
    ensures forall j | 0 <= j < i :: row[j] != f
    ensures i == |row| <==> f !in row
  {
    if row == [] then 0 else if row[0] == f then 0 else 1 + IndexOf(row[1..], f)
  }

  // ----- insert -----

  /** A table, a fingerprint in hand, and the bucket it goes to next. */
  datatype Hand = Hand(table: Table, fingerprint: string, bucket: nat)

  predicate HandOk(p: Params, h: Hand) {
    Shaped(p, h.table) && h.bucket < p.size
  }

  predicate HasRoom(p: Params, h: Hand)
    requires HandOk(p, h)
  {
    "" in h.table[h.bucket]
  }

  /** Put what is in hand into its bucket's first empty slot. */
  function Store(p: Params, h: Hand): (t: Table)
    requires HandOk(p, h) && HasRoom(p, h)
    ensures Shaped(p, t)
  {
    Put(h.table, h.bucket, IndexOf(h.table[h.bucket], ""), h.fingerprint)
  }

  /** Swap what is in hand with a slot of its bucket. */
  function KickOnce(p: Params, h: Hand, slot: nat): (r: Hand)
    requires p.Valid() && HandOk(p, h) && slot < SLOTS
    ensures HandOk(p, r)
  {
    var victim := h.table[h.bucket][slot];
    Hand(Put(h.table, h.bucket, slot, h.fingerprint), victim, p.NextIndex(h.bucket, victim))
  }

  predicate Picks(picks: seq<nat>) {
    forall i | 0 <= i < |picks| :: picks[i] < SLOTS
  }

  /** The kick loop: swap, and stop at the first bucket with room. */
  function KickLoop(p: Params, h: Hand, picks: seq<nat>): (r: (Hand, bool))
    requires p.Valid() && HandOk(p, h) && Picks(picks)
    ensures HandOk(p, r.0)
    decreases |picks|
  {
    if picks == [] then (h, false)
    else
      var k := KickOnce(p, h, picks[0]);
      if HasRoom(p, k) then (Hand(Store(p, k), "", k.bucket), true)
      else KickLoop(p, k, picks[1..])
  }

  /** `coin` and `picks` are what `rand` answers: which bucket to kick from, and which slot each time. */
  function Insert(p: Params, t: Table, key: string, coin: nat, picks: seq<nat>): (r: (Hand, bool))
    requires p.Valid() && Shaped(p, t) && Picks(picks)
    ensures HandOk(p, r.0)
  {
    var h1 := Hand(t, p.md5(key), p.Bucket1(key));
    var h2 := Hand(t, p.md5(key), p.Bucket2(key));
    if HasRoom(p, h1) then (Hand(Store(p, h1), "", h1.bucket), true)
    else if HasRoom(p, h2) then (Hand(Store(p, h2), "", h2.bucket), true)
    else KickLoop(p, if coin == 0 then h1 else h2, picks)
  }

  /** All the classes a kicking insert is responsible for. */
  function Held(p: Params, h: Hand): multiset<Class>
    requires p.Valid()
  {
    Bag(p, h.table) + OneClass(p, h.bucket, h.fingerprint)
  }

  lemma StoreAdds(p: Params, h: Hand)
    requires p.Valid() && HandOk(p, h) && HasRoom(p, h)
    ensures Bag(p, Store(p, h)) == Held(p, h)
  {
    BagPut(p, h.table, h.bucket, IndexOf(h.table[h.bucket], ""), h.fingerprint);
  }

  /** A swap neither makes nor loses anything. */
  lemma KickOnceConserves(p: Params, h: Hand, slot: nat)
    requires p.Valid() && IsPow2(p.size) && HandOk(p, h) && slot < SLOTS
    ensures Held(p, KickOnce(p, h, slot)) == Held(p, h)
  {
    BagPut(p, h.table, h.bucket, slot, h.fingerprint);
    ClassEitherBucket(p, h.bucket, h.table[h.bucket][slot]);
  }

  /** However it ends, the kick loop keeps what it was given, in the table or in hand. */
  lemma {:induction false} KickLoopConserves(p: Params, h: Hand, picks: seq<nat>)
    requires p.Valid() && IsPow2(p.size) && HandOk(p, h) && Picks(picks)
    ensures Held(p, KickLoop(p, h, picks).0) == Held(p, h)
    ensures KickLoop(p, h, picks).1 ==> KickLoop(p, h, picks).0.fingerprint == ""
    decreases |picks|
  {
    if picks != [] {
      var k := KickOnce(p, h, picks[0]);
      KickOnceConserves(p, h, picks[0]);
      if HasRoom(p, k) {
        StoreAdds(p, k);
      } else {
        KickLoopConserves(p, k, picks[1..]);
      }
    }
  }

  /** The swaps alone, without looking for room. */
  function Swaps(p: Params, h: Hand, picks: seq<nat>): (r: Hand)
    requires p.Valid() && HandOk(p, h) && Picks(picks)
    ensures HandOk(p, r)
    decreases |picks|
  {
    if picks == [] then h else Swaps(p, KickOnce(p, h, picks[0]), picks[1..])
  }

  ghost predicate FullAfter(p: Params, h: Hand, picks: seq<nat>, n: nat)
    requires p.Valid() && HandOk(p, h) && Picks(picks) && n <= |picks|
  {
    !HasRoom(p, Swaps(p, h, picks[..n]))
  }

  /** The loop fails exactly when each bucket it comes to is full when it gets there; then it has done all the swaps. */
  lemma {:induction false} KickLoopFailsIff(p: Params, h: Hand, picks: seq<nat>)
    requires p.Valid() && HandOk(p, h) && Picks(picks)
    ensures !KickLoop(p, h, picks).1 <==> forall n: nat | 0 < n <= |picks| :: FullAfter(p, h, picks, n)
    ensures !KickLoop(p, h, picks).1 ==> KickLoop(p, h, picks).0 == Swaps(p, h, picks)
    decreases |picks|
  {
    if picks != [] {
      var k := KickOnce(p, h, picks[0]);
      KickLoopFailsIff(p, k, picks[1..]);
      forall n: nat | 0 < n <= |picks|
        ensures Swaps(p, h, picks[..n]) == Swaps(p, k, picks[1..][..n - 1])
      {
        assert picks[..n][1..] == picks[1..][..n - 1];
      }
      if HasRoom(p, k) {
        assert picks[..1][1..] == [];
        assert !FullAfter(p, h, picks, 1);
      } else {
        forall n: nat | 0 < n < |picks|
          ensures FullAfter(p, k, picks[1..], n) <==> FullAfter(p, h, picks, n + 1)
        {
        }
        assert picks[..1][1..] == [];
        assert FullAfter(p, h, picks, 1);
        KickLoopFullBoth(p, h, k, picks);
      }
    }
  }

  lemma KickLoopFullBoth(p: Params, h: Hand, k: Hand, picks: seq<nat>)
    requires p.Valid() && HandOk(p, h) && HandOk(p, k) && Picks(picks) && picks != []
    requires FullAfter(p, h, picks, 1)
    requires forall n: nat | 0 < n < |picks| :: FullAfter(p, k, picks[1..], n) <==> FullAfter(p, h, picks, n + 1)
    ensures (forall n: nat | 0 < n <= |picks| :: FullAfter(p, h, picks, n))
            <==> (forall n: nat | 0 < n <= |picks| - 1 :: FullAfter(p, k, picks[1..], n))
  {
    if forall n: nat | 0 < n <= |picks| - 1 :: FullAfter(p, k, picks[1..], n) {
      forall n: nat | 0 < n <= |picks|
        ensures FullAfter(p, h, picks, n)
      {
        if n > 1 {
          assert FullAfter(p, k, picks[1..], n - 1);
        }
      }
    }
  }

  /** Out of a full bucket a real fingerprint comes, so a failed loop still holds one. */
  lemma {:induction false} FailedLoopHoldsOne(p: Params, h: Hand, picks: seq<nat>)
    requires p.Valid() && HandOk(p, h) && Picks(picks)
    requires !HasRoom(p, h) && h.fingerprint != ""
    ensures !KickLoop(p, h, picks).1 ==> KickLoop(p, h, picks).0.fingerprint != ""
    decreases |picks|
  {
    if picks != [] {
      var k := KickOnce(p, h, picks[0]);
      if !HasRoom(p, k) {
        FailedLoopHoldsOne(p, k, picks[1..]);
      }
    }
  }

  /**
    A true insert adds exactly one to the key's class and changes no other.
    A failed one also adds the key's class, but drops one class `v`, so the
    number of stored fingerprints stays the same.
   */
  lemma InsertMeaning(p: Params, t: Table, key: string, coin: nat, picks: seq<nat>)
    requires Usual(p) && Shaped(p, t) && Picks(picks)
    ensures var (h, ok) := Insert(p, t, key, coin, picks);
            && (ok ==> Bag(p, h.table) == Bag(p, t) + multiset{KeyClass(p, key)})
            && (!ok ==> Bag(p, h.table) + multiset{ClassAt(p, h.bucket, h.fingerprint)}
                        == Bag(p, t) + multiset{KeyClass(p, key)})
            && (!ok ==> |Bag(p, h.table)| == |Bag(p, t)|)
  {
    var f := p.md5(key);
    var h1 := Hand(t, f, p.Bucket1(key));
    var h2 := Hand(t, f, p.Bucket2(key));
    ClassEitherBucket(p, p.Bucket1(key), f);
    assert Held(p, h1) == Held(p, h2) == Bag(p, t) + multiset{KeyClass(p, key)};
    if HasRoom(p, h1) {
      StoreAdds(p, h1);
    } else if HasRoom(p, h2) {
      StoreAdds(p, h2);
    } else {
      var h := if coin == 0 then h1 else h2;
      var r := KickLoop(p, h, picks);
      KickLoopConserves(p, h, picks);
      FailedLoopHoldsOne(p, h, picks);
      if !r.1 {
        assert |Bag(p, r.0.table) + multiset{ClassAt(p, r.0.bucket, r.0.fingerprint)}|
            == |Bag(p, t) + multiset{KeyClass(p, key)}|;
      }
    }
  }

  /**
    An insert fails exactly when both of the key's buckets are full, and so is
    each of the buckets its swaps, one for each answer of `rand`, come to.
   */
  lemma InsertFailsIff(p: Params, t: Table, key: string, coin: nat, picks: seq<nat>)
    requires p.Valid() && Shaped(p, t) && Picks(picks)
    ensures var start := Hand(t, p.md5(key), if coin == 0 then p.Bucket1(key) else p.Bucket2(key));
            !Insert(p, t, key, coin, picks).1 <==>
              && "" !in t[p.Bucket1(key)] && "" !in t[p.Bucket2(key)]
              && forall n: nat | 0 < n <= |picks| :: FullAfter(p, start, picks, n)
  {
    KickLoopFailsIff(p, Hand(t, p.md5(key), if coin == 0 then p.Bucket1(key) else p.Bucket2(key)), picks);
  }

  /** Where there is room, the first empty slot of the first of the key's buckets that has one is filled. */
  lemma InsertFillsFirst(p: Params, t: Table, key: string, coin: nat, picks: seq<nat>)
    requires p.Valid() && Shaped(p, t) && Picks(picks)
    requires "" in t[p.Bucket1(key)] || "" in t[p.Bucket2(key)]
    ensures exists b: nat, i: nat ::
              && b < p.size && i < 4 && t[b][i] == "" && (forall j | 0 <= j < i :: t[b][j] != "")
              && (b == p.Bucket1(key) || ("" !in t[p.Bucket1(key)] && b == p.Bucket2(key)))
              && Insert(p, t, key, coin, picks).1
              && Insert(p, t, key, coin, picks).0.table == Put(t, b, i, p.md5(key))
  {
    var b := if "" in t[p.Bucket1(key)] then p.Bucket1(key) else p.Bucket2(key);
    var i := IndexOf(t[b], "");
    assert t[b][i] == "" && forall j | 0 <= j < i :: t[b][j] != "";
  }

  /** A swap exchanges what is in hand with the picked slot, and changes no other. */
  lemma KickOnceExchanges(p: Params, h: Hand, slot: nat)
    requires p.Valid() && HandOk(p, h) && slot < SLOTS
    ensures var k := KickOnce(p, h, slot);
            && k.table[h.bucket][slot] == h.fingerprint && k.fingerprint == h.table[h.bucket][slot]
            && (forall b, i | 0 <= b < p.size && 0 <= i < SLOTS && (b != h.bucket || i != slot) ::
                  k.table[b][i] == h.table[b][i])
            && k.bucket == p.NextIndex(h.bucket, k.fingerprint)
  {
  }

  // ----- find and remove -----

  predicate Find(p: Params, t: Table, key: string)
    requires p.Valid() && Shaped(p, t)
  {
    p.md5(key) in t[p.Bucket1(key)] || p.md5(key) in t[p.Bucket2(key)]
  }

  function Remove(p: Params, t: Table, key: string): (r: (Table, bool))
    requires p.Valid() && Shaped(p, t)
    ensures Shaped(p, r.0)
  {
    var f, b1, b2 := p.md5(key), p.Bucket1(key), p.Bucket2(key);
    if f in t[b1] then (Put(t, b1, IndexOf(t[b1], f), ""), true)
    else if f in t[b2] then (Put(t, b2, IndexOf(t[b2], f), ""), true)
    else (t, false)
  }

  lemma TakeOut(p: Params, t: Table, b: nat, f: string)
    requires p.Valid() && Shaped(p, t) && b < p.size && f in t[b] && f != ""
    ensures Bag(p, Put(t, b, IndexOf(t[b], f), "")) == Bag(p, t) - multiset{ClassAt(p, b, f)}
  {
    BagPut(p, t, b, IndexOf(t[b], f), "");
    assert Bag(p, Put(t, b, IndexOf(t[b], f), "")) + multiset{ClassAt(p, b, f)} == Bag(p, t);
  }

  /** A remove succeeds exactly when the key's class is stored, and takes exactly one of it. */
  lemma RemoveMeaning(p: Params, t: Table, key: string)
    requires Usual(p) && Shaped(p, t)
    ensures var (t', ok) := Remove(p, t, key);
            && (ok <==> KeyClass(p, key) in Bag(p, t))
            && Bag(p, t') == if ok then Bag(p, t) - multiset{KeyClass(p, key)} else Bag(p, t)
  {
    var f, b1, b2 := p.md5(key), p.Bucket1(key), p.Bucket2(key);
    KeyStoredIff(p, t, key);
    ClassEitherBucket(p, b1, f);
    if f in t[b1] {
      TakeOut(p, t, b1, f);
    } else if f in t[b2] {
      TakeOut(p, t, b2, f);
    }
  }

  /** A freshly built filter stores nothing. */
  lemma EmptyBag(p: Params, t: Table)
    requires p.Valid() && Shaped(p, t)
    requires forall b, s | 0 <= b < |t| && 0 <= s < SLOTS :: t[b][s] == ""
    ensures Bag(p, t) == multiset{}
  {
    forall c: Class
      ensures c !in Bag(p, t)
    {
      BagUpToHas(Classes(p), t, |t|, c);
    }
  }
}
