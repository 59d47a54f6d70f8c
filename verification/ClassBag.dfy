/**
  What a filter stores, seen from outside: a bag of classes. A class is a
  fingerprint with the unordered pair of buckets it may be in, so two keys are
  in one class exactly when no filter can tell them apart.
 */
module ClassBag {
  import opened Bits
  import opened HashIndex
  import opened Words
  import opened TableBag

  datatype Class = Class(fingerprint: string, buckets: set<nat>)

  /** Fingerprints are not empty. */
  ghost predicate Named(p: Params) {
    forall key: string {:trigger p.md5(key)} :: p.md5(key) != ""
  }

  /** What every result about classes assumes of the parameters. */
  ghost predicate Usual(p: Params) {
    p.Valid() && IsPow2(p.size) && Named(p)
  }

  predicate Shaped<T>(p: Params, t: seq<seq<T>>) {
    |t| == p.size && forall b | 0 <= b < |t| :: |t[b]| == SLOTS
  }

  function ClassAt(p: Params, b: nat, fingerprint: string): Class
    requires p.Valid()
  {
    Class(fingerprint, {b, p.NextIndex(b, fingerprint)})
  }

  function KeyClass(p: Params, key: string): Class
    requires p.Valid()
  {
    ClassAt(p, p.Bucket1(key), p.md5(key))
  }

  /** A fingerprint's class is the same seen from either of its buckets. */
  lemma ClassEitherBucket(p: Params, b: nat, fingerprint: string)
    requires p.Valid() && IsPow2(p.size) && b < p.size
    ensures ClassAt(p, p.NextIndex(b, fingerprint), fingerprint) == ClassAt(p, b, fingerprint)
  {
    NextIndexTwice(p, b, fingerprint);
  }

  lemma ClassOnlyTwoBuckets(p: Params, b: nat, c: nat, fingerprint: string)
    requires p.Valid() && ClassAt(p, b, fingerprint) == ClassAt(p, c, fingerprint)
    ensures c == b || c == p.NextIndex(b, fingerprint)
  {
    assert c in ClassAt(p, c, fingerprint).buckets;
  }

  // ----- the bag of a table -----

  function Classes(p: Params): Kind<Class>
    requires p.Valid()
  {
    (b: nat, fingerprint: string) => ClassAt(p, b, fingerprint)
  }

  function Bag(p: Params, t: Table): multiset<Class>
    requires p.Valid()
  {
    BagUpTo(Classes(p), t, |t|)
  }

  function OneClass(p: Params, b: nat, fingerprint: string): multiset<Class>
    requires p.Valid()
  {
    One(Classes(p), b, fingerprint)
  }

  /** Writing one slot trades the class it held for the class it gets. */
  lemma BagPut(p: Params, t: Table, b: nat, slot: nat, f: string)
    requires p.Valid() && b < |t| && slot < |t[b]|
    ensures Bag(p, Put(t, b, slot, f)) + OneClass(p, b, t[b][slot]) == Bag(p, t) + OneClass(p, b, f)
  {
    BagUpToPut(Classes(p), t, |t|, b, slot, f);
  }

  /** A key's class is stored exactly when its fingerprint is in one of its two buckets. */
  lemma KeyStoredIff(p: Params, t: Table, key: string)
    requires Usual(p) && Shaped(p, t)
    ensures KeyClass(p, key) in Bag(p, t) <==> p.md5(key) in t[p.Bucket1(key)] || p.md5(key) in t[p.Bucket2(key)]
  {
    var k, f, c := Classes(p), p.md5(key), KeyClass(p, key);
    var b1, b2 := p.Bucket1(key), p.Bucket2(key);
    BagUpToHas(k, t, |t|, c);
    ClassEitherBucket(p, b1, f);
    if c in Bag(p, t) {
      var b: nat, s: nat :| b < |t| && StoredAt(k, t, b, s, c);
      ClassOnlyTwoBuckets(p, b1, b, f);
    }
    if f in t[b1] {
      var s :| 0 <= s < |t[b1]| && t[b1][s] == f;
      assert StoredAt(k, t, b1, s, c);
    }
    if f in t[b2] {
      var s :| 0 <= s < |t[b2]| && t[b2][s] == f;
      assert StoredAt(k, t, b2, s, c);
    }
  }
}
