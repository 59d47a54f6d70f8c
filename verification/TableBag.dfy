/** The bag of kinds that a table of buckets holds, for any way of telling kinds. */
module TableBag {

  /** Four items a bucket; the empty string is an empty slot. */
  type Table = seq<seq<string>>

  /** The kind of a fingerprint found in a bucket. */
  type Kind<C> = (nat, string) -> C

  lemma Cancel<C>(a: multiset<C>, b: multiset<C>, x: multiset<C>)
    requires a + x == b + x
    ensures a == b
  {
    assert a == (a + x) - x && b == (b + x) - x;
  }

  function One<C>(k: Kind<C>, b: nat, f: string): multiset<C> {
    if f == "" then multiset{} else multiset{k(b, f)}
  }

  function RowBag<C>(k: Kind<C>, b: nat, row: seq<string>): multiset<C> {
    if row == [] then multiset{} else RowBag(k, b, row[..|row| - 1]) + One(k, b, row[|row| - 1])
  }

  /** The kinds in the first n buckets. */
  function BagUpTo<C>(k: Kind<C>, t: Table, n: nat): multiset<C>
    requires n <= |t|
  {
    if n == 0 then multiset{} else BagUpTo(k, t, n - 1) + RowBag(k, n - 1, t[n - 1])
  }

  function Put<T>(t: seq<seq<T>>, b: nat, slot: nat, x: T): (r: seq<seq<T>>)
    requires b < |t| && slot < |t[b]|
    ensures |r| == |t|
    ensures forall c | 0 <= c < |t| :: |r[c]| == |t[c]|
    ensures forall c, s | 0 <= c < |t| && 0 <= s < |t[c]| :: r[c][s] == if c == b && s == slot then x else t[c][s]
  {
    t[b := t[b][slot := x]]
  }

  lemma Swap<C>(a: multiset<C>, x: multiset<C>, b: multiset<C>, y: multiset<C>, z: multiset<C>)
    requires a + x == b + y
    ensures (a + z) + x == (b + z) + y
  {
    assert (a + z) + x == (a + x) + z;
    assert (b + z) + y == (b + y) + z;
  }

  lemma {:induction false} RowBagPut<C>(k: Kind<C>, b: nat, row: seq<string>, slot: nat, f: string)
    requires slot < |row|
    ensures RowBag(k, b, row[slot := f]) + One(k, b, row[slot]) == RowBag(k, b, row) + One(k, b, f)
    decreases |row|
  {
    var last := |row| - 1;
    var row' := row[slot := f];
    if slot == last {
      assert row'[..last] == row[..last];
    } else {
      RowBagPut(k, b, row[..last], slot, f);
      assert row'[..last] == row[..last][slot := f];
      Swap(RowBag(k, b, row'[..last]), One(k, b, row[slot]), RowBag(k, b, row[..last]), One(k, b, f),
           One(k, b, row[last]));
    }
  }

  lemma {:induction false} BagUpToPutAbove<C>(k: Kind<C>, t: Table, n: nat, b: nat, slot: nat, f: string)
    requires n <= b < |t| && slot < |t[b]|
    ensures BagUpTo(k, Put(t, b, slot, f), n) == BagUpTo(k, t, n)
    decreases n
  {
    if n > 0 {
      BagUpToPutAbove(k, t, n - 1, b, slot, f);
    }
  }

  /** Writing one slot trades the kind it held for the kind it gets. */
  lemma {:induction false} BagUpToPut<C>(k: Kind<C>, t: Table, n: nat, b: nat, slot: nat, f: string)
    requires b < n <= |t| && slot < |t[b]|
    ensures BagUpTo(k, Put(t, b, slot, f), n) + One(k, b, t[b][slot]) == BagUpTo(k, t, n) + One(k, b, f)
    decreases n
  {
    var t' := Put(t, b, slot, f);
    var out, into := One(k, b, t[b][slot]), One(k, b, f);
    var rest, rest' := BagUpTo(k, t, n - 1), BagUpTo(k, t', n - 1);
    var row, row' := RowBag(k, n - 1, t[n - 1]), RowBag(k, n - 1, t'[n - 1]);
    if b == n - 1 {
      assert row' + out == row + into by { RowBagPut(k, b, t[b], slot, f); }
      assert rest' == rest by { BagUpToPutAbove(k, t, n - 1, b, slot, f); }
      Swap(row', out, row, into, rest);
      assert rest + row' == row' + rest;
    } else {
      assert t'[n - 1] == t[n - 1];
      assert rest' + out == rest + into by { BagUpToPut(k, t, n - 1, b, slot, f); }
      Swap(rest', out, rest, into, row);
    }
  }

  predicate RowHolds<C(==)>(k: Kind<C>, b: nat, row: seq<string>, s: nat, c: C) {
    s < |row| && row[s] != "" && k(b, row[s]) == c
  }

  lemma RowBagLast<C>(k: Kind<C>, b: nat, row: seq<string>, c: C)
    requires row != []
    ensures c in RowBag(k, b, row)
       <==> c in RowBag(k, b, row[..|row| - 1]) || RowHolds(k, b, row, |row| - 1, c)
  {
    var f := row[|row| - 1];
    assert c in One(k, b, f) <==> f != "" && k(b, f) == c;
  }

  lemma {:induction false} RowBagHas<C>(k: Kind<C>, b: nat, row: seq<string>, c: C)
    ensures c in RowBag(k, b, row) <==> exists s: nat :: RowHolds(k, b, row, s, c)
    decreases |row|
  {
    if row != [] {
      var last := |row| - 1;
      RowBagLast(k, b, row, c);
      RowBagHas(k, b, row[..last], c);
      if s: nat :| RowHolds(k, b, row[..last], s, c) {
        assert RowHolds(k, b, row, s, c);
      } else if s: nat :| RowHolds(k, b, row, s, c) {
        assert s < last ==> RowHolds(k, b, row[..last], s, c);
      }
    }
  }

  predicate StoredAt<C(==)>(k: Kind<C>, t: Table, b: nat, s: nat, c: C) {
    b < |t| && RowHolds(k, b, t[b], s, c)
  }

  ghost predicate Stores<C>(k: Kind<C>, t: Table, n: nat, c: C) {
    exists b: nat, s: nat :: b < n && StoredAt(k, t, b, s, c)
  }

  lemma StoresLast<C>(k: Kind<C>, t: Table, b: nat, c: C)
    requires b < |t|
    ensures Stores(k, t, b + 1, c) <==> Stores(k, t, b, c) || exists s: nat :: RowHolds(k, b, t[b], s, c)
  {
    if s: nat :| RowHolds(k, b, t[b], s, c) {
      assert StoredAt(k, t, b, s, c);
    }
  }

  /** A kind is in the bag exactly when some slot holds it. */
  lemma {:induction false} BagUpToHas<C>(k: Kind<C>, t: Table, n: nat, c: C)
    requires n <= |t|
    ensures c in BagUpTo(k, t, n) <==> Stores(k, t, n, c)
    decreases n
  {
    if n > 0 {
      var b := n - 1;
      BagUpToHas(k, t, b, c);
      assert c in RowBag(k, b, t[b]) <==> exists s: nat :: RowHolds(k, b, t[b], s, c) by {
        RowBagHas(k, b, t[b], c);
      }
      StoresLast(k, t, b, c);
      assert BagUpTo(k, t, n) == BagUpTo(k, t, b) + RowBag(k, b, t[b]);
    }
  }
}
