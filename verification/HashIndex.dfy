/**
  Buckets of a key. The two hash functions are foreign to this model: they are
  parameters, and every result holds whatever they compute.
 */
module HashIndex {
  import opened Bits

  datatype Params = Params(size: nat, hash: string -> nat, md5: string -> string)
  {
    predicate Valid() {
      size > 0
    }

    function Bucket1(key: string): (b: nat)
      requires Valid()
      ensures b < size
    {
      hash(key) % size
    }

    /** The bucket a fingerprint moves to when it leaves bucket `idx`. */
    function NextIndex(idx: nat, fingerprint: string): (b: nat)
      requires Valid()
      ensures b < size
    {
      Alternate(size, idx, hash(fingerprint) % size)
    }

    function Bucket2(key: string): (b: nat)
      requires Valid()
      ensures b < size
    {
      NextIndex(Bucket1(key), md5(key))
    }
  }

  function Alternate(size: nat, idx: nat, h: nat): (b: nat)
    requires size > 0
    ensures b < size
  {
    Xor(idx, h) % size
  }

  ghost predicate Involutive(size: nat)
    requires size > 0
  {
    forall idx: nat, h: nat | idx < size && h < size ::
      Alternate(size, Alternate(size, idx, h), h) == idx
  }

  lemma SmallMod(x: nat, n: nat)
    requires x < n
    ensures x % n == x
  {
  }

  lemma WrapMod(x: nat, n: nat)
    requires n <= x < 2 * n
    ensures x % n == x - n
  {
    assert x == 1 * n + (x - n);
  }

  lemma AlternateTwice(size: nat, idx: nat, h: nat)
    requires IsPow2(size) && idx < size && h < size
    ensures Alternate(size, idx, h) == Xor(idx, h)
    ensures Alternate(size, Alternate(size, idx, h), h) == idx
  {
    var k: nat :| size == Pow2(k);
    XorBelow(idx, h, k);
    XorCancels(idx, h);
    SmallMod(Xor(idx, h), size);
    SmallMod(idx, size);
  }

  /** From the highest bit's bucket, all lower bits set: the XOR is above the size, and wraps around once. */
  lemma HopOver(size: nat, k: nat, top: nat)
    requires top == Pow2(k) && top < size < 2 * top
    ensures Alternate(size, top, top - 1) == 2 * top - 1 - size
  {
    XorHighBit(k);
    WrapMod(2 * top - 1, size);
  }

  /** From there the same hash complements the lower bits, below the size. */
  lemma HopBack(size: nat, k: nat, top: nat)
    requires top == Pow2(k) && top < size < 2 * top
    ensures Alternate(size, 2 * top - 1 - size, top - 1) == size - top
  {
    XorComplement(2 * top - 1 - size, k);
    SmallMod(size - top, size);
  }

  lemma TwoHops(size: nat, k: nat, top: nat)
    requires top == Pow2(k) && top < size < 2 * top
    ensures Alternate(size, Alternate(size, top, top - 1), top - 1) == size - top
  {
    var mid: nat := 2 * top - 1 - size;
    assert Alternate(size, top, top - 1) == mid by { HopOver(size, k, top); }
    assert Alternate(size, mid, top - 1) == size - top by { HopBack(size, k, top); }
  }

  lemma StrictBinade(size: nat) returns (k: nat)
    requires size > 0 && !IsPow2(size)
    ensures Pow2(k) < size < 2 * Pow2(k)
  {
    k := Binade(size);
    assert size != Pow2(k);
  }

  /** A size between two powers of two has a pair that does not come back, nor stays after one hop. */
  lemma AlternateBreaks(size: nat) returns (idx: nat, h: nat)
    requires size > 0 && !IsPow2(size)
    ensures idx < size && h < size
    ensures Alternate(size, Alternate(size, idx, h), h) != idx
    ensures Alternate(size, idx, h) != idx && Alternate(size, Alternate(size, idx, h), h) != Alternate(size, idx, h)
  {
    var k := StrictBinade(size);
    idx := Pow2(k);
    h := idx - 1;
    TwoHops(size, k, idx);
    HopOver(size, k, idx);
    assert k > 0 && idx == 2 * Pow2(k - 1);
  }

  /** The size the benchmark gives all three filters is none. */
  lemma BenchmarkSize()
    ensures !IsPow2(256000)
  {
    assert Pow2(4) == 16;
    assert Pow2(8) == 16 * Pow2(4);
    assert Pow2(12) == 16 * Pow2(8);
    assert Pow2(16) == 16 * Pow2(12);
    assert Pow2(17) == 131072;
    if k: nat :| 256000 == Pow2(k) {
      Pow2Between(k, 17);
    }
  }

  lemma {:induction false} Pow2Grows(k: nat, m: nat)
    requires k <= m
    ensures Pow2(k) <= Pow2(m)
    decreases m
  {
    if k < m {
      Pow2Grows(k, m - 1);
    }
  }

  lemma Pow2Between(k: nat, m: nat)
    ensures Pow2(k) <= Pow2(m) || Pow2(k) >= 2 * Pow2(m)
  {
    if k <= m {
      Pow2Grows(k, m);
    } else {
      Pow2Grows(m + 1, k);
    }
  }

  /** The alternate bucket can be taken back exactly for power-of-two sizes. */
  lemma InvolutiveIffPowerOfTwo(size: nat)
    requires size > 0
    ensures Involutive(size) <==> IsPow2(size)
  {
    if IsPow2(size) {
      forall idx: nat, h: nat | idx < size && h < size
        ensures Alternate(size, Alternate(size, idx, h), h) == idx
      {
        AlternateTwice(size, idx, h);
      }
    } else {
      var idx, h := AlternateBreaks(size);
    }
  }

  lemma NextIndexTwice(p: Params, idx: nat, fingerprint: string)
    requires p.Valid() && IsPow2(p.size) && idx < p.size
    ensures p.NextIndex(p.NextIndex(idx, fingerprint), fingerprint) == idx
  {
    AlternateTwice(p.size, idx, p.hash(fingerprint) % p.size);
  }

  /** The two buckets coincide exactly when the fingerprint hashes to zero. */
  lemma SameBucketIff(p: Params, idx: nat, fingerprint: string)
    requires p.Valid() && IsPow2(p.size) && idx < p.size
    ensures p.NextIndex(idx, fingerprint) == idx <==> p.hash(fingerprint) % p.size == 0
  {
    var h := p.hash(fingerprint) % p.size;
    AlternateTwice(p.size, idx, h);
    if h == 0 {
      XorZero(idx);
    } else {
      XorChanges(idx, h);
    }
  }
}
