/** The contents of one table slot, and the constants all filters share. */
module Words {

  /** Items per bucket. */
  const SLOTS: nat := 4

  /** Longest chain of replacements an insert tries. */
  const MAX_KICKS: nat := 10

  /** Largest relocation count a slot can hold. */
  const MAX_COUNTER: nat := 65535

  /** The address no entry has. */
  const NULL: nat := 0

  /** A table pointer: relocation count, entry address, relocation mark. */
  datatype Word = Word(counter: nat, ptr: nat, mark: bool)

  const EMPTY := Word(0, NULL, false)

  /** All lanes of a bucket, each once, in some order. */
  predicate IsOrder(order: seq<nat>) {
    |order| == SLOTS && (forall i | 0 <= i < SLOTS :: order[i] < SLOTS) && forall s: nat | s < SLOTS :: s in order
  }

  /** One such order. */
  const ORDER: seq<nat> := [0, 1, 2, 3]

  lemma OrderOk()
    ensures IsOrder(ORDER)
  {
    assert ORDER[0] == 0 && ORDER[1] == 1 && ORDER[2] == 2 && ORDER[3] == 3;
  }

  function Max(a: nat, b: nat): nat {
    if a > b then a else b
  }
}
