/**
  Table pointers as 64-bit words: sixteen bits of counter, the address with
  its lowest bit zero, and the mark in that lowest bit.
 */
module PointerUtils {
  import opened Words

  type Bits64 = bv64

  const COUNTER_MASK: Bits64 := 0xFFFF_0000_0000_0000
  const REAL_POINTER_MASK: Bits64 := 0xFFFF_FFFF_FFFE
  const MARK_MASK: Bits64 := 0x1
  const UINT16_MAX: Bits64 := 0xFFFF

  /** A word, or the program stopped because the counter does not fit. */
  datatype Outcome = Made(word: Bits64) | Aborted

  function GetCounter(word: Bits64): Bits64 {
    (word & COUNTER_MASK) >> 48
  }

  function GetRealPointer(word: Bits64): Bits64 {
    word & REAL_POINTER_MASK
  }

  predicate GetMarked(word: Bits64) {
    word & MARK_MASK != 0
  }

  function MarkBit(marked: bool): Bits64 {
    if marked then 1 else 0
  }

  function GetNewCounter(word: Bits64, counter: Bits64): Outcome {
    if counter > UINT16_MAX then Aborted
    else Made((word & !COUNTER_MASK) | (counter << 48))
  }

  function GetNewRealPointer(word: Bits64, pointer: Bits64): Bits64 {
    (word & !REAL_POINTER_MASK) | pointer
  }

  function GetNewMark(word: Bits64, marked: bool): Bits64 {
    (word & !MARK_MASK) | MarkBit(marked)
  }

  function CreatePointer(counter: Bits64, pointer: Bits64, marked: bool): Outcome {
    if counter > UINT16_MAX then Aborted
    else Made(MarkBit(marked) | pointer | (counter << 48))
  }

  /** An address the packing has room for: 48 bits, and even. */
  predicate Aligned(pointer: Bits64) {
    pointer & REAL_POINTER_MASK == pointer
  }

  /** Packing then unpacking gives every part back; it is refused exactly for large counters. */
  lemma CreateThenGet(counter: Bits64, pointer: Bits64, marked: bool)
    requires Aligned(pointer)
    ensures CreatePointer(counter, pointer, marked).Aborted? <==> counter > 65535
    ensures counter <= 65535 ==>
              var word := CreatePointer(counter, pointer, marked).word;
              GetCounter(word) == counter && GetRealPointer(word) == pointer && GetMarked(word) == marked
  {
  }

  /** Unpacking then packing gives every word back. */
  lemma GetThenCreate(word: Bits64)
    ensures Aligned(GetRealPointer(word)) && GetCounter(word) <= UINT16_MAX
    ensures CreatePointer(GetCounter(word), GetRealPointer(word), GetMarked(word)) == Made(word)
  {
  }

  /** So comparing words compares counter, address and mark. */
  lemma SameWordIff(a: Bits64, b: Bits64)
    ensures a == b <==>
            GetCounter(a) == GetCounter(b) && GetRealPointer(a) == GetRealPointer(b) && GetMarked(a) == GetMarked(b)
  {
    GetThenCreate(a);
    GetThenCreate(b);
  }

  /** An address with stray bits leaks into the other parts: the alignment is needed. */
  lemma MisalignedLeaks(counter: Bits64, pointer: Bits64, marked: bool)
    requires counter <= UINT16_MAX
    ensures var word := CreatePointer(counter, pointer, marked).word;
            Aligned(pointer) <==>
              GetRealPointer(word) == pointer
  {
  }

  lemma PointerBitsReplaced(word: Bits64, pointer: Bits64)
    requires Aligned(pointer)
    ensures GetRealPointer(GetNewRealPointer(word, pointer)) == pointer
  {
  }

  lemma PointerBitsOnly(word: Bits64, pointer: Bits64)
    requires Aligned(pointer)
    ensures GetNewRealPointer(word, pointer) & COUNTER_MASK == word & COUNTER_MASK
  {
  }

  lemma PointerBitsNotMark(word: Bits64, pointer: Bits64)
    requires Aligned(pointer)
    ensures GetNewRealPointer(word, pointer) & MARK_MASK == word & MARK_MASK
  {
  }

  /** A replaced address reads back, and the other two parts are kept. */
  lemma NewRealPointerReadsBack(word: Bits64, pointer: Bits64)
    requires Aligned(pointer)
    ensures GetCounter(GetNewRealPointer(word, pointer)) == GetCounter(word)
    ensures GetRealPointer(GetNewRealPointer(word, pointer)) == pointer
    ensures GetMarked(GetNewRealPointer(word, pointer)) == GetMarked(word)
  {
    var p := GetNewRealPointer(word, pointer);
    assert GetCounter(p) == GetCounter(word) by { PointerBitsOnly(word, pointer); }
    assert GetRealPointer(p) == pointer by { PointerBitsReplaced(word, pointer); }
    assert GetMarked(p) == GetMarked(word) by { PointerBitsNotMark(word, pointer); }
  }

  lemma CounterBitsReplaced(word: Bits64, counter: Bits64)
    requires counter <= UINT16_MAX
    ensures GetCounter((word & !COUNTER_MASK) | (counter << 48)) == counter
  {
  }

  lemma CounterBitsOnly(word: Bits64, counter: Bits64)
    requires counter <= UINT16_MAX
    ensures GetRealPointer((word & !COUNTER_MASK) | (counter << 48)) == GetRealPointer(word)
  {
  }

  lemma CounterBitsNotMark(word: Bits64, counter: Bits64)
    requires counter <= UINT16_MAX
    ensures ((word & !COUNTER_MASK) | (counter << 48)) & MARK_MASK == word & MARK_MASK
  {
  }

  /** A replaced counter reads back, and the other two parts are kept. */
  lemma NewCounterReadsBack(word: Bits64, counter: Bits64)
    requires counter <= UINT16_MAX
    ensures GetNewCounter(word, counter).Made?
    ensures GetCounter(GetNewCounter(word, counter).word) == counter
    ensures GetRealPointer(GetNewCounter(word, counter).word) == GetRealPointer(word)
    ensures GetMarked(GetNewCounter(word, counter).word) == GetMarked(word)
  {
    var c := GetNewCounter(word, counter).word;
    assert GetCounter(c) == counter by { CounterBitsReplaced(word, counter); }
    assert GetRealPointer(c) == GetRealPointer(word) by { CounterBitsOnly(word, counter); }
    assert GetMarked(c) == GetMarked(word) by { CounterBitsNotMark(word, counter); }
  }

  lemma MarkBitReplaced(word: Bits64, marked: bool)
    ensures GetMarked(GetNewMark(word, marked)) == marked
  {
  }

  lemma MarkBitNotPointer(word: Bits64, marked: bool)
    ensures GetRealPointer(GetNewMark(word, marked)) == GetRealPointer(word)
  {
  }

  lemma MarkBitNotCounter(word: Bits64, marked: bool)
    ensures GetNewMark(word, marked) & COUNTER_MASK == word & COUNTER_MASK
  {
  }

  /** A replaced mark reads back, and the other two parts are kept. */
  lemma NewMarkReadsBack(word: Bits64, marked: bool)
    ensures GetCounter(GetNewMark(word, marked)) == GetCounter(word)
    ensures GetRealPointer(GetNewMark(word, marked)) == GetRealPointer(word)
    ensures GetMarked(GetNewMark(word, marked)) == marked
  {
    var m := GetNewMark(word, marked);
    assert GetCounter(m) == GetCounter(word) by { MarkBitNotCounter(word, marked); }
    assert GetRealPointer(m) == GetRealPointer(word) by { MarkBitNotPointer(word, marked); }
    assert GetMarked(m) == marked by { MarkBitReplaced(word, marked); }
  }

  /** The slot contents a word stands for in the models of the filter. */
  function View(word: Bits64): Word {
    Word(GetCounter(word) as nat, GetRealPointer(word) as nat, GetMarked(word))
  }

  lemma SameNumber(a: Bits64, b: Bits64)
    requires a as nat == b as nat
    ensures a == b
  {
    assert (a as nat) as Bits64 == a;
  }

  /** Comparing words is comparing the slot contents they stand for. */
  lemma ViewIsFaithful(a: Bits64, b: Bits64)
    ensures View(a) == View(b) <==> a == b
  {
    if View(a) == View(b) {
      SameNumber(GetCounter(a), GetCounter(b));
      SameNumber(GetRealPointer(a), GetRealPointer(b));
      SameWordIff(a, b);
    }
  }

  /** A table pointer that is changed where it stands. */
  class TablePointer {
    var word: Bits64

    constructor (w: Bits64)
      ensures word == w
    {
      word := w;
    }

    /** Stops the program, here `ok == false`, before touching the word. */
    method UpdateCounter(counter: Bits64) returns (ok: bool)
      modifies this
      ensures ok == GetNewCounter(old(word), counter).Made?
      ensures word == if ok then GetNewCounter(old(word), counter).word else old(word)
    {
      if counter > UINT16_MAX {
        return false;
      }
      word := (word & !COUNTER_MASK) | (counter << 48);
      return true;
    }

    method UpdateRealPointer(pointer: Bits64)
      modifies this
      ensures word == GetNewRealPointer(old(word), pointer)
    {
      word := (word & !REAL_POINTER_MASK) | pointer;
    }

    method UpdateMarked(marked: bool)
      modifies this
      ensures word == GetNewMark(old(word), marked)
    {
      word := (word & !MARK_MASK) | MarkBit(marked);
    }
  }
}
