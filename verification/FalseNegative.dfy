/**
  The promise of a cuckoo filter: a key whose insert succeeded is found. The
  one-lock filter keeps it exactly for the sizes at which alternates lead back.
 */
module FalseNegative {
  import opened Bits
  import opened HashIndex
  import opened Words
  import opened TableBag
  import opened ClassBag
  import opened AbstractFilter
  import Spec = SeqSpec
  import opened SeqFilter

  function EmptyTable(size: nat): (t: Table)
    ensures |t| == size && forall b | 0 <= b < size :: t[b] == ["", "", "", ""]
  {
    seq(size, (b: nat) => ["", "", "", ""])
  }

  /** From an empty filter these calls, all of them inserts, all succeed. */
  predicate AllInsert(p: Params, ops: seq<Op>) {
    && p.Valid() && OpsOk(ops) && (forall i | 0 <= i < |ops| :: ops[i].call.InsertCall?)
    && forall i | 0 <= i < |ops| :: DoAll(p, EmptyTable(p.size), ops).1[i]
  }

  /** With a table of this size, whatever the hash functions and whatever `rand` answers, what was inserted is found. */
  ghost predicate FindsInserted(size: nat) {
    forall p: Params, ops: seq<Op>, i: nat | p.size == size && Named(p) && AllInsert(p, ops) && i < |ops| ::
      Spec.Find(p, DoAll(p, EmptyTable(size), ops).0, ops[i].call.key)
  }

  // ----- a power of two -----

  /** Successful inserts only add classes. */
  lemma {:induction false} InsertsAdd(p: Params, t: Table, ops: seq<Op>)
    requires Usual(p) && Shaped(p, t) && OpsOk(ops)
    requires forall i | 0 <= i < |ops| :: ops[i].call.InsertCall? && DoAll(p, t, ops).1[i]
    ensures Bag(p, t) <= Bag(p, DoAll(p, t, ops).0)
    ensures forall i | 0 <= i < |ops| :: KeyClass(p, ops[i].call.key) in Bag(p, DoAll(p, t, ops).0)
    decreases |ops|
  {
    if ops != [] {
      var t1, rest := Do(p, t, ops[0]).0, ops[1..];
      DoAnswers(p, t, ops[0]);
      var answers := DoAll(p, t1, rest).1;
      assert DoAll(p, t, ops).1 == [Do(p, t, ops[0]).1] + answers;
      assert DoAll(p, t, ops).1[0];
      forall i | 0 <= i < |rest|
        ensures rest[i].call.InsertCall? && answers[i]
      {
        assert ops[i + 1].call.InsertCall? && DoAll(p, t, ops).1[i + 1];
      }
      InsertsAdd(p, t1, rest);
      assert KeyClass(p, ops[0].call.key) in Bag(p, t1);
      forall i | 0 <= i < |ops|
        ensures KeyClass(p, ops[i].call.key) in Bag(p, DoAll(p, t, ops).0)
      {
        if i > 0 {
          assert ops[i] == rest[i - 1];
        }
      }
    }
  }

  lemma PowerOfTwoFinds(size: nat)
    requires size > 0 && IsPow2(size)
    ensures FindsInserted(size)
  {
    forall p: Params, ops: seq<Op>, i: nat | p.size == size && Named(p) && AllInsert(p, ops) && i < |ops|
      ensures Spec.Find(p, DoAll(p, EmptyTable(size), ops).0, ops[i].call.key)
    {
      InsertsAdd(p, EmptyTable(size), ops);
      KeyStoredIff(p, DoAll(p, EmptyTable(size), ops).0, ops[i].call.key);
    }
  }

  // ----- any other size -----

  /** All keys have this first bucket; "x" has fingerprint "f", all others "g", of the same hash. */
  function P(size: nat, idx: nat, h: nat): Params {
    Params(size,
           (s: string) => if s == "f" || s == "g" then h else idx,
           (key: string) => if key == "x" then "f" else "g")
  }

  function Key(n: nat): string {
    if n == 4 then "x" else "k"
  }

  /** The calls: eight inserts that fill both buckets, the fifth of them of "x", and one that kicks "x". */
  function Call9(n: nat): Op {
    Op(InsertCall(Key(n)), 1, [0, 0, 0, 0, 0, 0, 0, 0, 0, 0])
  }

  /** A row with n fingerprints, the first one of which is `first`. */
  function Row(first: string, n: nat): (r: seq<string>)
    ensures |r| == SLOTS && forall i | 0 <= i < SLOTS :: r[i] == if i >= n then "" else if i == 0 then first else "g"
  {
    seq(SLOTS, (i: nat) => if i >= n then "" else if i == 0 then first else "g")
  }

  /** The table after n of the calls; the last one kicks "f" out of the second bucket. */
  function Rows(size: nat, idx: nat, next: nat, far: nat, n: nat): (t: Table)
    ensures |t| == size
    ensures forall b | 0 <= b < size ::
              t[b] == if b == idx then Row("g", n)
                      else if b == next then Row(if n < 9 then "f" else "g", n - Least(n, 4))
                      else if b == far && n >= 9 then Row("f", 1) else Row("", 0)
  {
    seq(size, (b: nat) =>
      if b == idx then Row("g", n) else if b == next then Row(if n < 9 then "f" else "g", n - Least(n, 4))
      else if b == far && n >= 9 then Row("f", 1) else Row("", 0))
  }

  function Least(a: nat, b: nat): nat {
    if a < b then a else b
  }

  /** Where those calls lead. */
  ghost predicate Setting(size: nat, idx: nat, h: nat, next: nat, far: nat) {
    && idx < size && h < size
    && next == Alternate(size, idx, h) && far == Alternate(size, next, h)
    && next != idx && far != next && far != idx
  }

  lemma RowRoom(first: string, n: nat)
    requires first != ""
    ensures "" in Row(first, n) <==> n < SLOTS
    ensures n < SLOTS ==> Spec.IndexOf(Row(first, n), "") == n
  {
    if n < SLOTS {
      assert Row(first, n)[n] == "";
    }
  }

  lemma Buckets(size: nat, idx: nat, h: nat, next: nat, far: nat)
    requires Setting(size, idx, h, next, far)
    ensures var p := P(size, idx, h);
            && p.Valid() && p.Bucket1("x") == p.Bucket1("k") == idx && p.Bucket2("x") == p.Bucket2("k") == next
            && p.NextIndex(next, "f") == far
  {
    SmallMod(idx, size);
    SmallMod(h, size);
  }

  lemma InsertsFirst(p: Params, t: Table, op: Op, i: nat)
    requires p.Valid() && Shaped(p, t) && Spec.Picks(op.picks) && op.call.InsertCall? && i < SLOTS
    requires var row := t[p.Bucket1(op.call.key)]; "" in row && Spec.IndexOf(row, "") == i
    ensures Do(p, t, op) == (Put(t, p.Bucket1(op.call.key), i, p.md5(op.call.key)), true)
  {
  }

  lemma InsertsSecond(p: Params, t: Table, op: Op, i: nat)
    requires p.Valid() && Shaped(p, t) && Spec.Picks(op.picks) && op.call.InsertCall? && i < SLOTS
    requires "" !in t[p.Bucket1(op.call.key)]
    requires var row := t[p.Bucket2(op.call.key)]; "" in row && Spec.IndexOf(row, "") == i
    ensures Do(p, t, op) == (Put(t, p.Bucket2(op.call.key), i, p.md5(op.call.key)), true)
  {
  }

  lemma RowsFirst(size: nat, idx: nat, next: nat, far: nat, n: nat)
    requires idx < size && n < 4 && next != idx
    ensures Put(Rows(size, idx, next, far, n), idx, n, "g") == Rows(size, idx, next, far, n + 1)
  {
    assert Row("g", n)[n := "g"] == Row("g", n + 1);
  }

  lemma RowsSecond(size: nat, idx: nat, next: nat, far: nat, n: nat)
    requires idx < size && next < size && 4 <= n < 8 && next != idx
    ensures Put(Rows(size, idx, next, far, n), next, n - 4, if n == 4 then "f" else "g")
         == Rows(size, idx, next, far, n + 1)
  {
    assert Row("g", n) == Row("g", n + 1);
    assert Row("f", n - 4)[n - 4 := if n == 4 then "f" else "g"] == Row("f", n - 3);
  }

  lemma FillsFirst(size: nat, idx: nat, h: nat, next: nat, far: nat, n: nat)
    requires Setting(size, idx, h, next, far) && n < 4
    ensures Shaped(P(size, idx, h), Rows(size, idx, next, far, n))
    ensures Do(P(size, idx, h), Rows(size, idx, next, far, n), Call9(n)) == (Rows(size, idx, next, far, n + 1), true)
  {
    Buckets(size, idx, h, next, far);
    RowRoom("g", n);
    InsertsFirst(P(size, idx, h), Rows(size, idx, next, far, n), Call9(n), n);
    RowsFirst(size, idx, next, far, n);
  }

  lemma FillsSecond(size: nat, idx: nat, h: nat, next: nat, far: nat, n: nat)
    requires Setting(size, idx, h, next, far) && 4 <= n < 8
    ensures Shaped(P(size, idx, h), Rows(size, idx, next, far, n))
    ensures Do(P(size, idx, h), Rows(size, idx, next, far, n), Call9(n)) == (Rows(size, idx, next, far, n + 1), true)
  {
    Buckets(size, idx, h, next, far);
    RowRoom("g", n);
    RowRoom("f", n - 4);
    InsertsSecond(P(size, idx, h), Rows(size, idx, next, far, n), Call9(n), n - 4);
    RowsSecond(size, idx, next, far, n);
  }

  /** The ninth insert swaps with "f", which goes where no look for it goes. */
  lemma Kicks(size: nat, idx: nat, h: nat, next: nat, far: nat)
    requires Setting(size, idx, h, next, far)
    ensures Shaped(P(size, idx, h), Rows(size, idx, next, far, 8))
    ensures Do(P(size, idx, h), Rows(size, idx, next, far, 8), Call9(8)) == (Rows(size, idx, next, far, 9), true)
  {
    Buckets(size, idx, h, next, far);
    var p, t := P(size, idx, h), Rows(size, idx, next, far, 8);
    RowRoom("g", 8);
    RowRoom("f", 4);
    assert t[idx] == Row("g", 8) && t[next] == Row("f", 4) && t[far] == Row("", 0);
    var hand := Spec.Hand(t, "g", next);
    var k := Spec.KickOnce(p, hand, 0);
    assert k.table[far] == Row("", 0) == Row("f", 0) && k.fingerprint == "f" && k.bucket == far;
    RowRoom("f", 0);
    KicksTo(size, idx, next, far);
  }

  lemma KicksTo(size: nat, idx: nat, next: nat, far: nat)
    requires idx < size && next < size && far < size && next != idx && far != next && far != idx
    ensures Put(Put(Rows(size, idx, next, far, 8), next, 0, "g"), far, 0, "f") == Rows(size, idx, next, far, 9)
  {
    assert Row("f", 4)[0 := "g"] == Row("g", 5);
    assert Row("", 0)[0 := "f"] == Row("f", 1);
    assert Row("g", 8) == Row("g", 9);
  }

  /** The calls from the n-th on. */
  function CallsFrom(call: nat -> Op, n: nat, end: nat): (ops: seq<Op>)
    requires n <= end
    ensures |ops| == end - n && forall i | 0 <= i < |ops| :: ops[i] == call(n + i)
  {
    seq(end - n, (i: nat) => call(n + i))
  }

  function Trues(n: nat): seq<bool> {
    seq(n, (i: nat) => true)
  }

  lemma StepDone(size: nat, idx: nat, h: nat, next: nat, far: nat, n: nat)
    requires Setting(size, idx, h, next, far) && n < 9
    ensures Shaped(P(size, idx, h), Rows(size, idx, next, far, n))
    ensures Do(P(size, idx, h), Rows(size, idx, next, far, n), Call9(n)) == (Rows(size, idx, next, far, n + 1), true)
  {
    if n < 4 {
      FillsFirst(size, idx, h, next, far, n);
    } else if n < 8 {
      FillsSecond(size, idx, h, next, far, n);
    } else {
      Kicks(size, idx, h, next, far);
    }
  }

  lemma DoFirst(p: Params, t: Table, op: Op, rest: seq<Op>, t1: Table, n: nat, t': Table)
    requires p.Valid() && Shaped(p, t) && Spec.Picks(op.picks) && OpsOk(rest) && Shaped(p, t1)
    requires Do(p, t, op) == (t1, true) && DoAll(p, t1, rest) == (t', Trues(n))
    ensures OpsOk([op] + rest) && DoAll(p, t, [op] + rest) == (t', Trues(n + 1))
  {
    assert ([op] + rest)[1..] == rest;
    assert [true] + Trues(n) == Trues(n + 1);
  }

  /** The n-th call succeeds, and leads from the n-th table to the next. */
  predicate StepAt(p: Params, rows: nat -> Table, call: nat -> Op, n: nat) {
    && p.Valid() && Shaped(p, rows(n)) && Shaped(p, rows(n + 1)) && Spec.Picks(call(n).picks)
    && Do(p, rows(n), call(n)) == (rows(n + 1), true)
  }

  ghost predicate Steps(p: Params, rows: nat -> Table, call: nat -> Op, end: nat) {
    p.Valid() && Shaped(p, rows(end)) && forall n: nat | n < end :: StepAt(p, rows, call, n)
  }

  lemma StartOk(p: Params, rows: nat -> Table, call: nat -> Op, n: nat, end: nat)
    requires n <= end && Steps(p, rows, call, end)
    ensures Shaped(p, rows(n)) && OpsOk(CallsFrom(call, n, end))
  {
    forall i: nat | n <= i < end
      ensures Spec.Picks(call(i).picks)
    {
      assert StepAt(p, rows, call, i);
    }
    assert n < end ==> StepAt(p, rows, call, n);
  }

  lemma NoneLeft(p: Params, t: Table, call: nat -> Op, end: nat)
    requires p.Valid() && Shaped(p, t)
    ensures DoAll(p, t, CallsFrom(call, end, end)) == (t, Trues(0))
  {
    assert CallsFrom(call, end, end) == [] && Trues(0) == [];
  }

  lemma CallsSplit(call: nat -> Op, n: nat, end: nat)
    requires n < end
    ensures CallsFrom(call, n, end) == [call(n)] + CallsFrom(call, n + 1, end)
  {
  }

  lemma CallThenRest(p: Params, t: Table, call: nat -> Op, n: nat, end: nat, t1: Table, t': Table)
    requires n < end && p.Valid() && Shaped(p, t) && Shaped(p, t1) && Spec.Picks(call(n).picks)
    requires OpsOk(CallsFrom(call, n + 1, end)) && Do(p, t, call(n)) == (t1, true)
    requires DoAll(p, t1, CallsFrom(call, n + 1, end)) == (t', Trues(end - n - 1))
    ensures OpsOk(CallsFrom(call, n, end)) && DoAll(p, t, CallsFrom(call, n, end)) == (t', Trues(end - n))
  {
    CallsSplit(call, n, end);
    DoFirst(p, t, call(n), CallsFrom(call, n + 1, end), t1, end - n - 1, t');
  }

  lemma {:induction false} AllDone(p: Params, rows: nat -> Table, call: nat -> Op, n: nat, end: nat)
    requires n <= end && Steps(p, rows, call, end)
    requires Shaped(p, rows(n)) && OpsOk(CallsFrom(call, n, end))
    ensures DoAll(p, rows(n), CallsFrom(call, n, end)) == (rows(end), Trues(end - n))
    decreases end - n
  {
    if n == end {
      NoneLeft(p, rows(n), call, end);
    } else {
      StartOk(p, rows, call, n + 1, end);
      AllDone(p, rows, call, n + 1, end);
      assert StepAt(p, rows, call, n);
      CallThenRest(p, rows(n), call, n, end, rows(n + 1), rows(end));
    }
  }

  lemma AllSucceed(p: Params, rows: nat -> Table, call: nat -> Op, end: nat, ops: seq<Op>)
    requires Steps(p, rows, call, end) && rows(0) == EmptyTable(p.size) && ops == CallsFrom(call, 0, end)
    requires forall n: nat | n < end :: call(n).call.InsertCall?
    ensures AllInsert(p, ops) && DoAll(p, EmptyTable(p.size), ops).0 == rows(end)
  {
    StartOk(p, rows, call, 0, end);
    AllDone(p, rows, call, 0, end);
    assert DoAll(p, EmptyTable(p.size), ops) == (rows(end), Trues(end));
  }

  lemma NineSteps(size: nat, idx: nat, h: nat, next: nat, far: nat, rows: nat -> Table)
    requires Setting(size, idx, h, next, far) && rows == ((n: nat) => Rows(size, idx, next, far, n))
    ensures Steps(P(size, idx, h), rows, Call9, 9) && rows(0) == EmptyTable(size)
  {
    forall n: nat | n < 9
      ensures StepAt(P(size, idx, h), rows, Call9, n)
    {
      NthStep(size, idx, h, next, far, rows, n);
    }
    RowsStart(size, idx, next, far);
    RowsEnd(size, idx, h, next, far);
  }

  lemma NthStep(size: nat, idx: nat, h: nat, next: nat, far: nat, rows: nat -> Table, n: nat)
    requires Setting(size, idx, h, next, far) && n < 9
    requires rows(n) == Rows(size, idx, next, far, n) && rows(n + 1) == Rows(size, idx, next, far, n + 1)
    ensures StepAt(P(size, idx, h), rows, Call9, n)
  {
    StepDone(size, idx, h, next, far, n);
    RowsEnd(size, idx, h, next, far);
  }

  lemma RowsStart(size: nat, idx: nat, next: nat, far: nat)
    requires idx < size && next != idx
    ensures Rows(size, idx, next, far, 0) == EmptyTable(size)
  {
    var t, e := Rows(size, idx, next, far, 0), EmptyTable(size);
    assert Row("g", 0) == Row("f", 0) == Row("", 0) == ["", "", "", ""];
    forall b | 0 <= b < size
      ensures t[b] == e[b]
    {
    }
  }

  lemma RowsEnd(size: nat, idx: nat, h: nat, next: nat, far: nat)
    requires Setting(size, idx, h, next, far)
    ensures P(size, idx, h).Valid() && forall n :: Shaped(P(size, idx, h), Rows(size, idx, next, far, n))
  {
  }

  /** "x" is in neither of its buckets. */
  lemma MissesX(size: nat, idx: nat, h: nat, next: nat, far: nat)
    requires Setting(size, idx, h, next, far)
    ensures P(size, idx, h).Valid() && Shaped(P(size, idx, h), Rows(size, idx, next, far, 9))
    ensures !Spec.Find(P(size, idx, h), Rows(size, idx, next, far, 9), Call9(4).call.key)
  {
    Buckets(size, idx, h, next, far);
    var t := Rows(size, idx, next, far, 9);
    assert t[idx] == Row("g", 9) && t[next] == Row("g", 5);
  }

  /** Those calls succeed, and "x", inserted fifth, is then not found. */
  lemma OtherSizesMiss(size: nat)
    requires size > 0 && !IsPow2(size)
    ensures !FindsInserted(size)
  {
    var idx, h := AlternateBreaks(size);
    var next := Alternate(size, idx, h);
    var far := Alternate(size, next, h);
    var p, rows := P(size, idx, h), (n: nat) => Rows(size, idx, next, far, n);
    NineSteps(size, idx, h, next, far, rows);
    MissesX(size, idx, h, next, far);
    Missed(p, rows, Call9, 9, 4);
  }

  lemma Missed(p: Params, rows: nat -> Table, call: nat -> Op, end: nat, i: nat)
    requires Named(p) && Steps(p, rows, call, end) && rows(0) == EmptyTable(p.size) && i < end
    requires forall n: nat | n < end :: call(n).call.InsertCall?
    requires !Spec.Find(p, rows(end), call(i).call.key)
    ensures !FindsInserted(p.size)
  {
    var ops := CallsFrom(call, 0, end);
    AllSucceed(p, rows, call, end, ops);
    assert ops[i] == call(i);
  }

  /** What was inserted is found, whatever the hash functions and `rand`, if and only if the size is a power of two. */
  lemma FindsIffPowerOfTwo(size: nat)
    requires size > 0
    ensures FindsInserted(size) <==> IsPow2(size)
  {
    if IsPow2(size) {
      PowerOfTwoFinds(size);
    } else {
      OtherSizesMiss(size);
    }
  }
}
