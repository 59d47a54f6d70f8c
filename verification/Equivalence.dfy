/** The sequential filter and the lock-free filter run alone answer alike. */
module Equivalence {
  import opened HashIndex
  import opened Words
  import opened ClassBag
  import opened AbstractFilter
  import Seq = SeqFilter
  import Solo = SoloFilter

  /** A call, with the answers of `rand` for one filter and of the shuffle for the other. */
  datatype Op = Op(call: Call, coin: nat, picks: seq<nat>, shuffles: nat -> seq<nat>)

  ghost predicate OpOk(op: Op) {
    && |op.picks| == 10 && (forall i | 0 <= i < |op.picks| :: op.picks[i] < SLOTS)
    && forall n :: IsOrder(op.shuffles(n))
  }

  ghost function Calls(ops: seq<Op>): (r: seq<Call>)
    ensures |r| == |ops| && forall i | 0 <= i < |r| :: r[i] == ops[i].call
  {
    seq(|ops|, i requires 0 <= i < |ops| => ops[i].call)
  }

  method AskSequential(f: Seq.SequentialFilter, op: Op) returns (answer: bool)
    requires f.Valid() && OpOk(op)
    modifies f
    ensures f.Valid() && Answers(f.params, old(f.Contents()), op.call, answer, f.Contents())
  {
    match op.call {
      case InsertCall(key) => answer := f.Insert(key, op.coin, op.picks);
      case FindCall(key) => answer := f.Find(key);
      case RemoveCall(key) => answer := f.Remove(key);
    }
  }

  method AskLockFree(f: Solo.LockFreeFilter, op: Op) returns (answer: bool)
    requires f.Valid() && OpOk(op)
    modifies f
    ensures !f.aborted ==> f.Valid() && Answers(f.params, old(f.Contents()), op.call, answer, f.Contents())
  {
    match op.call {
      case InsertCall(key) =>
        answer := f.Insert(key, op.shuffles);
      case FindCall(key) =>
        var location, word := f.Find(key);
        answer := location < 2 * SLOTS;
      case RemoveCall(key) => answer := f.Remove(key);
    }
  }

  /** The first i calls and one more. */
  lemma OneMoreCall(p: Params, bag: multiset<Class>, calls: seq<Call>, i: nat, answers: seq<bool>,
                    mid: multiset<Class>, answer: bool, bag': multiset<Class>)
    requires p.Valid() && i < |calls| && |answers| == i
    requires History(p, bag, calls[..i], answers, mid) && Answers(p, mid, calls[i], answer, bag')
    ensures History(p, bag, calls[..i + 1], answers + [answer], bag')
  {
    assert calls[..i + 1] == calls[..i] + [calls[i]];
    HistoryExtends(p, bag, calls[..i], answers, mid, calls[i], answer, bag');
  }

  /** Put the i-th call to both; each history so far gets one call longer. */
  method AskPair(f: Seq.SequentialFilter, g: Solo.LockFreeFilter, op: Op,
                 ghost bag: multiset<Class>, ghost calls: seq<Call>, ghost i: nat,
                 ghost a: seq<bool>, ghost b: seq<bool>)
    returns (x: bool, y: bool)
    requires f.Valid() && g.Valid() && OpOk(op) && f.params == g.params
    requires i < |calls| && calls[i] == op.call && |a| == |b| == i
    requires History(f.params, bag, calls[..i], a, f.Contents())
    requires History(f.params, bag, calls[..i], b, g.Contents())
    modifies f, g
    ensures !g.aborted ==>
              && f.Valid() && History(f.params, bag, calls[..i + 1], a + [x], f.Contents())
              && g.Valid() && History(f.params, bag, calls[..i + 1], b + [y], g.Contents())
  {
    ghost var m, n := f.Contents(), g.Contents();
    x := AskSequential(f, op);
    y := AskLockFree(g, op);
    if !g.aborted {
      OneMoreCall(f.params, bag, calls, i, a, m, x, f.Contents());
      OneMoreCall(f.params, bag, calls, i, b, n, y, g.Contents());
    }
  }

  /** What two histories of the same calls have in common. */
  ghost predicate Alike(p: Params, bag: multiset<Class>, calls: seq<Call>,
                        a: seq<bool>, b1: multiset<Class>, b: seq<bool>, b2: multiset<Class>)
    requires p.Valid()
  {
    && |a| == |b| == |calls|
    && History(p, bag, calls, a, b1) && History(p, bag, calls, b, b2)
    && (InsertsSucceed(calls, a) && InsertsSucceed(calls, b) ==> a == b && b1 == b2)
  }

  lemma HistoriesAlike(p: Params, bag: multiset<Class>, calls: seq<Call>,
                       a: seq<bool>, b1: multiset<Class>, b: seq<bool>, b2: multiset<Class>)
    requires p.Valid() && |a| == |b| == |calls|
    requires History(p, bag, calls, a, b1) && History(p, bag, calls, b, b2)
    ensures Alike(p, bag, calls, a, b1, b, b2)
  {
    if InsertsSucceed(calls, a) && InsertsSucceed(calls, b) {
      HistoryDetermined(p, bag, calls, a, b1, b, b2);
    }
  }

  /**
    Put the same calls to both filters. Each gives a history of the bag they
    start from; and if no insert fails in either, the answers are the same and
    so is what they store, however differently they placed it.
   */
  method AskBoth(f: Seq.SequentialFilter, g: Solo.LockFreeFilter, ops: seq<Op>)
    returns (a: seq<bool>, b: seq<bool>)
    requires f.Valid() && g.Valid() && f.params == g.params && f.Contents() == g.Contents()
    requires forall i | 0 <= i < |ops| :: OpOk(ops[i])
    modifies f, g
    ensures !g.aborted ==> f.Valid() && g.Valid()
    ensures !g.aborted ==> Alike(f.params, old(f.Contents()), Calls(ops), a, f.Contents(), b, g.Contents())
  {
    a, b := [], [];
    ghost var p, bag0, calls := f.params, f.Contents(), Calls(ops);
    NoCalls(p, bag0);
    var i := 0;
    while i < |ops|
      invariant i <= |ops| && |a| == |b| == i
      invariant f.Valid() && g.Valid()
      invariant History(p, bag0, calls[..i], a, f.Contents()) && History(p, bag0, calls[..i], b, g.Contents())
    {
      var x, y := AskPair(f, g, ops[i], bag0, calls, i, a, b);
      if g.aborted {
        return;
      }
      a, b := a + [x], b + [y];
      i := i + 1;
    }
    assert calls[..|ops|] == calls;
    HistoriesAlike(p, bag0, calls, a, f.Contents(), b, g.Contents());
  }
}
