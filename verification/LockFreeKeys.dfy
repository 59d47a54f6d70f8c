/** Which key a call of the lock-free filter is about, from its begin to its end, for every size. */
module LockFreeKeys {
  import opened LockFreeModel
  import opened LockFreeInvariant
  import opened LockFreeAnswers
  import opened LockFreeRounds

  /** What an operation is about: an entry to insert, or a fingerprint to look for, and two buckets. */
  datatype Subject = Nothing | Entry(entry: nat, h1: nat, h2: nat) | Search(fp: string, h1: nat, h2: nat)

  function About(op: Op): Subject {
    if Inserting(op) then Entry(op.entry, op.h1, op.h2)
    else if Searching(op) then Search(op.q.fp, op.q.h1, op.q.h2) else Nothing
  }

  predicate OfKey(w: World, x: Subject, key: string)
    requires w.params.Valid()
  {
    match x
    case Nothing => true
    case Entry(e, h1, h2) =>
      w.fingerprint(e) == w.params.md5(key) && h1 == w.params.Bucket1(key) && h2 == w.params.Bucket2(key)
    case Search(fp, h1, h2) => fp == w.params.md5(key) && h1 == w.params.Bucket1(key) && h2 == w.params.Bucket2(key)
  }

  ghost predicate OfSomeKey(w: World, x: Subject)
    requires w.params.Valid()
  {
    exists key: string :: OfKey(w, x, key)
  }

  /** An operation goes on with what it is about, ends, or begins with a key. */
  ghost predicate KeepsSubject(w: World, s: State, s': State, t: nat)
    requires w.params.Valid() && t in s.threads && t in s'.threads
  {
    var op, op' := s.threads[t].op, s'.threads[t].op;
    About(op') == About(op) || op'.Idle? || (op.Idle? && OfSomeKey(w, About(op')))
  }

  lemma BeginSubject(w: World, s: State, s': State, t: nat)
    requires w.params.Valid() && t in s.threads && t in s'.threads
    requires InsertBegin(w, s, s', t) || FindBegin(w, s, s', t)
    ensures KeepsSubject(w, s, s', t)
  {
    if InsertBegin(w, s, s', t) {
      var key := InsertOfKey(w, s, s', t);
    } else {
      var key := SearchOfKey(w, s, s', t);
    }
  }

  lemma InsertOfKey(w: World, s: State, s': State, t: nat) returns (key: string)
    requires w.params.Valid() && t in s.threads && t in s'.threads && InsertBegin(w, s, s', t)
    ensures OfKey(w, About(s'.threads[t].op), key) && s.threads[t].op.Idle?
  {
    var entry: nat;
    key, entry :|
      && w.fingerprint(entry) == w.params.md5(key)
      && s' == WithOp(s, t, InsertRead(entry, w.params.Bucket1(key), w.params.Bucket2(key), 0, false))
               .(addresses := s.addresses + {entry});
  }

  lemma SearchOfKey(w: World, s: State, s': State, t: nat) returns (key: string)
    requires w.params.Valid() && t in s.threads && t in s'.threads && FindBegin(w, s, s', t)
    ensures OfKey(w, About(s'.threads[t].op), key) && s.threads[t].op.Idle?
  {
    var forRemove;
    key, forRemove :|
      s' == WithOp(s, t, FindRead1(
        Query(w.params.md5(key), w.params.Bucket1(key), w.params.Bucket2(key), forRemove, Present(s), true), 0));
  }

  lemma InsertSubject(w: World, s: State, s': State, t: nat)
    requires w.params.Valid() && HasTable(w, s) && t in s.threads && t in s'.threads
    requires InsertReadSlot(w, s, s', t) || InsertSwap(w, s, s', t)
    ensures KeepsSubject(w, s, s', t)
  {
  }

  lemma PathSubject(w: World, s: State, s': State, t: nat)
    requires w.params.Valid() && HasTable(w, s) && t in s.threads && t in s'.threads && PathLook(w, s, s', t)
    ensures KeepsSubject(w, s, s', t)
  {
  }

  lemma BackSubject(w: World, s: State, s': State, t: nat)
    requires w.params.Valid() && HasTable(w, s) && t in s.threads && t in s'.threads
    requires SourceLook(w, s, s', t) || DestLook(w, s, s', t)
    ensures KeepsSubject(w, s, s', t)
  {
  }

  lemma StepSubject(w: World, s: State, s': State, t: nat)
    requires w.params.Valid() && HasTable(w, s) && t in s.threads && t in s'.threads && OpStep(w, s, s', t)
    requires s'.threads[t].op != s.threads[t].op
    ensures KeepsSubject(w, s, s', t)
  {
    if InsertBegin(w, s, s', t) || FindBegin(w, s, s', t) {
      BeginSubject(w, s, s', t);
    } else if InsertStep(w, s, s', t) {
      InsertSubject(w, s, s', t);
    } else if PathLook(w, s, s', t) {
      PathSubject(w, s, s', t);
    } else if SourceLook(w, s, s', t) || DestLook(w, s, s', t) {
      BackSubject(w, s, s', t);
    } else {
      OtherSubject(w, s, s', t);
    }
  }

  lemma OtherSubject(w: World, s: State, s': State, t: nat)
    requires w.params.Valid() && HasTable(w, s) && t in s.threads && t in s'.threads && OpStep(w, s, s', t)
    requires s'.threads[t].op != s.threads[t].op && Searching(s.threads[t].op)
    ensures KeepsSubject(w, s, s', t)
  {
    SearchGoesOn(w, s, s', t);
  }

  lemma SubjectAt(w: World, run: seq<State>, m: nat, t: nat)
    requires Follows(w, run, t) && m + 1 < |run| && t in run[m + 1].threads
    ensures w.params.Valid() && t in run[m].threads && KeepsSubject(w, run[m], run[m + 1], t)
  {
    assert OwnStepped(w, run[m], run[m + 1], t);
    if run[m].threads[t].op != run[m + 1].threads[t].op {
      StepSubject(w, run[m], run[m + 1], t);
    }
  }

  lemma {:induction false} AboutKey(w: World, run: seq<State>, j: nat, t: nat)
    requires Follows(w, run, t) && w.params.Valid() && j < |run| && t in run[j].threads
    ensures OfSomeKey(w, About(run[j].threads[t].op))
    decreases j
  {
    if run[j].threads[t].op.Idle? {
      assert OfKey(w, Nothing, "");
    } else if j > 0 {
      SubjectAt(w, run, j - 1, t);
      AboutKey(w, run, j - 1, t);
    }
  }

  /** Every call is about one key: its entry's fingerprint, or the one it looks for, and its buckets are the key's. */
  lemma CallIsOfKey(w: World, run: seq<State>, j: nat, t: nat)
    requires IsRun(w, run) && j < |run| && t in run[j].threads
    ensures w.params.Valid() && OfSomeKey(w, About(run[j].threads[t].op))
    ensures j + 1 < |run| && t in run[j + 1].threads
              && !run[j].threads[t].op.Idle? && !run[j + 1].threads[t].op.Idle? ==>
              About(run[j + 1].threads[t].op) == About(run[j].threads[t].op)
  {
    RunFollows(w, run, t);
    AboutKey(w, run, j, t);
    if j + 1 < |run| && t in run[j + 1].threads {
      SubjectAt(w, run, j, t);
    }
  }
}
