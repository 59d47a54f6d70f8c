/** The promises of the fine-grained filter, over every interleaving. */
module FineTheorems {
  import opened HashIndex
  import opened Words
  import opened TableBag
  import opened ClassBag
  import opened FineModel
  import opened FineSafety

  // ----- conservation -----

  /** The slot a thread is about to write is still what it saw: empty for an insert, the fingerprint for a remove. */
  predicate AsSeen(s: State, pc: Pc)
    requires pc.Write? && !pc.task.FindTask? && pc.b < |s.table| && pc.i < |s.table[pc.b]|
  {
    s.table[pc.b][pc.i] == if pc.task.InsertTask? then "" else pc.task.fingerprint
  }

  /** In the table, in a kicking thread's hand, removed or dropped: each insert begun is, once, and nothing else is. */
  ghost predicate Conserved(p: Params, s: State)
    requires p.Valid()
  {
    Bag(p, s.table) + Hands(p, s.threads) + s.removed + s.dropped == s.begun
  }

  /** Step k is thread t's write of a slot that is not what it saw. */
  ghost predicate WrongWriteAt(p: Params, run: seq<State>, k: nat, t: nat) {
    && k + 1 < |run| && WellShaped(p, run[k]) && t < |run[k].threads|
    && WriteSlot(p, run[k], run[k + 1], t)
    && !AsSeen(run[k], run[k].threads[t])
  }

  /** The two other books say by how much conservation is off. */
  lemma ConservedIffEven(p: Params, s: State)
    requires p.Valid() && Balanced(p, s)
    ensures Conserved(p, s) <==> s.lost == s.spare
  {
    var x := Bag(p, s.table) + Hands(p, s.threads) + s.removed + s.dropped;
    if Conserved(p, s) {
      assert s.lost + x == x + s.lost && s.spare + x == x + s.spare;
      Cancel(s.lost, s.spare, x);
    } else if s.lost == s.spare {
      Cancel(x, s.begun, s.lost);
    }
  }

  lemma DifferentClasses(p: Params, b: nat, f: string, g: string)
    requires p.Valid() && f != g
    ensures OneClass(p, b, f) != OneClass(p, b, g)
  {
    if f != "" {
      assert ClassAt(p, b, f) in OneClass(p, b, f);
    } else {
      assert ClassAt(p, b, g) in OneClass(p, b, g);
    }
  }

  lemma WriteTipsBooks(p: Params, s: State, s': State, t: nat)
    requires p.Valid() && WellShaped(p, s) && t < |s.threads| && WriteSlot(p, s, s', t) && s.lost == s.spare
    requires PcOk(p, s, s.threads[t])
    ensures s'.lost == s'.spare <==> AsSeen(s, s.threads[t])
  {
    var pc := s.threads[t];
    var item := s.table[pc.b][pc.i];
    var seen := if pc.task.InsertTask? then "" else pc.task.fingerprint;
    if item == seen {
      assert s.lost + OneClass(p, pc.b, "") == s.lost;
    } else {
      DifferentClasses(p, pc.b, item, seen);
      OffBy(s.lost, OneClass(p, pc.b, item), OneClass(p, pc.b, seen));
      assert s'.lost == s.lost + OneClass(p, pc.b, item);
      assert s'.spare == s.spare + OneClass(p, pc.b, seen);
    }
  }

  lemma OffBy<C>(m: multiset<C>, x: multiset<C>, y: multiset<C>)
    requires x != y
    ensures m + x != m + y
  {
    assert (m + x) - m == x && (m + y) - m == y;
  }

  /** Where all is accounted for, a write keeps it so if and only if its slot is still what the thread saw. */
  lemma WriteRightIff(p: Params, s: State, s': State, t: nat)
    requires Usual(p) && Inv(p, s) && Inv(p, s') && t < |s.threads| && WriteSlot(p, s, s', t) && Conserved(p, s)
    ensures Conserved(p, s') <==> AsSeen(s, s.threads[t])
  {
    assert PcOk(p, s, s.threads[t]);
    ConservedIffEven(p, s);
    ConservedIffEven(p, s');
    WriteTipsBooks(p, s, s', t);
  }

  lemma OthersKeepBooks(p: Params, s: State, s': State, t: nat)
    requires WellShaped(p, s) && t < |s.threads|
    requires || Begin(p, s, s', t) || Acquire(p, s, s', t) || LookAt(p, s, s', t)
             || LeaveBucket(p, s, s', t) || Kick(p, s, s', t)
    ensures s'.lost == s.lost && s'.spare == s.spare
  {
  }

  lemma StepConserves(p: Params, run: seq<State>, k: nat)
    requires Usual(p) && IsRun(p, run) && k + 1 < |run| && Conserved(p, run[k])
    requires forall t: nat :: !WrongWriteAt(p, run, k, t)
    ensures Conserved(p, run[k + 1])
  {
    var s, s' := run[k], run[k + 1];
    RunInv(p, run, k);
    RunInv(p, run, k + 1);
    assert Next(p, s, s');
    var t: nat :| Proceeds(p, s, s', t) || (WellShaped(p, s) && t < |s.threads| && Begin(p, s, s', t));
    if WriteSlot(p, s, s', t) {
      assert !WrongWriteAt(p, run, k, t);
      WriteRightIff(p, s, s', t);
    } else {
      OthersKeepBooks(p, s, s', t);
      ConservedIffEven(p, s);
      ConservedIffEven(p, s');
    }
  }

  lemma StartsConserved(p: Params, run: seq<State>)
    requires Usual(p) && IsRun(p, run)
    ensures Conserved(p, run[0])
  {
    RunInv(p, run, 0);
    ConservedIffEven(p, run[0]);
  }

  lemma {:induction false} RightWritesConserve(p: Params, run: seq<State>, j: nat)
    requires Usual(p) && IsRun(p, run) && j < |run|
    requires forall k: nat, t: nat | k < j :: !WrongWriteAt(p, run, k, t)
    ensures Conserved(p, run[j])
    decreases j
  {
    if j == 0 {
      StartsConserved(p, run);
    } else {
      var k := j - 1;
      RightWritesConserve(p, run, k);
      assert forall t: nat :: !WrongWriteAt(p, run, k, t);
      StepConserves(p, run, k);
    }
  }

  lemma WrongWriteTips(p: Params, run: seq<State>, k: nat, t: nat)
    requires Usual(p) && IsRun(p, run) && WrongWriteAt(p, run, k, t) && Conserved(p, run[k])
    ensures !Conserved(p, run[k + 1])
  {
    RunInv(p, run, k);
    RunInv(p, run, k + 1);
    WriteRightIff(p, run[k], run[k + 1], t);
  }

  /**
    For every run: all is accounted for in every state up to i if and only if
    no write before i hit a slot that was not what its thread saw.
   */
  lemma Conservation(p: Params, run: seq<State>, i: nat)
    requires Usual(p) && IsRun(p, run) && i < |run|
    ensures (forall j | 0 <= j <= i :: Conserved(p, run[j]))
       <==> (forall k: nat, t: nat | k < i :: !WrongWriteAt(p, run, k, t))
  {
    if forall k: nat, t: nat | k < i :: !WrongWriteAt(p, run, k, t) {
      forall j | 0 <= j <= i
        ensures Conserved(p, run[j])
      {
        RightWritesConserve(p, run, j);
      }
    } else {
      var k: nat, t: nat :| k < i && WrongWriteAt(p, run, k, t);
      if Conserved(p, run[k]) {
        WrongWriteTips(p, run, k, t);
      }
    }
  }

  /** In every run, what wrong writes overwrote and what wrong removes left make up exactly the difference. */
  lemma ConservationWithRaces(p: Params, run: seq<State>, i: nat)
    requires Usual(p) && IsRun(p, run) && i < |run|
    ensures Bag(p, run[i].table) + Hands(p, run[i].threads) + run[i].removed + run[i].dropped + run[i].lost
         == run[i].begun + run[i].spare
  {
    RunInv(p, run, i);
  }

  // ----- only the unlocked swap makes a write wrong -----

  /** At step m thread u swaps slot i of bucket b. */
  ghost predicate KicksAt(p: Params, run: seq<State>, m: nat, u: nat, b: nat, i: nat) {
    && m + 1 < |run| && WellShaped(p, run[m]) && u < |run[m].threads| && i < SLOTS
    && run[m].threads[u].Swap? && run[m].threads[u].task.InsertTask? && run[m].threads[u].b == b < p.size
    && run[m + 1] == Kicked(p, run[m], u, i)
  }

  /** Another thread swapped the slot of `pc`, a write of thread t, when t had already seen it. */
  ghost predicate SwappedUnder(p: Params, run: seq<State>, k: nat, t: nat, pc: Pc)
    requires pc.Write?
  {
    exists m: nat, u: nat :: m < k && SwapUnder(p, run, m, u, t, pc)
  }

  ghost predicate SwapUnder(p: Params, run: seq<State>, m: nat, u: nat, t: nat, pc: Pc)
    requires pc.Write?
  {
    && u != t && KicksAt(p, run, m, u, pc.b, pc.i)
    && t < |run[m].threads| && run[m].threads[t] == pc.(raced := false)
  }

  lemma KickRaces(p: Params, run: seq<State>, m: nat, u: nat, t: nat, pc: Pc)
    requires m + 1 < |run| && WellShaped(p, run[m]) && u < |run[m].threads| && Kick(p, run[m], run[m + 1], u)
    requires t < |run[m + 1].threads| && run[m + 1].threads[t] == pc && pc.Write?
    ensures t < |run[m].threads| && (run[m].threads[t] == pc || SwapUnder(p, run, m, u, t, pc))
  {
    var i: nat :| i < SLOTS && run[m + 1] == Kicked(p, run[m], u, i);
    assert KicksAt(p, run, m, u, run[m].threads[u].b, i);
  }

  /** What a step other than a swap does to the threads: it moves its own, to a place that no swap has hit yet. */
  ghost predicate OnlyOwn(s: State, s': State, u: nat) {
    && |s'.threads| == |s.threads| && u < |s.threads|
    && s'.threads == s.threads[u := s'.threads[u]]
    && (s'.threads[u].Write? ==> !s'.threads[u].raced)
  }

  lemma ComingIsOwn(p: Params, s: State, s': State, u: nat)
    requires WellShaped(p, s) && u < |s.threads|
    requires Begin(p, s, s', u) || Acquire(p, s, s', u) || LookAt(p, s, s', u)
    ensures OnlyOwn(s, s', u)
  {
  }

  lemma LeavingIsOwn(p: Params, s: State, s': State, u: nat)
    requires WellShaped(p, s) && u < |s.threads| && (LeaveBucket(p, s, s', u) || WriteSlot(p, s, s', u))
    ensures OnlyOwn(s, s', u)
  {
  }

  lemma RacedByKick(p: Params, run: seq<State>, m: nat, t: nat, pc: Pc)
    requires IsRun(p, run) && m + 1 < |run| && t < |run[m + 1].threads|
    requires run[m + 1].threads[t] == pc && pc.Write? && pc.raced
    ensures t < |run[m].threads|
    ensures run[m].threads[t] == pc || exists u: nat :: SwapUnder(p, run, m, u, t, pc)
  {
    var s, s' := run[m], run[m + 1];
    assert Next(p, s, s');
    var u: nat :| Proceeds(p, s, s', u) || (WellShaped(p, s) && u < |s.threads| && Begin(p, s, s', u));
    if Kick(p, s, s', u) {
      KickRaces(p, run, m, u, t, pc);
    } else {
      if LeaveBucket(p, s, s', u) || WriteSlot(p, s, s', u) {
        LeavingIsOwn(p, s, s', u);
      } else {
        ComingIsOwn(p, s, s', u);
      }
    }
  }

  lemma {:induction false} RacedWasSwapped(p: Params, run: seq<State>, k: nat, t: nat, pc: Pc)
    requires IsRun(p, run) && k < |run| && t < |run[k].threads|
    requires run[k].threads[t] == pc && pc.Write? && pc.raced
    ensures SwappedUnder(p, run, k, t, pc)
    decreases k
  {
    assert k > 0;
    var m := k - 1;
    RacedByKick(p, run, m, t, pc);
    if run[m].threads[t] == pc {
      RacedWasSwapped(p, run, m, t, pc);
      var n: nat, u: nat :| n < m && SwapUnder(p, run, n, u, t, pc);
      assert n < k;
    } else {
      var u: nat :| SwapUnder(p, run, m, u, t, pc);
      assert m < k;
    }
  }

  /** A write is wrong only if another thread swapped its slot between the look and the write. */
  lemma WrongWriteWasSwapped(p: Params, run: seq<State>, k: nat, t: nat)
    requires IsRun(p, run) && WrongWriteAt(p, run, k, t)
    ensures SwappedUnder(p, run, k, t, run[k].threads[t])
  {
    RunInOrder(p, run, k);
    assert PcOk(p, run[k], run[k].threads[t]);
    RacedWasSwapped(p, run, k, t, run[k].threads[t]);
  }

  // ----- locking -----

  /** A thread holds at most one of the eight mutexes, and a writer is the sole holder of its. */
  lemma MutexDiscipline(p: Params, run: seq<State>, i: nat, t: nat, m: nat, n: nat)
    requires IsRun(p, run) && i < |run| && m < MUTEXES && n < MUTEXES
    requires |run[i].locks| == MUTEXES
    requires t in run[i].locks[m].writers + run[i].locks[m].readers
    requires t in run[i].locks[n].writers + run[i].locks[n].readers
    ensures m == n
    ensures t in run[i].locks[m].writers ==> run[i].locks[m] == Lock({t}, {})
    ensures t < |run[i].threads| && Holding(run[i].threads[t]) && Mutex(run[i].threads[t].b) == m
  {
    RunInOrder(p, run, i);
    var s := run[i];
    assert Recorded(s, m, t) && Recorded(s, n, t);
    if t in s.locks[m].writers {
      assert forall u | u in s.locks[m].writers :: u == t;
      assert s.locks[m].writers == {t};
    }
  }

  /** While any call is unfinished, some thread can take a step of its call. */
  lemma NoDeadlock(p: Params, run: seq<State>, i: nat, t: nat)
    requires IsRun(p, run) && i < |run|
    requires t < |run[i].threads| && !run[i].threads[t].Idle?
    ensures exists u: nat, s': State :: Proceeds(p, run[i], s', u)
  {
    RunInOrder(p, run, i);
    var s := run[i];
    assert PcOk(p, s, s.threads[t]);
    if s.threads[t].Want? {
      var m := Mutex(s.threads[t].b);
      if u: nat :| u in s.locks[m].writers + s.locks[m].readers {
        assert Recorded(s, m, u);
        HolderProceeds(p, s, u);
      } else {
        FreeToAcquire(p, s, t);
      }
    } else if s.threads[t].Swap? {
      var s' := Kicked(p, s, t, 0);
      assert Kick(p, s, s', t);
      assert Proceeds(p, s, s', t);
    } else {
      HolderProceeds(p, s, t);
    }
  }

  lemma FreeToAcquire(p: Params, s: State, t: nat)
    requires InOrder(p, s) && t < |s.threads| && s.threads[t].Want?
    requires forall u: nat :: u !in s.locks[Mutex(s.threads[t].b)].writers + s.locks[Mutex(s.threads[t].b)].readers
    ensures exists u: nat, s': State :: Proceeds(p, s, s', u)
  {
    var pc := s.threads[t];
    var m := Mutex(pc.b);
    var l := s.locks[m];
    assert l.writers == {} && l.readers == {} by {
      assert forall u | u in l.writers :: u in l.writers + l.readers;
      assert forall u | u in l.readers :: u in l.writers + l.readers;
    }
    var s' := At(Locked(s, m, if pc.task.FindTask? then l.(readers := l.readers + {t}) else l.(writers := {t})),
                 t, Look(pc.task, pc.b, 0));
    assert Acquire(p, s, s', t);
    assert Proceeds(p, s, s', t);
  }

  /** A thread that holds a mutex never waits. */
  lemma HolderProceeds(p: Params, s: State, t: nat)
    requires InOrder(p, s) && t < |s.threads| && Holding(s.threads[t])
    ensures exists u: nat, s': State :: Proceeds(p, s, s', u)
  {
    assert PcOk(p, s, s.threads[t]);
    if s.threads[t].Write? {
      WriterProceeds(p, s, t);
    } else if s.threads[t].i < SLOTS {
      LookerProceeds(p, s, t);
    } else {
      LeaverProceeds(p, s, t);
    }
  }

  lemma WriterProceeds(p: Params, s: State, t: nat)
    requires WellShaped(p, s) && t < |s.threads| && s.threads[t].Write? && PcOk(p, s, s.threads[t])
    ensures exists u: nat, s': State :: Proceeds(p, s, s', u)
  {
    var pc := s.threads[t];
    var item := s.table[pc.b][pc.i];
    var done := At(Released(s, t, pc.b), t, Idle(true));
    var s' :=
      match pc.task
      case InsertTask(hand, _, _, _) =>
        done.(table := Put(s.table, pc.b, pc.i, hand), lost := s.lost + OneClass(p, pc.b, item))
      case RemoveTask(f, _, _, _) =>
        done.(table := Put(s.table, pc.b, pc.i, ""),
              removed := s.removed + OneClass(p, pc.b, f),
              lost := if item == f then s.lost else s.lost + OneClass(p, pc.b, item),
              spare := if item == f then s.spare else s.spare + OneClass(p, pc.b, f));
    assert WriteSlot(p, s, s', t);
    assert Proceeds(p, s, s', t);
  }

  lemma LookerProceeds(p: Params, s: State, t: nat)
    requires WellShaped(p, s) && t < |s.threads| && PcOk(p, s, s.threads[t])
    requires s.threads[t].Look? && s.threads[t].i < SLOTS
    ensures exists u: nat, s': State :: Proceeds(p, s, s', u)
  {
    var pc := s.threads[t];
    var item := s.table[pc.b][pc.i];
    var onward := At(s, t, Look(pc.task, pc.b, pc.i + 1));
    var s' :=
      match pc.task
      case InsertTask(_, _, _, _) => if item == "" then At(s, t, Write(pc.task, pc.b, pc.i, false)) else onward
      case FindTask(f, _, _, _) => if item == f then At(Released(s, t, pc.b), t, Idle(true)) else onward
      case RemoveTask(f, _, _, _) =>
        if item != "" && item == f then At(s, t, Write(pc.task, pc.b, pc.i, false)) else onward;
    assert LookAt(p, s, s', t);
    assert Proceeds(p, s, s', t);
  }

  lemma LeaverProceeds(p: Params, s: State, t: nat)
    requires WellShaped(p, s) && t < |s.threads| && s.threads[t].Look? && s.threads[t].i >= SLOTS
    ensures exists u: nat, s': State :: Proceeds(p, s, s', u)
  {
    var pc := s.threads[t];
    var left := Released(s, t, pc.b);
    var s' :=
      match pc.task
      case InsertTask(hand, h1, h2, round) =>
        if round == 0 then At(left, t, Want(InsertTask(hand, h1, h2, 1), h2))
        else if round == 1 then At(left, t, Swap(InsertTask(hand, h1, h2, 2), h1))
        else if round < 1 + MAX_KICKS then At(left, t, Swap(InsertTask(hand, h1, h2, round + 1), pc.b))
        else At(left, t, Idle(false)).(dropped := s.dropped + OneClass(p, pc.b, hand))
      case FindTask(f, h1, h2, round) =>
        At(left, t, if round == 0 then Want(FindTask(f, h1, h2, 1), h2) else Idle(false))
      case RemoveTask(f, h1, h2, round) =>
        At(left, t, if round == 0 then Want(RemoveTask(f, h1, h2, 1), h2) else Idle(false));
    assert LeaveBucket(p, s, s', t);
    assert Proceeds(p, s, s', t);
  }
}
