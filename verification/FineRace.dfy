/** A race the locks of the fine-grained filter do not prevent, and a run from the empty filter into it. */
module FineRace {
  import opened Bits
  import opened HashIndex
  import opened Words
  import opened TableBag
  import opened ClassBag
  import opened FineModel
  import opened FineSafety
  import opened FineTheorems
  import opened Chains

  lemma SwapHits(p: Params, s: State, t: nat, u: nat) returns (s1: State)
    requires Usual(p) && Inv(p, s) && Conserved(p, s) && t < |s.threads| && u < |s.threads| && t != u
    requires s.threads[t].Write? && s.threads[t].task.InsertTask?
    requires s.threads[u].Swap? && s.threads[u].b == s.threads[t].b && s.threads[u].task.hand != ""
    ensures Proceeds(p, s, s1, u) && Inv(p, s1) && Conserved(p, s1)
    ensures t < |s1.threads| && s1.threads[t] == s.threads[t].(raced := true)
    ensures s1.threads[t].b < |s1.table| && s1.threads[t].i < |s1.table[s1.threads[t].b]|
    ensures !AsSeen(s1, s1.threads[t])
  {
    assert PcOk(p, s, s.threads[t]) && PcOk(p, s, s.threads[u]);
    s1 := Kicked(p, s, u, s.threads[t].i);
    assert Kick(p, s, s1, u);
    assert Proceeds(p, s, s1, u);
    NextKeeps(p, s, s1);
    ConservedIffEven(p, s);
    ConservedIffEven(p, s1);
  }

  /**
    Whenever one insert has seen a slot empty and another is about to swap a
    fingerprint into that bucket, two steps lead out of the states in which all
    is accounted for.
   */
  lemma RaceLoses(p: Params, s: State, t: nat, u: nat) returns (s1: State, s2: State)
    requires Usual(p) && Inv(p, s) && Conserved(p, s) && t < |s.threads| && u < |s.threads| && t != u
    requires s.threads[t].Write? && s.threads[t].task.InsertTask?
    requires s.threads[u].Swap? && s.threads[u].b == s.threads[t].b && s.threads[u].task.hand != ""
    ensures Proceeds(p, s, s1, u) && Proceeds(p, s1, s2, t)
    ensures Conserved(p, s1) && !Conserved(p, s2)
  {
    s1 := SwapHits(p, s, t, u);
    var pc := s1.threads[t];
    s2 := At(Released(s1, t, pc.b), t, Idle(true))
          .(table := Put(s1.table, pc.b, pc.i, pc.task.hand),
            lost := s1.lost + OneClass(p, pc.b, s1.table[pc.b][pc.i]));
    assert WriteSlot(p, s1, s2, t);
    assert Proceeds(p, s1, s2, t);
    NextKeeps(p, s1, s2);
    WriteRightIff(p, s1, s2, t);
  }

  // ----- a filter with one bucket -----

  function NoHash(s: string): nat {
    0
  }

  function Print(key: string): string {
    if key == "t" then "t" else if key == "u" then "u" else "f"
  }

  function P(): Params {
    Params(1, NoHash, Print)
  }

  lemma OneBucket()
    ensures Usual(P())
    ensures forall key: string :: P().Bucket1(key) == 0 && P().Bucket2(key) == 0
  {
    assert Pow2(0) == 1;
    assert IsPow2(1);
  }

  /** Two threads; the bucket's row, its mutex, and the books of inserts begun and removes done. */
  function St(row: seq<string>, lock: Lock, a: Pc, b: Pc, begun: multiset<Class>, removed: multiset<Class>): State {
    State([row], [lock, FREE, FREE, FREE, FREE, FREE, FREE, FREE], [a, b], begun, removed,
          multiset{}, multiset{}, multiset{})
  }

  /** `next` has all steps of the filter; keeping it a variable keeps them folded. */
  ghost predicate HasSteps(next: (State, State) -> bool) {
    forall s, s' | Next(P(), s, s') :: next(s, s')
  }

  const W0 := Lock({0}, {})
  const W1 := Lock({1}, {})

  lemma Shapes(row: seq<string>, lock: Lock, a: Pc, b: Pc, begun: multiset<Class>, removed: multiset<Class>)
    requires |row| == SLOTS
    ensures WellShaped(P(), St(row, lock, a, b, begun, removed))
  {
  }

  lemma Locks(lock: Lock, lock': Lock)
    ensures [lock, FREE, FREE, FREE, FREE, FREE, FREE, FREE][Mutex(0) := lock']
         == [lock', FREE, FREE, FREE, FREE, FREE, FREE, FREE]
  {
  }

  /** The first n of the bucket's slots are taken. */
  function Row(n: nat): seq<string>
    requires n <= SLOTS
  {
    seq(SLOTS, i requires 0 <= i < SLOTS => if i < n then "f" else "")
  }

  /** What an insert of fingerprint `f` is at in its given round. */
  function Ins(f: string, round: nat): Task {
    InsertTask(f, 0, 0, round)
  }

  function Begun(begun: multiset<Class>, key: string): multiset<Class> {
    begun + multiset{KeyClass(P(), key)}
  }

  // ----- the steps of thread 0 -----

  lemma Begins0(row: seq<string>, a: Pc, b: Pc, begun: multiset<Class>, removed: multiset<Class>, key: string)
    requires |row| == SLOTS && a.Idle?
    ensures Next(P(), St(row, FREE, a, b, begun, removed),
                      St(row, FREE, Want(Ins(Print(key), 0), 0), b, Begun(begun, key), removed))
  {
    OneBucket();
    var s := St(row, FREE, a, b, begun, removed);
    var s' := St(row, FREE, Want(Ins(Print(key), 0), 0), b, Begun(begun, key), removed);
    Shapes(row, FREE, a, b, begun, removed);
    assert s'.threads == s.threads[0 := Want(Ins(Print(key), 0), 0)];
    assert BeginsWith(P(), s, s', 0, key);
    assert Begin(P(), s, s', 0);
  }

  lemma Acquires0(row: seq<string>, task: Task, b: Pc, begun: multiset<Class>, removed: multiset<Class>)
    requires |row| == SLOTS && !task.FindTask?
    ensures Next(P(), St(row, FREE, Want(task, 0), b, begun, removed), St(row, W0, Look(task, 0, 0), b, begun, removed))
  {
    var s, s' := St(row, FREE, Want(task, 0), b, begun, removed), St(row, W0, Look(task, 0, 0), b, begun, removed);
    Shapes(row, FREE, Want(task, 0), b, begun, removed);
    Locks(FREE, W0);
    assert s'.threads == s.threads[0 := Look(task, 0, 0)];
    assert Acquire(P(), s, s', 0);
    assert Proceeds(P(), s, s', 0);
  }

  /** An insert looks at a slot, and goes past it or stays to write it. */
  lemma Looks0(row: seq<string>, f: string, i: nat, b: Pc, begun: multiset<Class>, removed: multiset<Class>)
    requires |row| == SLOTS && i < SLOTS
    ensures Next(P(), St(row, W0, Look(Ins(f, 0), 0, i), b, begun, removed),
                      St(row, W0, if row[i] == "" then Write(Ins(f, 0), 0, i, false) else Look(Ins(f, 0), 0, i + 1),
                         b, begun, removed))
  {
    var pc := if row[i] == "" then Write(Ins(f, 0), 0, i, false) else Look(Ins(f, 0), 0, i + 1);
    var s, s' := St(row, W0, Look(Ins(f, 0), 0, i), b, begun, removed), St(row, W0, pc, b, begun, removed);
    Shapes(row, W0, Look(Ins(f, 0), 0, i), b, begun, removed);
    assert s'.threads == s.threads[0 := pc];
    assert LookAt(P(), s, s', 0);
    assert Proceeds(P(), s, s', 0);
  }

  lemma Writes0(row: seq<string>, f: string, i: nat, b: Pc, begun: multiset<Class>, removed: multiset<Class>)
    requires |row| == SLOTS && i < SLOTS && row[i] == ""
    ensures Next(P(), St(row, W0, Write(Ins(f, 0), 0, i, false), b, begun, removed),
                      St(row[i := f], FREE, Idle(true), b, begun, removed))
  {
    var s, s' := St(row, W0, Write(Ins(f, 0), 0, i, false), b, begun, removed),
                 St(row[i := f], FREE, Idle(true), b, begun, removed);
    Shapes(row, W0, Write(Ins(f, 0), 0, i, false), b, begun, removed);
    Locks(W0, FREE);
    assert {0} - {0} == {} && {} - {0} == {};
    assert s'.threads == s.threads[0 := Idle(true)];
    assert s'.table == Put(s.table, 0, i, f);
    assert WriteSlot(P(), s, s', 0);
    assert Proceeds(P(), s, s', 0);
  }

  // ----- filling the bucket -----

  lemma {:induction false} Scan0(next: (State, State) -> bool, x: State, n: nat, i: nat, begun: multiset<Class>)
    requires HasSteps(next)
    requires i <= n < SLOTS && Leads(next, x, St(Row(n), W0, Look(Ins("f", 0), 0, 0), Idle(true), begun, multiset{}))
    ensures Leads(next, x, St(Row(n), W0, Look(Ins("f", 0), 0, i), Idle(true), begun, multiset{}))
    decreases i
  {
    if i > 0 {
      Scan0(next, x, n, i - 1, begun);
      Looks0(Row(n), "f", i - 1, Idle(true), begun, multiset{});
      LeadsOn(next, x, St(Row(n), W0, Look(Ins("f", 0), 0, i - 1), Idle(true), begun, multiset{}),
                       St(Row(n), W0, Look(Ins("f", 0), 0, i), Idle(true), begun, multiset{}));
    }
  }

  lemma FillOne(next: (State, State) -> bool, x: State, n: nat, begun: multiset<Class>)
    requires HasSteps(next)
    requires n < SLOTS && Leads(next, x, St(Row(n), FREE, Idle(true), Idle(true), begun, multiset{}))
    ensures Leads(next, x, St(Row(n + 1), FREE, Idle(true), Idle(true), Begun(begun, "f"), multiset{}))
  {
    var task, more := Ins("f", 0), Begun(begun, "f");
    Begins0(Row(n), Idle(true), Idle(true), begun, multiset{}, "f");
    LeadsOn(next, x, St(Row(n), FREE, Idle(true), Idle(true), begun, multiset{}),
                     St(Row(n), FREE, Want(task, 0), Idle(true), more, multiset{}));
    Acquires0(Row(n), task, Idle(true), more, multiset{});
    LeadsOn(next, x, St(Row(n), FREE, Want(task, 0), Idle(true), more, multiset{}),
                     St(Row(n), W0, Look(task, 0, 0), Idle(true), more, multiset{}));
    Scan0(next, x, n, n, more);
    Looks0(Row(n), "f", n, Idle(true), more, multiset{});
    LeadsOn(next, x, St(Row(n), W0, Look(task, 0, n), Idle(true), more, multiset{}),
                     St(Row(n), W0, Write(task, 0, n, false), Idle(true), more, multiset{}));
    Writes0(Row(n), "f", n, Idle(true), more, multiset{});
    assert Row(n)[n := "f"] == Row(n + 1);
    LeadsOn(next, x, St(Row(n), W0, Write(task, 0, n, false), Idle(true), more, multiset{}),
                     St(Row(n + 1), FREE, Idle(true), Idle(true), more, multiset{}));
  }

  lemma {:induction false} Fill(next: (State, State) -> bool, n: nat) returns (begun: multiset<Class>)
    requires HasSteps(next)
    requires n <= SLOTS
    ensures Leads(next, Empty(), St(Row(n), FREE, Idle(true), Idle(true), begun, multiset{}))
  {
    begun := multiset{};
    if n == 0 {
      LeadsNow(next, Empty());
    } else {
      var less := Fill(next, n - 1);
      FillOne(next, Empty(), n - 1, less);
      begun := Begun(less, "f");
    }
  }

  function Empty(): State {
    St(Row(0), FREE, Idle(true), Idle(true), multiset{}, multiset{})
  }

  lemma StartsEmpty()
    ensures Init(P(), Empty())
  {
  }

  // ----- thread 1 finds it full, twice, and is about to swap -----

  const FULL: seq<string> := ["f", "f", "f", "f"]

  lemma Begins1(begun: multiset<Class>)
    ensures Next(P(), St(FULL, FREE, Idle(true), Idle(true), begun, multiset{}),
                      St(FULL, FREE, Idle(true), Want(Ins("u", 0), 0), Begun(begun, "u"), multiset{}))
  {
    OneBucket();
    var s, s' := St(FULL, FREE, Idle(true), Idle(true), begun, multiset{}),
                 St(FULL, FREE, Idle(true), Want(Ins("u", 0), 0), Begun(begun, "u"), multiset{});
    assert s'.threads == s.threads[1 := Want(Ins("u", 0), 0)];
    assert BeginsWith(P(), s, s', 1, "u");
    assert Begin(P(), s, s', 1);
  }

  lemma Acquires1(begun: multiset<Class>, round: nat)
    ensures Next(P(), St(FULL, FREE, Idle(true), Want(Ins("u", round), 0), begun, multiset{}),
                      St(FULL, W1, Idle(true), Look(Ins("u", round), 0, 0), begun, multiset{}))
  {
    var s, s' := St(FULL, FREE, Idle(true), Want(Ins("u", round), 0), begun, multiset{}),
                 St(FULL, W1, Idle(true), Look(Ins("u", round), 0, 0), begun, multiset{});
    Locks(FREE, W1);
    assert s'.threads == s.threads[1 := Look(Ins("u", round), 0, 0)];
    assert Acquire(P(), s, s', 1);
    assert Proceeds(P(), s, s', 1);
  }

  lemma Looks1(begun: multiset<Class>, round: nat, i: nat)
    requires i < SLOTS
    ensures Next(P(), St(FULL, W1, Idle(true), Look(Ins("u", round), 0, i), begun, multiset{}),
                      St(FULL, W1, Idle(true), Look(Ins("u", round), 0, i + 1), begun, multiset{}))
  {
    var s, s' := St(FULL, W1, Idle(true), Look(Ins("u", round), 0, i), begun, multiset{}),
                 St(FULL, W1, Idle(true), Look(Ins("u", round), 0, i + 1), begun, multiset{});
    assert s'.threads == s.threads[1 := Look(Ins("u", round), 0, i + 1)];
    assert FULL[i] == "f";
    assert LookAt(P(), s, s', 1);
    assert Proceeds(P(), s, s', 1);
  }

  /** Past the last slot: on to the second bucket, which is the same, and then to the swap. */
  lemma Leaves1(begun: multiset<Class>, round: nat)
    requires round <= 1
    ensures Next(P(), St(FULL, W1, Idle(true), Look(Ins("u", round), 0, SLOTS), begun, multiset{}),
                      St(FULL, FREE, Idle(true), if round == 0 then Want(Ins("u", 1), 0) else Swap(Ins("u", 2), 0),
                         begun, multiset{}))
  {
    var pc := if round == 0 then Want(Ins("u", 1), 0) else Swap(Ins("u", 2), 0);
    var s, s' := St(FULL, W1, Idle(true), Look(Ins("u", round), 0, SLOTS), begun, multiset{}),
                 St(FULL, FREE, Idle(true), pc, begun, multiset{});
    Locks(W1, FREE);
    assert {1} - {1} == {} && {} - {1} == {};
    assert s'.threads == s.threads[1 := pc];
    assert LeaveBucket(P(), s, s', 1);
    assert Proceeds(P(), s, s', 1);
  }

  lemma {:induction false} Scan1(next: (State, State) -> bool, x: State, begun: multiset<Class>, round: nat, i: nat)
    requires HasSteps(next)
    requires i <= SLOTS && Leads(next, x, St(FULL, FREE, Idle(true), Want(Ins("u", round), 0), begun, multiset{}))
    ensures Leads(next, x, St(FULL, W1, Idle(true), Look(Ins("u", round), 0, i), begun, multiset{}))
    decreases i
  {
    if i == 0 {
      Acquires1(begun, round);
      LeadsOn(next, x, St(FULL, FREE, Idle(true), Want(Ins("u", round), 0), begun, multiset{}),
                       St(FULL, W1, Idle(true), Look(Ins("u", round), 0, 0), begun, multiset{}));
    } else {
      Scan1(next, x, begun, round, i - 1);
      Looks1(begun, round, i - 1);
      LeadsOn(next, x, St(FULL, W1, Idle(true), Look(Ins("u", round), 0, i - 1), begun, multiset{}),
                       St(FULL, W1, Idle(true), Look(Ins("u", round), 0, i), begun, multiset{}));
    }
  }

  /** The bucket is full and thread 1 is about to swap. */
  function Swapping(begun: multiset<Class>): State {
    St(FULL, FREE, Idle(true), Swap(Ins("u", 2), 0), begun, multiset{})
  }

  lemma ReachSwap(next: (State, State) -> bool) returns (begun: multiset<Class>)
    requires HasSteps(next)
    ensures Leads(next, Empty(), Swapping(begun))
  {
    var x := Empty();
    var before := Fill(next, SLOTS);
    assert Row(SLOTS) == FULL;
    begun := Begun(before, "u");
    Begins1(before);
    LeadsOn(next, x, St(FULL, FREE, Idle(true), Idle(true), before, multiset{}),
                     St(FULL, FREE, Idle(true), Want(Ins("u", 0), 0), begun, multiset{}));
    Scan1(next, x, begun, 0, SLOTS);
    Leaves1(begun, 0);
    LeadsOn(next, x, St(FULL, W1, Idle(true), Look(Ins("u", 0), 0, SLOTS), begun, multiset{}),
                     St(FULL, FREE, Idle(true), Want(Ins("u", 1), 0), begun, multiset{}));
    Scan1(next, x, begun, 1, SLOTS);
    Leaves1(begun, 1);
    LeadsOn(next, x, St(FULL, W1, Idle(true), Look(Ins("u", 1), 0, SLOTS), begun, multiset{}), Swapping(begun));
  }

  // ----- thread 0 removes one item, and sees the slot empty -----

  const TAKE := RemoveTask("f", 0, 0, 0)
  const SWAP := Swap(InsertTask("u", 0, 0, 2), 0)
  const GAP: seq<string> := ["", "f", "f", "f"]

  function Taken(): multiset<Class> {
    OneClass(P(), 0, "f")
  }

  lemma RemoveBegins(begun: multiset<Class>)
    ensures Next(P(), Swapping(begun), St(FULL, FREE, Want(TAKE, 0), SWAP, begun, multiset{}))
  {
    OneBucket();
    var s, s' := Swapping(begun), St(FULL, FREE, Want(TAKE, 0), SWAP, begun, multiset{});
    assert s'.threads == s.threads[0 := Want(TAKE, 0)];
    assert BeginsWith(P(), s, s', 0, "f");
    assert Begin(P(), s, s', 0);
  }

  lemma RemoveLooks(begun: multiset<Class>)
    ensures Next(P(), St(FULL, W0, Look(TAKE, 0, 0), SWAP, begun, multiset{}),
                      St(FULL, W0, Write(TAKE, 0, 0, false), SWAP, begun, multiset{}))
  {
    var s, s' := St(FULL, W0, Look(TAKE, 0, 0), SWAP, begun, multiset{}),
                 St(FULL, W0, Write(TAKE, 0, 0, false), SWAP, begun, multiset{});
    assert s'.threads == s.threads[0 := Write(TAKE, 0, 0, false)];
    assert LookAt(P(), s, s', 0);
    assert Proceeds(P(), s, s', 0);
  }

  lemma RemoveWrites(begun: multiset<Class>)
    ensures Next(P(), St(FULL, W0, Write(TAKE, 0, 0, false), SWAP, begun, multiset{}),
                      St(GAP, FREE, Idle(true), SWAP, begun, Taken()))
  {
    var s, s' := St(FULL, W0, Write(TAKE, 0, 0, false), SWAP, begun, multiset{}),
                 St(GAP, FREE, Idle(true), SWAP, begun, Taken());
    Locks(W0, FREE);
    assert {0} - {0} == {} && {} - {0} == {};
    assert s'.threads == s.threads[0 := Idle(true)];
    assert FULL[0 := ""] == GAP;
    assert s'.table == Put(s.table, 0, 0, "");
    assert multiset{} + Taken() == Taken();
    assert WriteSlot(P(), s, s', 0);
    assert Proceeds(P(), s, s', 0);
  }

  /** Thread 0 has seen the slot empty, and thread 1 is about to swap: the race is on. */
  function Racing(begun: multiset<Class>): State {
    St(GAP, W0, Write(Ins("t", 0), 0, 0, false), SWAP, Begun(begun, "t"), Taken())
  }

  lemma ReachRace(next: (State, State) -> bool) returns (begun: multiset<Class>)
    requires HasSteps(next)
    ensures Leads(next, Empty(), Racing(begun))
  {
    var x, none: multiset<Class> := Empty(), multiset{};
    begun := ReachSwap(next);
    RemoveBegins(begun);
    LeadsOn(next, x, Swapping(begun), St(FULL, FREE, Want(TAKE, 0), SWAP, begun, none));
    Acquires0(FULL, TAKE, SWAP, begun, none);
    LeadsOn(next, x, St(FULL, FREE, Want(TAKE, 0), SWAP, begun, none),
                     St(FULL, W0, Look(TAKE, 0, 0), SWAP, begun, none));
    RemoveLooks(begun);
    LeadsOn(next, x, St(FULL, W0, Look(TAKE, 0, 0), SWAP, begun, none),
                     St(FULL, W0, Write(TAKE, 0, 0, false), SWAP, begun, none));
    RemoveWrites(begun);
    LeadsOn(next, x, St(FULL, W0, Write(TAKE, 0, 0, false), SWAP, begun, none),
                     St(GAP, FREE, Idle(true), SWAP, begun, Taken()));
    SeesGap(next, x, begun);
  }

  lemma SeesGap(next: (State, State) -> bool, x: State, begun: multiset<Class>)
    requires HasSteps(next)
    requires Leads(next, x, St(GAP, FREE, Idle(true), SWAP, begun, Taken()))
    ensures Leads(next, x, Racing(begun))
  {
    var more := Begun(begun, "t");
    Begins0(GAP, Idle(true), SWAP, begun, Taken(), "t");
    LeadsOn(next, x, St(GAP, FREE, Idle(true), SWAP, begun, Taken()),
                     St(GAP, FREE, Want(Ins("t", 0), 0), SWAP, more, Taken()));
    Acquires0(GAP, Ins("t", 0), SWAP, more, Taken());
    LeadsOn(next, x, St(GAP, FREE, Want(Ins("t", 0), 0), SWAP, more, Taken()),
                     St(GAP, W0, Look(Ins("t", 0), 0, 0), SWAP, more, Taken()));
    Looks0(GAP, "t", 0, SWAP, more, Taken());
    LeadsOn(next, x, St(GAP, W0, Look(Ins("t", 0), 0, 0), SWAP, more, Taken()), Racing(begun));
  }

  lemma RunToRace() returns (run: seq<State>, begun: multiset<Class>)
    ensures IsRun(P(), run) && run[|run| - 1] == Racing(begun)
  {
    var next := (s: State, s': State) => Next(P(), s, s');
    begun := ReachRace(next);
    run :| Path(next, run, Empty(), Racing(begun));
    forall i | 0 <= i < |run| - 1
      ensures Next(P(), run[i], run[i + 1])
    {
      assert next(run[i], run[i + 1]);
    }
    StartsEmpty();
  }

  lemma RacingConserved(c: seq<State>, begun: multiset<Class>)
    requires Usual(P()) && IsRun(P(), c) && c[|c| - 1] == Racing(begun)
    ensures Inv(P(), Racing(begun)) && Conserved(P(), Racing(begun))
  {
    RunInv(P(), c, |c| - 1);
    ConservedIffEven(P(), Racing(begun));
  }

  lemma TwoMore(c: seq<State>, s1: State, s2: State) returns (run: seq<State>)
    requires IsRun(P(), c) && Next(P(), c[|c| - 1], s1) && Next(P(), s1, s2)
    ensures IsRun(P(), run) && run == c + [s1, s2]
  {
    run := c + [s1, s2];
    forall i | 0 <= i < |run| - 1
      ensures Next(P(), run[i], run[i + 1])
    {
      if i < |c| - 1 {
        assert Next(P(), c[i], c[i + 1]);
      }
    }
  }

  lemma LastSteps(begun: multiset<Class>) returns (s1: State, s2: State)
    requires Usual(P()) && Inv(P(), Racing(begun)) && Conserved(P(), Racing(begun))
    ensures Next(P(), Racing(begun), s1) && Next(P(), s1, s2)
    ensures Conserved(P(), s1) && !Conserved(P(), s2)
  {
    s1, s2 := RaceLoses(P(), Racing(begun), 0, 1);
  }

  /** Conservation does fail: a run from the empty filter in which the last step loses a fingerprint. */
  lemma RaceRun() returns (run: seq<State>)
    ensures Usual(P()) && IsRun(P(), run) && |run| > 2
    ensures Conserved(P(), run[|run| - 2]) && !Conserved(P(), run[|run| - 1])
  {
    OneBucket();
    var c, begun := RunToRace();
    RacingConserved(c, begun);
    var s1, s2 := LastSteps(begun);
    run := TwoMore(c, s1, s2);
    assert run[|run| - 2] == s1 && run[|run| - 1] == s2;
  }
}
