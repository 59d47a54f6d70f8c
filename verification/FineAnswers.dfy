/** What the answers of the fine-grained filter mean, in every run and for every size. */
module FineAnswers {
  import opened HashIndex
  import opened Words
  import opened TableBag
  import opened FineModel
  import opened FineSafety
  import opened Chains

  // ----- a thread's own steps -----

  /** The two places are one, but for what another thread's swap noted in it. */
  predicate SamePlace(pc: Pc, pc': Pc) {
    pc' == pc || (pc.Write? && pc' == pc.(raced := true))
  }

  /** What a scan looks for in a slot. */
  predicate Accepts(task: Task, item: string) {
    match task
    case InsertTask(_, _, _, _) => item == ""
    case FindTask(f, _, _, _) => item == f
    case RemoveTask(f, _, _, _) => item != "" && item == f
  }

  /** The slot a thread is at, if the table has one. */
  function Item(s: State, b: nat, i: nat): string {
    if b < |s.table| && i < |s.table[b]| then s.table[b][i] else ""
  }

  /** The next round of a task. */
  function InRound(task: Task, n: nat): Task {
    task.(round := n)
  }

  /** What a kick puts into a thread's hand, and where it goes with it. */
  ghost predicate KickedTo(p: Params, s: State, s': State, task: Task, b: nat, task': Task, b': nat)
    requires p.Valid()
  {
    && task.InsertTask? && task'.InsertTask? && task' == task.(hand := task'.hand)
    && b' == p.NextIndex(b, task'.hand)
    && exists i: nat :: i < 4 && KickedSlot(s, s', b, i, task.hand, task'.hand)
  }

  predicate KickedSlot(s: State, s': State, b: nat, i: nat, hand: string, victim: string) {
    && b < |s.table| && i < |s.table[b]|
    && s.table[b][i] == victim && s'.table == Put(s.table, b, i, hand)
  }

  /** The buckets, and the fingerprint looked for or first stored, are this key's. */
  predicate OfKey(p: Params, task: Task, key: string)
    requires p.Valid()
  {
    && task.h1 == p.Bucket1(key) && task.h2 == p.Bucket2(key)
    && match task
       case InsertTask(hand, _, _, round) => round <= 1 ==> hand == p.md5(key)
       case FindTask(f, _, _, _) => f == p.md5(key)
       case RemoveTask(f, _, _, _) => f == p.md5(key)
  }

  ghost predicate OfSomeKey(p: Params, task: Task)
    requires p.Valid()
  {
    exists key: string :: OfKey(p, task, key)
  }

  /** How a thread comes to its next place. */
  ghost predicate PlaceFrom(p: Params, s: State, s': State, pc: Pc, pc': Pc)
    requires p.Valid()
  {
    match pc'
    case Look(task, b, i) =>
      if i == 0 then pc == Want(task, b)
      else i <= 4 && pc == Look(task, b, i - 1) && !Accepts(task, Item(s, b, i - 1))
    case Write(task, b, i, raced) =>
      i < 4 && !task.FindTask? && pc == Look(task, b, i) && Accepts(task, Item(s, b, i)) && !raced
    case Want(task, b) =>
      || (pc.Idle? && task.round == 0 && b == task.h1 && OfSomeKey(p, task))
      || (task.round == 1 && pc.Look? && pc.i >= 4 && pc.task == InRound(task, 0) && b == task.h2)
      || (task.round >= 2 && pc.Swap? && KickedTo(p, s, s', pc.task, pc.b, task, b))
    case Swap(task, b) =>
      && task.InsertTask? && 2 <= task.round <= 11
      && pc.Look? && pc.i >= 4 && pc.task == InRound(task, task.round - 1)
      && (if task.round == 2 then b == task.h1 || b == task.h2 else b == pc.b)
    case Idle(answer) =>
      if answer then
        || (pc.Look? && pc.task.FindTask? && pc.i < 4 && Item(s, pc.b, pc.i) == pc.task.fingerprint)
        || (pc.Write? && !pc.task.FindTask?)
      else
        pc.Look? && pc.i >= 4 && if pc.task.InsertTask? then pc.task.round >= 11 else pc.task.round >= 1
  }

  lemma LookPlaceFrom(p: Params, s: State, s': State, t: nat)
    requires WellShaped(p, s) && t < |s.threads| && LookAt(p, s, s', t)
    ensures |s'.threads| == |s.threads| && PlaceFrom(p, s, s', s.threads[t], s'.threads[t])
  {
  }

  lemma LeavePlaceFrom(p: Params, s: State, s': State, t: nat)
    requires WellShaped(p, s) && t < |s.threads| && LeaveBucket(p, s, s', t)
    ensures |s'.threads| == |s.threads| && PlaceFrom(p, s, s', s.threads[t], s'.threads[t])
  {
  }

  lemma KickPlaceFrom(p: Params, s: State, s': State, t: nat)
    requires WellShaped(p, s) && t < |s.threads| && Kick(p, s, s', t) && s.threads[t].task.round >= 2
    ensures |s'.threads| == |s.threads| && PlaceFrom(p, s, s', s.threads[t], s'.threads[t])
  {
    var i: nat :| i < SLOTS && s' == Kicked(p, s, t, i);
    assert KickedSlot(s, s', s.threads[t].b, i, s.threads[t].task.hand, s.table[s.threads[t].b][i]);
  }

  lemma BeginPlaceFrom(p: Params, s: State, s': State, t: nat)
    requires WellShaped(p, s) && t < |s.threads| && Begin(p, s, s', t)
    ensures |s'.threads| == |s.threads| && PlaceFrom(p, s, s', s.threads[t], s'.threads[t])
  {
    var key: string :| BeginsWith(p, s, s', t, key);
    BeginOfKey(p, s, s', t, key);
  }

  lemma BeginOfKey(p: Params, s: State, s': State, t: nat, key: string)
    requires WellShaped(p, s) && t < |s.threads| && BeginsWith(p, s, s', t, key)
    ensures |s'.threads| == |s.threads| && s'.threads[t].Want? && OfKey(p, s'.threads[t].task, key)
    ensures s'.threads[t].task.round == 0 && s'.threads[t].b == s'.threads[t].task.h1
  {
  }

  lemma OthersPlace(p: Params, s: State, s': State, u: nat, t: nat)
    requires WellShaped(p, s) && u < |s.threads| && t < |s.threads| && t != u
    requires Proceeds(p, s, s', u) || Begin(p, s, s', u)
    ensures |s'.threads| == |s.threads| && SamePlace(s.threads[t], s'.threads[t])
  {
    if Acquire(p, s, s', u) || LookAt(p, s, s', u) || Begin(p, s, s', u) {
      ComingPlace(p, s, s', u, t);
    } else if WriteSlot(p, s, s', u) || LeaveBucket(p, s, s', u) {
      LeavingPlace(p, s, s', u, t);
    }
  }

  lemma ComingPlace(p: Params, s: State, s': State, u: nat, t: nat)
    requires WellShaped(p, s) && u < |s.threads| && t < |s.threads| && t != u
    requires Acquire(p, s, s', u) || LookAt(p, s, s', u) || Begin(p, s, s', u)
    ensures |s'.threads| == |s.threads| && s'.threads[t] == s.threads[t]
  {
  }

  lemma LeavingPlace(p: Params, s: State, s': State, u: nat, t: nat)
    requires WellShaped(p, s) && u < |s.threads| && t < |s.threads| && t != u
    requires WriteSlot(p, s, s', u) || LeaveBucket(p, s, s', u)
    ensures |s'.threads| == |s.threads| && s'.threads[t] == s.threads[t]
  {
  }

  ghost predicate Stepped(p: Params, s: State, s': State, t: nat) {
    t < |s'.threads| ==>
      && p.Valid() && t < |s.threads|
      && (SamePlace(s.threads[t], s'.threads[t]) || PlaceFrom(p, s, s', s.threads[t], s'.threads[t]))
  }

  /** What a run is for thread t. */
  ghost predicate Follows(p: Params, run: seq<State>, t: nat) {
    && |run| > 0 && (t < |run[0].threads| ==> run[0].threads[t].Idle?)
    && forall m | 0 <= m < |run| - 1 :: Stepped(p, run[m], run[m + 1], t)
  }

  lemma OwnPlaceFrom(p: Params, s: State, s': State, t: nat)
    requires InOrder(p, s) && t < |s.threads| && (Proceeds(p, s, s', t) || Begin(p, s, s', t))
    ensures |s'.threads| == |s.threads| && PlaceFrom(p, s, s', s.threads[t], s'.threads[t])
  {
    assert PcOk(p, s, s.threads[t]);
    if LookAt(p, s, s', t) {
      LookPlaceFrom(p, s, s', t);
    } else if LeaveBucket(p, s, s', t) {
      LeavePlaceFrom(p, s, s', t);
    } else if Kick(p, s, s', t) {
      KickPlaceFrom(p, s, s', t);
    } else if Begin(p, s, s', t) {
      BeginPlaceFrom(p, s, s', t);
    }
  }

  lemma NextStepped(p: Params, s: State, s': State, t: nat)
    requires InOrder(p, s) && Next(p, s, s')
    ensures Stepped(p, s, s', t)
  {
    var u: nat :| Proceeds(p, s, s', u) || (WellShaped(p, s) && u < |s.threads| && Begin(p, s, s', u));
    OwnPlaceFrom(p, s, s', u);
    if t != u && t < |s.threads| {
      OthersPlace(p, s, s', u, t);
    }
  }

  lemma RunFollows(p: Params, run: seq<State>, t: nat)
    requires IsRun(p, run)
    ensures Follows(p, run, t)
  {
    forall m | 0 <= m < |run| - 1
      ensures Stepped(p, run[m], run[m + 1], t)
    {
      RunInOrder(p, run, m);
      assert Next(p, run[m], run[m + 1]);
      NextStepped(p, run[m], run[m + 1], t);
    }
  }

  /** Every call is about a key: its buckets, and its fingerprint until an insert kicks. */
  lemma {:induction false} CallIsOfKey(p: Params, run: seq<State>, j: nat, t: nat)
    requires Follows(p, run, t) && p.Valid() && j < |run| && t < |run[j].threads| && !run[j].threads[t].Idle?
    ensures OfSomeKey(p, run[j].threads[t].task)
    decreases j
  {
    SteppedAt(p, run, j, t);
    var pc, task := run[j - 1].threads[t], run[j].threads[t].task;
    if !pc.Idle? {
      CallIsOfKey(p, run, j - 1, t);
      var key: string :| OfKey(p, pc.task, key);
      assert OfKey(p, task, key);
    }
  }

  lemma SteppedAt(p: Params, run: seq<State>, j: nat, t: nat)
    requires Follows(p, run, t) && j < |run| && t < |run[j].threads| && !run[j].threads[t].Idle?
    ensures j > 0 && t < |run[j - 1].threads|
    ensures || SamePlace(run[j - 1].threads[t], run[j].threads[t])
            || PlaceFrom(p, run[j - 1], run[j], run[j - 1].threads[t], run[j].threads[t])
  {
    if j > 0 {
      assert Stepped(p, run[j - 1], run[j - 1 + 1], t);
    }
  }

  // ----- a scan of a bucket -----

  /** From state i to state j thread t is at this task, in this round of it. */
  predicate InTask(run: seq<State>, i: nat, j: nat, t: nat, task: Task) {
    i <= j < |run| && forall k | i <= k <= j ::
      t < |run[k].threads| && !run[k].threads[t].Idle? && run[k].threads[t].task == task
  }

  /** In this round the scan looked at slot n of the bucket at step k, and it was not what it looks for. */
  predicate PassedAt(run: seq<State>, k: nat, j: nat, t: nat, task: Task, b: nat, n: nat) {
    InTask(run, k, j, t, task) && run[k].threads[t] == Look(task, b, n) && !Accepts(task, Item(run[k], b, n))
  }

  ghost predicate Passed(run: seq<State>, j: nat, t: nat, task: Task, b: nat, n: nat) {
    exists k: nat :: PassedAt(run, k, j, t, task, b, n)
  }

  /** ... all slots before the i-th. */
  ghost predicate PassedAll(run: seq<State>, j: nat, t: nat, task: Task, b: nat, i: nat) {
    forall n: nat | n < i :: Passed(run, j, t, task, b, n)
  }

  lemma PassedStays(run: seq<State>, m: nat, j: nat, t: nat, task: Task, b: nat, i: nat)
    requires PassedAll(run, m, t, task, b, i) && j == m + 1 < |run| && t < |run[j].threads|
    requires !run[j].threads[t].Idle? && run[j].threads[t].task == task
    ensures PassedAll(run, j, t, task, b, i)
  {
    forall n: nat | n < i
      ensures Passed(run, j, t, task, b, n)
    {
      assert Passed(run, m, t, task, b, n);
      var k: nat :| PassedAt(run, k, m, t, task, b, n);
      assert PassedAt(run, k, j, t, task, b, n);
    }
  }

  lemma PassesHere(run: seq<State>, m: nat, j: nat, t: nat, task: Task, b: nat, i: nat)
    requires PassedAll(run, m, t, task, b, i) && j == m + 1 < |run| && t < |run[m].threads| && t < |run[j].threads|
    requires run[m].threads[t] == Look(task, b, i) && !Accepts(task, Item(run[m], b, i))
    requires run[j].threads[t] == Look(task, b, i + 1)
    ensures PassedAll(run, j, t, task, b, i + 1)
  {
    PassedStays(run, m, j, t, task, b, i);
    assert PassedAt(run, m, j, t, task, b, i);
    forall n: nat | n < i + 1
      ensures Passed(run, j, t, task, b, n)
    {
    }
  }

  /** A scan at slot i has passed all before it. */
  lemma {:induction false} ScanPassed(p: Params, run: seq<State>, j: nat, t: nat, task: Task, b: nat, i: nat)
    requires Follows(p, run, t) && j < |run| && t < |run[j].threads| && run[j].threads[t] == Look(task, b, i)
    ensures i <= 4 && PassedAll(run, j, t, task, b, i)
    decreases j
  {
    SteppedAt(p, run, j, t);
    var m := j - 1;
    if run[m].threads[t] == run[j].threads[t] {
      ScanPassed(p, run, m, t, task, b, i);
      PassedStays(run, m, j, t, task, b, i);
    } else if i > 0 {
      ScanPassed(p, run, m, t, task, b, i - 1);
      PassesHere(run, m, j, t, task, b, i - 1);
    }
  }

  /** A write is of a slot that its thread looked at, after passing those before it, and that was what it looks for. */
  ghost predicate SawAt(run: seq<State>, k: nat, j: nat, t: nat, task: Task, b: nat, i: nat) {
    && InTask(run, k, j, t, task) && run[k].threads[t] == Look(task, b, i) && Accepts(task, Item(run[k], b, i))
    && PassedAll(run, k, t, task, b, i)
  }

  lemma {:induction false} WriteSaw(p: Params, run: seq<State>, j: nat, t: nat, task: Task, b: nat, i: nat)
    returns (k: nat)
    requires Follows(p, run, t) && j < |run| && t < |run[j].threads| && run[j].threads[t].Write?
    requires run[j].threads[t].task == task && run[j].threads[t].b == b && run[j].threads[t].i == i
    ensures k < j && i < 4 && !task.FindTask? && SawAt(run, k, j, t, task, b, i)
    decreases j
  {
    SteppedAt(p, run, j, t);
    k := j - 1;
    if SamePlace(run[k].threads[t], run[j].threads[t]) {
      k := WriteSaw(p, run, k, t, task, b, i);
    } else {
      ScanPassed(p, run, k, t, task, b, i);
    }
  }

  // ----- the two buckets of a key -----

  /** In its first two rounds a task is at its key's buckets. */
  lemma RoundBucket(p: Params, run: seq<State>, j: nat, t: nat)
    requires IsRun(p, run) && j < |run| && t < |run[j].threads| && !run[j].threads[t].Idle?
    ensures var pc := run[j].threads[t];
            (pc.task.round == 0 ==> pc.b == pc.task.h1) && (pc.task.round == 1 ==> pc.b == pc.task.h2)
  {
    RunInOrder(p, run, j);
    assert PcOk(p, run[j], run[j].threads[t]);
  }

  /** Thread t has done with a bucket: it has looked at its four slots and found none it looks for. */
  ghost predicate PassedBucket(run: seq<State>, m: nat, t: nat, task: Task, b: nat) {
    && m < |run| && t < |run[m].threads| && run[m].threads[t] == Look(task, b, 4)
    && PassedAll(run, m, t, task, b, 4)
  }

  /** By step m it had done with its first bucket, and has been at its second from then on. */
  ghost predicate PassedFirst(run: seq<State>, m: nat, j: nat, t: nat, task: Task) {
    m < j && PassedBucket(run, m, t, InRound(task, 0), task.h1) && InTask(run, m + 1, j, t, task)
  }

  lemma PassesBucket(p: Params, run: seq<State>, m: nat, t: nat, task: Task, b: nat, i: nat)
    requires Follows(p, run, t) && m < |run| && t < |run[m].threads| && run[m].threads[t] == Look(task, b, i) && i >= 4
    ensures PassedBucket(run, m, t, task, b)
  {
    ScanPassed(p, run, m, t, task, b, i);
  }

  lemma FirstStays(run: seq<State>, m: nat, i: nat, j: nat, t: nat, task: Task)
    requires PassedFirst(run, m, i, t, task) && j == i + 1 < |run| && t < |run[j].threads|
    requires !run[j].threads[t].Idle? && run[j].threads[t].task == task
    ensures PassedFirst(run, m, j, t, task)
  {
  }

  lemma FirstCame(p: Params, run: seq<State>, i: nat, j: nat, t: nat, task: Task)
    requires IsRun(p, run) && Follows(p, run, t) && j == i + 1 < |run| && t < |run[i].threads| && t < |run[j].threads|
    requires !run[j].threads[t].Idle? && run[j].threads[t].task == task && task.round == 1
    requires run[i].threads[t].Idle? || run[i].threads[t].task != task
    ensures PassedFirst(run, i, j, t, task)
  {
    SteppedAt(p, run, j, t);
    RoundBucket(p, run, i, t);
    var pc := run[i].threads[t];
    PassesBucket(p, run, i, t, InRound(task, 0), pc.b, pc.i);
  }

  lemma {:induction false} FirstPassed(p: Params, run: seq<State>, j: nat, t: nat, task: Task) returns (m: nat)
    requires IsRun(p, run) && Follows(p, run, t) && j < |run| && t < |run[j].threads| && !run[j].threads[t].Idle?
    requires run[j].threads[t].task == task && task.round == 1
    ensures PassedFirst(run, m, j, t, task)
    decreases j
  {
    SteppedAt(p, run, j, t);
    var i := j - 1;
    if run[i].threads[t].Idle? || run[i].threads[t].task != task {
      m := i;
      FirstCame(p, run, i, j, t, task);
    } else {
      m := FirstPassed(p, run, i, t, task);
      FirstStays(run, m, i, j, t, task);
    }
  }

  // ----- find -----

  /** Thread t's call has looked at every slot of both buckets of its key, in turn, and found none it looks for. */
  ghost predicate PassedBoth(run: seq<State>, j: nat, t: nat, task: Task) {
    && task.round == 1 && PassedBucket(run, j, t, task, task.h2)
    && exists m: nat :: PassedFirst(run, m, j, t, task)
  }

  lemma EndsAt(p: Params, run: seq<State>, j: nat, t: nat)
    requires IsRun(p, run) && j + 1 < |run| && t < |run[j].threads| && t < |run[j + 1].threads|
    requires !run[j].threads[t].Idle? && run[j + 1].threads[t].Idle?
    ensures Follows(p, run, t) && PlaceFrom(p, run[j], run[j + 1], run[j].threads[t], run[j + 1].threads[t])
  {
    RunFollows(p, run, t);
    assert Stepped(p, run[j], run[j + 1], t);
  }

  lemma PassesBoth(p: Params, run: seq<State>, j: nat, t: nat)
    requires IsRun(p, run) && Follows(p, run, t) && j < |run| && t < |run[j].threads| && run[j].threads[t].Look?
    requires run[j].threads[t].i >= 4 && run[j].threads[t].task.round == 1
    ensures PassedBoth(run, j, t, run[j].threads[t].task)
  {
    var pc := run[j].threads[t];
    RoundBucket(p, run, j, t);
    PassesBucket(p, run, j, t, pc.task, pc.b, pc.i);
    var m := FirstPassed(p, run, j, t, pc.task);
  }

  /** A thread at a find or a remove is in its first or its second round. */
  lemma {:induction false} TwoRounds(p: Params, run: seq<State>, j: nat, t: nat)
    requires Follows(p, run, t) && j < |run| && t < |run[j].threads| && !run[j].threads[t].Idle?
    requires !run[j].threads[t].task.InsertTask?
    ensures run[j].threads[t].task.round <= 1
    decreases j
  {
    SteppedAt(p, run, j, t);
    if !run[j - 1].threads[t].Idle? && !run[j - 1].threads[t].task.InsertTask? {
      TwoRounds(p, run, j - 1, t);
    }
  }

  /**
    A find answers true exactly when it looks at its fingerprint in a slot of one
    of its key's buckets; it answers false only after both buckets.
   */
  lemma FindAnswers(p: Params, run: seq<State>, j: nat, t: nat)
    requires IsRun(p, run) && j + 1 < |run| && t < |run[j].threads| && t < |run[j + 1].threads|
    requires !run[j].threads[t].Idle? && run[j].threads[t].task.FindTask? && run[j + 1].threads[t].Idle?
    ensures run[j].threads[t].Look?
    ensures var pc := run[j].threads[t];
            if run[j + 1].threads[t].answer
            then pc.b in {pc.task.h1, pc.task.h2} && pc.i < 4 && Item(run[j], pc.b, pc.i) == pc.task.fingerprint
            else PassedBoth(run, j, t, pc.task)
  {
    EndsAt(p, run, j, t);
    TwoRounds(p, run, j, t);
    RoundBucket(p, run, j, t);
    if !run[j + 1].threads[t].answer {
      PassesBoth(p, run, j, t);
    }
  }

  lemma PassedDiffers(run: seq<State>, i: nat, j: nat, t: nat, task: Task, b: nat, n: nat) returns (k: nat)
    requires i < j < |run| && t < |run[i].threads| && run[i].threads[t].Idle? && Passed(run, j, t, task, b, n)
    ensures i < k <= j && !Accepts(task, Item(run[k], b, n))
  {
    k :| PassedAt(run, k, j, t, task, b, n);
  }

  /** A fingerprint that is in one slot of either bucket throughout the call is found. */
  lemma KeptIsFound(p: Params, run: seq<State>, i: nat, j: nat, t: nat, b: nat, n: nat)
    requires IsRun(p, run) && i < j && j + 1 < |run| && t < |run[i].threads| && run[i].threads[t].Idle?
    requires forall k | i < k <= j :: t < |run[k].threads| && !run[k].threads[t].Idle?
    requires run[j].threads[t].task.FindTask? && t < |run[j + 1].threads| && run[j + 1].threads[t].Idle?
    requires b in {run[j].threads[t].task.h1, run[j].threads[t].task.h2} && n < 4
    requires forall k | i < k <= j :: Item(run[k], b, n) == run[j].threads[t].task.fingerprint
    ensures run[j + 1].threads[t].answer
  {
    FindAnswers(p, run, j, t);
    if !run[j + 1].threads[t].answer {
      var task := run[j].threads[t].task;
      if b == task.h2 {
        assert Passed(run, j, t, task, b, n);
        var k := PassedDiffers(run, i, j, t, task, b, n);
      } else {
        var m: nat :| PassedFirst(run, m, j, t, task);
        assert Passed(run, m, t, InRound(task, 0), b, n);
        FirstIsLater(run, i, m, j, t, task);
        var k := PassedDiffers(run, i, m, t, InRound(task, 0), b, n);
      }
    }
  }

  lemma FirstIsLater(run: seq<State>, i: nat, m: nat, j: nat, t: nat, task: Task)
    requires i < j < |run| && t < |run[i].threads| && run[i].threads[t].Idle? && PassedFirst(run, m, j, t, task)
    ensures i < m
  {
  }

  // ----- remove -----

  /**
    A remove answers true exactly with its write, of a slot it saw its
    fingerprint in; it answers false only after both buckets.
   */
  lemma RemoveAnswers(p: Params, run: seq<State>, j: nat, t: nat)
    requires IsRun(p, run) && j + 1 < |run| && t < |run[j].threads| && t < |run[j + 1].threads|
    requires !run[j].threads[t].Idle? && run[j].threads[t].task.RemoveTask? && run[j + 1].threads[t].Idle?
    ensures var pc := run[j].threads[t];
            if run[j + 1].threads[t].answer
            then && pc.Write? && pc.b in {pc.task.h1, pc.task.h2} && Item(run[j + 1], pc.b, pc.i) == ""
                 && exists k: nat :: k < j && SawAt(run, k, j, t, pc.task, pc.b, pc.i)
            else pc.Look? && PassedBoth(run, j, t, pc.task)
  {
    EndsAt(p, run, j, t);
    TwoRounds(p, run, j, t);
    RoundBucket(p, run, j, t);
    var pc := run[j].threads[t];
    if run[j + 1].threads[t].answer {
      var k := WriteSaw(p, run, j, t, pc.task, pc.b, pc.i);
      WriteIs(p, run, j, t);
    } else {
      PassesBoth(p, run, j, t);
    }
  }

  /** A thread that goes home from a write has written. */
  lemma WriteIs(p: Params, run: seq<State>, j: nat, t: nat)
    requires IsRun(p, run) && j + 1 < |run| && t < |run[j].threads| && t < |run[j + 1].threads|
    requires run[j].threads[t].Write? && run[j + 1].threads[t].Idle?
    ensures var pc := run[j].threads[t];
            && pc.b < |run[j].table| && pc.i < |run[j].table[pc.b]| && !pc.task.FindTask?
            && run[j + 1].table == Put(run[j].table, pc.b, pc.i, if pc.task.InsertTask? then pc.task.hand else "")
  {
    assert Next(p, run[j], run[j + 1]);
    var s, s' := run[j], run[j + 1];
    var u: nat :| Proceeds(p, s, s', u) || (WellShaped(p, s) && u < |s.threads| && Begin(p, s, s', u));
    if u != t {
      OthersPlace(p, s, s', u, t);
    }
  }

  // ----- what `rand` may answer -----

  /** An insert may kick from either of its key's buckets. */
  lemma EitherBucket(p: Params, s: State, t: nat, b: nat)
    requires WellShaped(p, s) && t < |s.threads| && s.threads[t].Look? && s.threads[t].i >= SLOTS
    requires s.threads[t].task.InsertTask? && s.threads[t].task.round == 1
    requires b == s.threads[t].task.h1 || b == s.threads[t].task.h2
    ensures exists s' :: Proceeds(p, s, s', t) && s'.threads[t] == Swap(InRound(s.threads[t].task, 2), b)
  {
    var pc := s.threads[t];
    var s' := At(Released(s, t, pc.b), t, Swap(InRound(pc.task, 2), b));
    assert LeaveBucket(p, s, s', t);
    assert Proceeds(p, s, s', t) && s'.threads[t] == Swap(InRound(pc.task, 2), b);
  }

  /** A kick may take any of the bucket's four slots. */
  lemma AnySlot(p: Params, s: State, t: nat, i: nat)
    requires WellShaped(p, s) && t < |s.threads| && s.threads[t].Swap? && s.threads[t].task.InsertTask?
    requires s.threads[t].b < p.size && i < 4
    ensures exists s' :: Proceeds(p, s, s', t)
                         && KickedSlot(s, s', s.threads[t].b, i, s.threads[t].task.hand, s.table[s.threads[t].b][i])
  {
    var s' := Kicked(p, s, t, i);
    assert Kick(p, s, s', t);
    assert Proceeds(p, s, s', t)
        && KickedSlot(s, s', s.threads[t].b, i, s.threads[t].task.hand, s.table[s.threads[t].b][i]);
  }

  // ----- insert -----

  /** Thread t is in this round of an insert with these buckets. */
  predicate InsertAt(run: seq<State>, k: nat, t: nat, h1: nat, h2: nat, r: nat) {
    && k < |run| && t < |run[k].threads| && !run[k].threads[t].Idle? && run[k].threads[t].task.InsertTask?
    && run[k].threads[t].task.h1 == h1 && run[k].threads[t].task.h2 == h2 && run[k].threads[t].task.round == r
  }

  predicate InsertOn(run: seq<State>, i: nat, j: nat, t: nat, h1: nat, h2: nat, r: nat) {
    i <= j < |run| && forall k | i <= k <= j :: InsertAt(run, k, t, h1, h2, r)
  }

  /** It is done with a bucket, whose four slots it saw full. */
  ghost predicate LeavesFull(run: seq<State>, m: nat, t: nat, h1: nat, h2: nat, r: nat) {
    && InsertAt(run, m, t, h1, h2, r) && run[m].threads[t].Look?
    && PassedBucket(run, m, t, run[m].threads[t].task, run[m].threads[t].b)
  }

  /** At step k it swaps, and has been with what it took, at the bucket that goes to, from then on. */
  ghost predicate KicksAt(p: Params, run: seq<State>, k: nat, j: nat, t: nat)
    requires p.Valid()
  {
    && k < j < |run| && t < |run[k].threads| && run[k].threads[t].Swap?
    && t < |run[j].threads| && !run[j].threads[t].Idle?
    && KickedTo(p, run[k], run[k + 1], run[k].threads[t].task, run[k].threads[t].b,
                run[j].threads[t].task, run[j].threads[t].b)
    && InTask(run, k + 1, j, t, run[j].threads[t].task)
  }

  ghost predicate KicksBetween(p: Params, run: seq<State>, m: nat, j: nat, t: nat)
    requires p.Valid()
  {
    exists k: nat :: m < k && KicksAt(p, run, k, j, t)
  }

  /** Step m ends round r, and up to j comes the next, with a swap unless that is the second or has not swapped yet. */
  ghost predicate RoundAt(p: Params, run: seq<State>, r: nat, m: nat, j: nat, t: nat, h1: nat, h2: nat)
    requires p.Valid()
  {
    && LeavesFull(run, m, t, h1, h2, r)
    && InsertOn(run, m + 1, j, t, h1, h2, r + 1) && InsertAt(run, j, t, h1, h2, r + 1)
    && (r >= 1 && !run[j].threads[t].Swap? ==> KicksBetween(p, run, m, j, t))
  }

  ghost function RoundLink(p: Params, run: seq<State>, t: nat, h1: nat, h2: nat): (nat, nat, nat) -> bool
    requires p.Valid()
  {
    (r: nat, m: nat, j: nat) => RoundAt(p, run, r, m, j, t, h1, h2)
  }

  lemma RoundStays(p: Params, run: seq<State>, r: nat, l: nat, m: nat, j: nat, t: nat, h1: nat, h2: nat)
    requires j == m + 1 < |run| && InsertAt(run, j, t, h1, h2, r + 1)
    requires p.Valid() && RoundAt(p, run, r, l, m, t, h1, h2)
    requires run[j].threads[t].Swap? <==> run[m].threads[t].Swap?
    requires run[j].threads[t].task == run[m].threads[t].task && run[j].threads[t].b == run[m].threads[t].b
    ensures RoundAt(p, run, r, l, j, t, h1, h2)
  {
    if r >= 1 && !run[j].threads[t].Swap? {
      var k: nat :| l < k && KicksAt(p, run, k, m, t);
      assert KicksAt(p, run, k, j, t);
    }
  }

  lemma RoundKicks(p: Params, run: seq<State>, r: nat, l: nat, m: nat, j: nat, t: nat, h1: nat, h2: nat)
    requires p.Valid() && RoundAt(p, run, r, l, m, t, h1, h2) && j == m + 1 && InsertAt(run, j, t, h1, h2, r + 1)
    requires run[m].threads[t].Swap? && run[j].threads[t].Want?
    requires KickedTo(p, run[m], run[j], run[m].threads[t].task, run[m].threads[t].b,
                      run[j].threads[t].task, run[j].threads[t].b)
    ensures RoundAt(p, run, r, l, j, t, h1, h2)
  {
    assert KicksAt(p, run, m, j, t);
  }

  lemma RoundBegins(p: Params, run: seq<State>, r: nat, m: nat, j: nat, t: nat, h1: nat, h2: nat)
    requires Follows(p, run, t) && p.Valid() && j == m + 1 && InsertAt(run, j, t, h1, h2, r + 1)
    requires InsertAt(run, m, t, h1, h2, r) && run[m].threads[t].Look? && run[m].threads[t].i >= 4
    requires r == 0 || run[j].threads[t].Swap?
    ensures RoundAt(p, run, r, m, j, t, h1, h2)
  {
    PassesBucket(p, run, m, t, run[m].threads[t].task, run[m].threads[t].b, run[m].threads[t].i);
  }

  /** The steps of one insert at which it was done with a bucket, round by round, up to state j in round |leaves|. */
  ghost predicate Rounds(p: Params, run: seq<State>, leaves: seq<nat>, j: nat, t: nat, h1: nat, h2: nat)
    requires p.Valid()
  {
    InsertAt(run, j, t, h1, h2, |leaves|) && Linked(RoundLink(p, run, t, h1, h2), leaves, j)
  }

  lemma RoundsStay(p: Params, run: seq<State>, leaves: seq<nat>, m: nat, j: nat, t: nat, h1: nat, h2: nat)
    requires p.Valid() && Rounds(p, run, leaves, m, t, h1, h2) && j == m + 1 && InsertAt(run, j, t, h1, h2, |leaves|)
    requires || (&& (run[j].threads[t].Swap? <==> run[m].threads[t].Swap?)
                 && run[j].threads[t].task == run[m].threads[t].task && run[j].threads[t].b == run[m].threads[t].b)
             || (&& run[m].threads[t].Swap? && run[j].threads[t].Want?
                 && KickedTo(p, run[m], run[j], run[m].threads[t].task, run[m].threads[t].b,
                             run[j].threads[t].task, run[j].threads[t].b))
    ensures Rounds(p, run, leaves, j, t, h1, h2)
  {
    if |leaves| > 0 {
      var r, l := |leaves| - 1, leaves[|leaves| - 1];
      if RoundAt(p, run, r, l, m, t, h1, h2) {
        if run[j].threads[t].Swap? <==> run[m].threads[t].Swap? {
          RoundStays(p, run, r, l, m, j, t, h1, h2);
        } else {
          RoundKicks(p, run, r, l, m, j, t, h1, h2);
        }
      }
    }
    LinkedLater(RoundLink(p, run, t, h1, h2), leaves, m, j);
  }

  lemma RoundsGoOn(p: Params, run: seq<State>, leaves: seq<nat>, m: nat, j: nat, t: nat, h1: nat, h2: nat)
    requires Follows(p, run, t) && p.Valid() && Rounds(p, run, leaves, m, t, h1, h2)
    requires j == m + 1 && InsertAt(run, j, t, h1, h2, |leaves| + 1)
    requires run[m].threads[t].Look? && run[m].threads[t].i >= 4 && (leaves == [] || run[j].threads[t].Swap?)
    ensures Rounds(p, run, leaves + [m], j, t, h1, h2)
  {
    RoundBegins(p, run, |leaves|, m, j, t, h1, h2);
    LinkedMore(RoundLink(p, run, t, h1, h2), leaves, m, j);
  }

  /** How an insert's place comes from the one before. */
  lemma InsertCame(p: Params, run: seq<State>, m: nat, j: nat, t: nat, h1: nat, h2: nat, n: nat)
    requires Follows(p, run, t) && p.Valid() && j == m + 1 && InsertAt(run, j, t, h1, h2, n)
    ensures t < |run[m].threads| && n <= 11
    ensures var pc, pc' := run[m].threads[t], run[j].threads[t];
            || (n == 0 && pc.Idle?)
            || (n > 0 && InsertAt(run, m, t, h1, h2, n - 1) && pc.Look? && pc.i >= 4 && (n == 1 || pc'.Swap?))
            || (InsertAt(run, m, t, h1, h2, n)
                && (|| ((pc'.Swap? <==> pc.Swap?) && pc'.task == pc.task && pc'.b == pc.b)
                    || (pc.Swap? && pc'.Want? && KickedTo(p, run[m], run[j], pc.task, pc.b, pc'.task, pc'.b))))
  {
    SteppedAt(p, run, j, t);
    RoundLimit(p, run, j, t);
  }

  lemma {:induction false} RoundLimit(p: Params, run: seq<State>, j: nat, t: nat)
    requires Follows(p, run, t) && j < |run| && t < |run[j].threads| && !run[j].threads[t].Idle?
    ensures run[j].threads[t].task.round <= 11
    decreases j
  {
    SteppedAt(p, run, j, t);
    if !run[j - 1].threads[t].Idle? {
      RoundLimit(p, run, j - 1, t);
    }
  }

  lemma {:induction false} RoundsWere(p: Params, run: seq<State>, j: nat, t: nat, h1: nat, h2: nat, n: nat)
    returns (leaves: seq<nat>)
    requires Follows(p, run, t) && p.Valid() && InsertAt(run, j, t, h1, h2, n)
    ensures |leaves| == n && Rounds(p, run, leaves, j, t, h1, h2)
    decreases j
  {
    SteppedAt(p, run, j, t);
    var m := j - 1;
    InsertCame(p, run, m, j, t, h1, h2, n);
    if InsertAt(run, m, t, h1, h2, n) {
      leaves := RoundsWere(p, run, m, t, h1, h2, n);
      RoundsStay(p, run, leaves, m, j, t, h1, h2);
    } else if n > 0 {
      leaves := RoundsWere(p, run, m, t, h1, h2, n - 1);
      RoundsGoOn(p, run, leaves, m, j, t, h1, h2);
      leaves := leaves + [m];
    } else {
      leaves := [];
    }
  }

  /** After its r-th round, and before the end of the next, the insert swapped. */
  ghost predicate Kicked10(p: Params, run: seq<State>, leaves: seq<nat>, j: nat, t: nat)
    requires p.Valid()
  {
    |leaves| == 11 && forall r: nat | 1 <= r <= 10 :: KicksBetween(p, run, leaves[r], After(leaves, r, j), t)
  }

  lemma RoundsKicked(p: Params, run: seq<State>, leaves: seq<nat>, j: nat, t: nat, h1: nat, h2: nat)
    requires p.Valid() && Rounds(p, run, leaves, j, t, h1, h2) && |leaves| == 11 && !run[j].threads[t].Swap?
    ensures Kicked10(p, run, leaves, j, t)
  {
    var link := RoundLink(p, run, t, h1, h2);
    forall r: nat | 1 <= r <= 10
      ensures KicksBetween(p, run, leaves[r], After(leaves, r, j), t)
    {
      assert LinkedAt(link, leaves, j, r);
      if r + 1 < |leaves| {
        assert LinkedAt(link, leaves, j, r + 1);
      }
    }
  }

  /**
    An insert answers true exactly with its write, of a slot it saw empty. It
    answers false only after both buckets, ten swaps, and a full bucket after
    each; and then what it has in hand is dropped.
   */
  lemma InsertAnswers(p: Params, run: seq<State>, j: nat, t: nat) returns (leaves: seq<nat>)
    requires IsRun(p, run) && p.Valid() && j + 1 < |run| && t < |run[j].threads| && t < |run[j + 1].threads|
    requires !run[j].threads[t].Idle? && run[j].threads[t].task.InsertTask? && run[j + 1].threads[t].Idle?
    ensures var pc := run[j].threads[t];
            if run[j + 1].threads[t].answer
            then && pc.Write? && Item(run[j + 1], pc.b, pc.i) == pc.task.hand
                 && exists k: nat :: k < j && SawAt(run, k, j, t, pc.task, pc.b, pc.i)
            else && Rounds(p, run, leaves, j, t, pc.task.h1, pc.task.h2) && Kicked10(p, run, leaves, j, t)
                 && LeavesFull(run, j, t, pc.task.h1, pc.task.h2, 11)
  {
    EndsAt(p, run, j, t);
    var pc := run[j].threads[t];
    leaves := RoundsWere(p, run, j, t, pc.task.h1, pc.task.h2, pc.task.round);
    if run[j + 1].threads[t].answer {
      var k := WriteSaw(p, run, j, t, pc.task, pc.b, pc.i);
      WriteIs(p, run, j, t);
    } else {
      RoundLimit(p, run, j, t);
      PassesBucket(p, run, j, t, pc.task, pc.b, pc.i);
      RoundsKicked(p, run, leaves, j, t, pc.task.h1, pc.task.h2);
    }
  }
}
