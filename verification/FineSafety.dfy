/** What every interleaving of the fine-grained filter keeps. */
module FineSafety {
  import opened HashIndex
  import opened Words
  import opened TableBag
  import opened ClassBag
  import opened FineModel

  // ----- the books -----

  /** The class a kicking thread carries. */
  function HandOf(p: Params, pc: Pc): multiset<Class>
    requires p.Valid()
  {
    match pc
    case Want(InsertTask(hand, _, _, _), b) => OneClass(p, b, hand)
    case Look(InsertTask(hand, _, _, _), b, _) => OneClass(p, b, hand)
    case Write(InsertTask(hand, _, _, _), b, _, _) => OneClass(p, b, hand)
    case Swap(InsertTask(hand, _, _, _), b) => OneClass(p, b, hand)
    case _ => multiset{}
  }

  function Total<C>(bags: seq<multiset<C>>): multiset<C> {
    if bags == [] then multiset{} else Total(bags[..|bags| - 1]) + bags[|bags| - 1]
  }

  lemma {:induction false} TotalUpdate<C>(bags: seq<multiset<C>>, t: nat, x: multiset<C>)
    requires t < |bags|
    ensures Total(bags[t := x]) + bags[t] == Total(bags) + x
    decreases |bags|
  {
    var last := |bags| - 1;
    var bags' := bags[t := x];
    if t == last {
      assert bags'[..last] == bags[..last];
    } else {
      TotalUpdate(bags[..last], t, x);
      assert bags'[..last] == bags[..last][t := x];
      TableBag.Swap(Total(bags'[..last]), bags[t], Total(bags[..last]), x, bags[last]);
    }
  }

  function HandBags(p: Params, threads: seq<Pc>): (r: seq<multiset<Class>>)
    requires p.Valid()
    ensures |r| == |threads| && forall t | 0 <= t < |r| :: r[t] == HandOf(p, threads[t])
  {
    seq(|threads|, t requires 0 <= t < |threads| => HandOf(p, threads[t]))
  }

  function Hands(p: Params, threads: seq<Pc>): multiset<Class>
    requires p.Valid()
  {
    Total(HandBags(p, threads))
  }

  /** Only thread t's hand changes. */
  lemma HandsUpdate(p: Params, ts: seq<Pc>, ts': seq<Pc>, t: nat)
    requires p.Valid() && |ts'| == |ts| && t < |ts|
    requires forall u | 0 <= u < |ts| && u != t :: HandOf(p, ts'[u]) == HandOf(p, ts[u])
    ensures Hands(p, ts') + HandOf(p, ts[t]) == Hands(p, ts) + HandOf(p, ts'[t])
  {
    assert HandBags(p, ts') == HandBags(p, ts)[t := HandOf(p, ts'[t])];
    TotalUpdate(HandBags(p, ts), t, HandOf(p, ts'[t]));
  }

  /** In the table, in hand, removed, dropped or lost: every insert begun is somewhere, and nothing else is. */
  ghost predicate Balanced(p: Params, s: State)
    requires p.Valid()
  {
    Bag(p, s.table) + Hands(p, s.threads) + s.removed + s.dropped + s.lost == s.begun + s.spare
  }

  // ----- the invariant -----

  predicate Holding(pc: Pc) {
    pc.Look? || pc.Write?
  }

  predicate Reading(pc: Pc) {
    pc.Look? && pc.task.FindTask?
  }

  /** Mutex m records thread t exactly while t holds it, in the mode in which t holds it. */
  ghost predicate Recorded(s: State, m: nat, t: nat)
    requires |s.locks| == MUTEXES && m < MUTEXES
  {
    && (t in s.locks[m].readers <==> t < |s.threads| && Reading(s.threads[t]) && Mutex(s.threads[t].b) == m)
    && (t in s.locks[m].writers <==>
          t < |s.threads| && Holding(s.threads[t]) && !Reading(s.threads[t]) && Mutex(s.threads[t].b) == m)
  }

  ghost predicate LocksOk(s: State)
    requires |s.locks| == MUTEXES
  {
    && (forall m: nat, t: nat | m < MUTEXES :: Recorded(s, m, t))
    && (forall m: nat | m < MUTEXES && s.locks[m].writers != {} :: s.locks[m].readers == {})
    && (forall m: nat, t: nat, u: nat | m < MUTEXES && t in s.locks[m].writers && u in s.locks[m].writers :: t == u)
  }

  /** In its first two rounds a task is at its key's buckets, the second the alternate of the first. */
  ghost predicate TaskOk(p: Params, task: Task, b: nat)
    requires p.Valid()
  {
    && task.h1 < p.size && task.h2 < p.size && b < p.size
    && (task.round == 0 ==> b == task.h1)
    && (task.round == 1 ==> b == task.h2)
    && (task.InsertTask? && task.round <= 1 ==> task.h2 == p.NextIndex(task.h1, task.hand))
  }

  ghost predicate PcOk(p: Params, s: State, pc: Pc)
    requires p.Valid() && Shaped(p, s.table)
  {
    match pc
    case Idle(_) => true
    case Want(task, b) => TaskOk(p, task, b)
    case Look(task, b, i) => TaskOk(p, task, b) && i <= SLOTS
    case Swap(task, b) => TaskOk(p, task, b) && task.InsertTask? && task.round >= 2
    case Write(task, b, i, raced) =>
      && TaskOk(p, task, b) && i < SLOTS && !task.FindTask?
      && (!raced && task.InsertTask? ==> s.table[b][i] == "")
      && (!raced && task.RemoveTask? ==> s.table[b][i] == task.fingerprint)
  }

  ghost predicate PcsOk(p: Params, s: State)
    requires p.Valid() && Shaped(p, s.table)
  {
    forall t | 0 <= t < |s.threads| :: PcOk(p, s, s.threads[t])
  }

  /** Locks and places are in order. This holds whatever the size of the table. */
  ghost predicate InOrder(p: Params, s: State) {
    WellShaped(p, s) && LocksOk(s) && PcsOk(p, s)
  }

  /** ... and so are the books, where fingerprints have classes. */
  ghost predicate Inv(p: Params, s: State) {
    InOrder(p, s) && Balanced(p, s)
  }

  lemma {:induction false} NothingInHand<C>(bags: seq<multiset<C>>)
    requires forall t | 0 <= t < |bags| :: bags[t] == multiset{}
    ensures Total(bags) == multiset{}
    decreases |bags|
  {
    if bags != [] {
      NothingInHand(bags[..|bags| - 1]);
    }
  }

  lemma InitBalanced(p: Params, s: State)
    requires p.Valid() && Init(p, s)
    ensures Balanced(p, s)
  {
    NothingInHand(HandBags(p, s.threads));
    forall c: Class ensures c !in Bag(p, s.table) {
      BagUpToHas(Classes(p), s.table, |s.table|, c);
    }
    assert Bag(p, s.table) == multiset{};
  }

  lemma InitInOrder(p: Params, s: State)
    requires Init(p, s)
    ensures InOrder(p, s)
  {
    forall m: nat, t: nat | m < MUTEXES ensures Recorded(s, m, t) { assert s.locks[m] == FREE; }
  }

  // ----- locks -----

  /** Thread t moves between places where it holds nothing, or keeps what it holds. */
  lemma SameLocks(s: State, s': State, t: nat)
    requires |s.locks| == MUTEXES && LocksOk(s) && s'.locks == s.locks && |s'.threads| == |s.threads|
    requires forall u | 0 <= u < |s.threads| ::
               && Holding(s'.threads[u]) == Holding(s.threads[u])
               && Reading(s'.threads[u]) == Reading(s.threads[u])
               && (Holding(s.threads[u]) ==> s'.threads[u].b == s.threads[u].b)
    ensures LocksOk(s')
  {
    forall m: nat, u: nat | m < MUTEXES ensures Recorded(s', m, u) { assert Recorded(s, m, u); }
  }

  lemma ReleaseKeepsLocks(s: State, s': State, t: nat)
    requires |s.locks| == MUTEXES && LocksOk(s) && t < |s.threads| && Holding(s.threads[t])
    requires s'.locks == Released(s, t, s.threads[t].b).locks
    requires |s'.threads| == |s.threads| && !Holding(s'.threads[t])
    requires forall u | 0 <= u < |s.threads| && u != t :: s'.threads[u] == s.threads[u]
    ensures LocksOk(s')
  {
    var m := Mutex(s.threads[t].b);
    var l := s.locks[m];
    assert s'.locks[m] == Lock(l.writers - {t}, l.readers - {t});
    assert forall n: nat | n < MUTEXES && n != m :: s'.locks[n] == s.locks[n];
    forall n: nat, u: nat | n < MUTEXES ensures Recorded(s', n, u) { assert Recorded(s, n, u); }
  }

  lemma AcquireKeepsLocks(p: Params, s: State, s': State, t: nat)
    requires WellShaped(p, s) && t < |s.threads| && LocksOk(s) && Acquire(p, s, s', t)
    ensures LocksOk(s')
  {
    var m := Mutex(s.threads[t].b);
    assert forall n: nat | n < MUTEXES && n != m :: s'.locks[n] == s.locks[n];
    forall n: nat, u: nat | n < MUTEXES ensures Recorded(s', n, u) { assert Recorded(s, n, u); }
  }

  /** No two threads are about to write the same slot, nor one to write what another looks at. */
  lemma OneWriter(s: State, t: nat, u: nat)
    requires |s.locks| == MUTEXES && LocksOk(s) && t < |s.threads| && u < |s.threads| && t != u
    requires s.threads[t].Write? && Holding(s.threads[u])
    ensures s.threads[t].b != s.threads[u].b
  {
    var m := Mutex(s.threads[t].b);
    assert Recorded(s, m, t) && Recorded(s, m, u);
  }

  // ----- every step keeps the invariant -----

  /** Nothing but thread t's place changes, and what it has in hand is of the same class. */
  lemma HandsSame(p: Params, ts: seq<Pc>, ts': seq<Pc>, t: nat)
    requires p.Valid() && |ts'| == |ts| && t < |ts|
    requires forall u | 0 <= u < |ts| :: HandOf(p, ts'[u]) == HandOf(p, ts[u])
    ensures Hands(p, ts') == Hands(p, ts)
  {
    assert HandBags(p, ts') == HandBags(p, ts);
  }

  /** The other threads' places are as good as before, if the table is as before. */
  lemma PcsKeep(p: Params, s: State, s': State, t: nat)
    requires p.Valid() && Shaped(p, s.table) && s'.table == s.table && PcsOk(p, s)
    requires |s'.threads| == |s.threads| && t < |s.threads|
    requires forall u | 0 <= u < |s.threads| && u != t :: s'.threads[u] == s.threads[u]
    requires PcOk(p, s', s'.threads[t])
    ensures PcsOk(p, s')
  {
    forall u | 0 <= u < |s'.threads| ensures PcOk(p, s', s'.threads[u]) {
      assert PcOk(p, s, s.threads[u]);
    }
  }

  lemma BooksSame(p: Params, s: State, s': State, t: nat)
    requires p.Valid() && Balanced(p, s) && s'.table == s.table && |s'.threads| == |s.threads| && t < |s.threads|
    requires forall u | 0 <= u < |s.threads| :: HandOf(p, s'.threads[u]) == HandOf(p, s.threads[u])
    requires s'.begun == s.begun && s'.removed == s.removed && s'.dropped == s.dropped
    requires s'.lost == s.lost && s'.spare == s.spare
    ensures Balanced(p, s')
  {
    HandsSame(p, s.threads, s'.threads, t);
  }

  lemma BeginBooks(p: Params, s: State, s': State, t: nat, key: string)
    requires Usual(p) && WellShaped(p, s) && Balanced(p, s) && t < |s.threads| && s.threads[t].Idle?
    requires BeginsWith(p, s, s', t, key)
    ensures Balanced(p, s')
  {
    var pc := s'.threads[t];
    if pc.task.InsertTask? {
      var x := multiset{KeyClass(p, key)};
      assert HandOf(p, pc) == x;
      HandsUpdate(p, s.threads, s'.threads, t);
      BeginSum(Bag(p, s.table), Hands(p, s.threads), Hands(p, s'.threads), x,
               s.removed, s.dropped, s.lost, s.begun, s.spare);
    } else {
      BooksSame(p, s, s', t);
    }
  }

  lemma BeginSum<C>(bag: multiset<C>, hands: multiset<C>, hands': multiset<C>, x: multiset<C>,
                    removed: multiset<C>, dropped: multiset<C>, lost: multiset<C>,
                    begun: multiset<C>, spare: multiset<C>)
    requires hands' == hands + x && bag + hands + removed + dropped + lost == begun + spare
    ensures bag + hands' + removed + dropped + lost == (begun + x) + spare
  {
    assert bag + (hands + x) + removed + dropped + lost == (bag + hands + removed + dropped + lost) + x;
    assert (begun + x) + spare == (begun + spare) + x;
  }

  lemma BeginKeeps(p: Params, s: State, s': State, t: nat)
    requires InOrder(p, s) && t < |s.threads| && Begin(p, s, s', t)
    ensures InOrder(p, s')
  {
    var key: string :| BeginsWith(p, s, s', t, key);
    BeginMoves(p, s, s', t, key);
    SameLocks(s, s', t);
    PcsKeep(p, s, s', t);
  }

  lemma BeginMoves(p: Params, s: State, s': State, t: nat, key: string)
    requires WellShaped(p, s) && t < |s.threads| && BeginsWith(p, s, s', t, key)
    ensures s'.table == s.table && s'.locks == s.locks && |s'.threads| == |s.threads| && s'.threads[t].Want?
    ensures forall u | 0 <= u < |s.threads| && u != t :: s'.threads[u] == s.threads[u]
    ensures PcOk(p, s', s'.threads[t])
  {
  }

  lemma AcquireKeeps(p: Params, s: State, s': State, t: nat)
    requires InOrder(p, s) && t < |s.threads| && Acquire(p, s, s', t)
    ensures InOrder(p, s')
  {
    assert PcOk(p, s, s.threads[t]);
    AcquireKeepsLocks(p, s, s', t);
    PcsKeep(p, s, s', t);
  }

  lemma LookPc(p: Params, s: State, s': State, t: nat)
    requires WellShaped(p, s) && t < |s.threads| && PcOk(p, s, s.threads[t]) && LookAt(p, s, s', t)
    ensures PcOk(p, s', s'.threads[t])
  {
  }

  lemma LookKeepsLocks(p: Params, s: State, s': State, t: nat)
    requires WellShaped(p, s) && LocksOk(s) && t < |s.threads| && LookAt(p, s, s', t)
    ensures LocksOk(s')
  {
    if Holding(s'.threads[t]) {
      SameLocks(s, s', t);
    } else {
      ReleaseKeepsLocks(s, s', t);
    }
  }

  lemma LookKeeps(p: Params, s: State, s': State, t: nat)
    requires InOrder(p, s) && t < |s.threads| && LookAt(p, s, s', t)
    ensures InOrder(p, s')
  {
    assert PcOk(p, s, s.threads[t]);
    LookPc(p, s, s', t);
    assert LocksOk(s') by { LookKeepsLocks(p, s, s', t); }
    assert PcsOk(p, s') by { PcsKeep(p, s, s', t); }
  }

  lemma LeavePc(p: Params, s: State, s': State, t: nat)
    requires WellShaped(p, s) && t < |s.threads| && PcOk(p, s, s.threads[t]) && LeaveBucket(p, s, s', t)
    ensures PcOk(p, s', s'.threads[t])
  {
  }

  lemma LeaveKeepsLocks(p: Params, s: State, s': State, t: nat)
    requires WellShaped(p, s) && LocksOk(s) && t < |s.threads| && LeaveBucket(p, s, s', t)
    ensures WellShaped(p, s') && LocksOk(s')
  {
    ReleaseKeepsLocks(s, s', t);
  }

  lemma LeaveHands(p: Params, s: State, s': State, t: nat)
    requires WellShaped(p, s) && t < |s.threads| && LeaveBucket(p, s, s', t)
    ensures s'.table == s.table
    ensures |s'.threads| == |s.threads| && forall u | 0 <= u < |s.threads| && u != t :: s'.threads[u] == s.threads[u]
    ensures Hands(p, s'.threads) + HandOf(p, s.threads[t]) == Hands(p, s.threads) + HandOf(p, s'.threads[t])
  {
    HandsUpdate(p, s.threads, s'.threads, t);
  }

  lemma LeaveKeeps(p: Params, s: State, s': State, t: nat)
    requires InOrder(p, s) && t < |s.threads| && LeaveBucket(p, s, s', t)
    ensures InOrder(p, s')
  {
    assert PcOk(p, s, s.threads[t]);
    LeaveKeepsLocks(p, s, s', t);
    LeavePc(p, s, s', t);
    PcsKeep(p, s, s', t);
  }

  lemma LeaveBooks(p: Params, s: State, s': State, t: nat)
    requires Usual(p) && Inv(p, s) && t < |s.threads| && LeaveBucket(p, s, s', t)
    ensures Balanced(p, s')
  {
    assert PcOk(p, s, s.threads[t]);
    LeaveHands(p, s, s', t);
    LeaveKeepsClass(p, s, s', t);
    LeaveKeepsBooks(p, s, s', t);
  }

  /** What a thread takes out of a bucket is of the class it came with, in hand or dropped. */
  lemma LeaveKeepsClass(p: Params, s: State, s': State, t: nat)
    requires Usual(p) && WellShaped(p, s) && t < |s.threads| && PcOk(p, s, s.threads[t]) && LeaveBucket(p, s, s', t)
    ensures s'.dropped + HandOf(p, s'.threads[t]) == s.dropped + HandOf(p, s.threads[t])
  {
    var pc := s.threads[t];
    if pc.task.InsertTask? {
      ClassEitherBucket(p, pc.task.h1, pc.task.hand);
    }
  }

  lemma LeaveKeepsBooks(p: Params, s: State, s': State, t: nat)
    requires p.Valid() && t < |s.threads| && |s'.threads| == |s.threads| && Balanced(p, s)
    requires s'.table == s.table && s'.begun == s.begun && s'.spare == s.spare
    requires s'.removed == s.removed && s'.lost == s.lost
    requires s'.dropped + HandOf(p, s'.threads[t]) == s.dropped + HandOf(p, s.threads[t])
    requires Hands(p, s'.threads) + HandOf(p, s.threads[t]) == Hands(p, s.threads) + HandOf(p, s'.threads[t])
    ensures Balanced(p, s')
  {
    var bag := Bag(p, s.table);
    var hands, hands' := Hands(p, s.threads), Hands(p, s'.threads);
    LeaveSum(bag + s.removed + s.lost, hands, hands', s.dropped, s'.dropped,
             HandOf(p, s.threads[t]), HandOf(p, s'.threads[t]));
    FiveSum(bag, hands, s.removed, s.dropped, s.lost);
    FiveSum(bag, hands', s.removed, s'.dropped, s.lost);
  }

  lemma FiveSum<C>(bag: multiset<C>, hands: multiset<C>, removed: multiset<C>, dropped: multiset<C>, lost: multiset<C>)
    ensures bag + hands + removed + dropped + lost == (bag + removed + lost) + hands + dropped
  {
  }

  lemma LeaveSum<C>(rest: multiset<C>, h: multiset<C>, h': multiset<C>, d: multiset<C>, d': multiset<C>,
                    x: multiset<C>, x': multiset<C>)
    requires h' + x == h + x' && d' + x' == d + x
    ensures rest + h' + d' == rest + h + d
  {
    assert (h' + d') + (x + x') == (h' + x) + (d' + x');
    assert (h + d) + (x + x') == (h + x') + (d + x);
    Cancel(h' + d', h + d, x + x');
    assert rest + h' + d' == rest + (h' + d') && rest + h + d == rest + (h + d);
  }

  lemma WriteKeeps(p: Params, s: State, s': State, t: nat)
    requires InOrder(p, s) && t < |s.threads| && WriteSlot(p, s, s', t)
    ensures InOrder(p, s')
  {
    assert LocksOk(s') by { ReleaseKeepsLocks(s, s', t); }
    assert PcsOk(p, s') by { WriteKeepsPcs(p, s, s', t); }
  }

  lemma WriteBooks(p: Params, s: State, s': State, t: nat)
    requires WellShaped(p, s) && Balanced(p, s) && t < |s.threads| && WriteSlot(p, s, s', t)
    ensures Balanced(p, s')
  {
    HandsUpdate(p, s.threads, s'.threads, t);
    WriteKeepsBooks(p, s, s', t);
  }

  lemma WriteKeepsPcs(p: Params, s: State, s': State, t: nat)
    requires WellShaped(p, s) && LocksOk(s) && PcsOk(p, s) && t < |s.threads| && WriteSlot(p, s, s', t)
    ensures WellShaped(p, s') && PcsOk(p, s')
  {
    var pc := s.threads[t];
    assert forall b, i | 0 <= b < p.size && 0 <= i < SLOTS && b != pc.b :: s'.table[b][i] == s.table[b][i];
    forall u | 0 <= u < |s'.threads| ensures PcOk(p, s', s'.threads[u]) {
      if u != t {
        assert s'.threads[u] == s.threads[u] && PcOk(p, s, s.threads[u]);
        if s.threads[u].Write? {
          OneWriter(s, t, u);
        }
      }
    }
  }

  lemma WriteKeepsBooks(p: Params, s: State, s': State, t: nat)
    requires WellShaped(p, s) && t < |s.threads| && WriteSlot(p, s, s', t)
    requires Balanced(p, s)
    requires Hands(p, s'.threads) + HandOf(p, s.threads[t]) == Hands(p, s.threads) + HandOf(p, s'.threads[t])
    ensures Balanced(p, s')
  {
    if s.threads[t].task.InsertTask? {
      StoreKeepsBooks(p, s, s', t);
    } else {
      TakeKeepsBooks(p, s, s', t);
    }
  }

  lemma StoreKeepsBooks(p: Params, s: State, s': State, t: nat)
    requires WellShaped(p, s) && t < |s.threads| && WriteSlot(p, s, s', t) && s.threads[t].task.InsertTask?
    requires Balanced(p, s)
    requires Hands(p, s'.threads) + HandOf(p, s.threads[t]) == Hands(p, s.threads) + HandOf(p, s'.threads[t])
    ensures Balanced(p, s')
  {
    var pc := s.threads[t];
    var x, y := OneClass(p, pc.b, s.table[pc.b][pc.i]), OneClass(p, pc.b, pc.task.hand);
    BagPut(p, s.table, pc.b, pc.i, pc.task.hand);
    StoreSum(Bag(p, s.table), Bag(p, s'.table), Hands(p, s.threads), Hands(p, s'.threads), x, y,
             s.removed, s.dropped, s.lost, s.begun + s.spare);
  }

  lemma TakeKeepsBooks(p: Params, s: State, s': State, t: nat)
    requires WellShaped(p, s) && t < |s.threads| && WriteSlot(p, s, s', t) && s.threads[t].task.RemoveTask?
    requires Balanced(p, s)
    requires Hands(p, s'.threads) + HandOf(p, s.threads[t]) == Hands(p, s.threads) + HandOf(p, s'.threads[t])
    ensures Balanced(p, s')
  {
    var pc := s.threads[t];
    var item, f := s.table[pc.b][pc.i], pc.task.fingerprint;
    var x, y := OneClass(p, pc.b, item), OneClass(p, pc.b, f);
    TakeFields(p, s, s', t, x, y);
    TakeSum(Bag(p, s.table), Bag(p, s'.table), Hands(p, s.threads), x, y,
            s.removed, s.dropped, s.lost, s.begun, s.spare, item == f);
  }

  lemma TakeFields(p: Params, s: State, s': State, t: nat, x: multiset<Class>, y: multiset<Class>)
    requires WellShaped(p, s) && t < |s.threads| && WriteSlot(p, s, s', t) && s.threads[t].task.RemoveTask?
    requires Hands(p, s'.threads) + HandOf(p, s.threads[t]) == Hands(p, s.threads) + HandOf(p, s'.threads[t])
    requires var pc := s.threads[t];
             x == OneClass(p, pc.b, s.table[pc.b][pc.i]) && y == OneClass(p, pc.b, pc.task.fingerprint)
    ensures var right := s.table[s.threads[t].b][s.threads[t].i] == s.threads[t].task.fingerprint;
            && Bag(p, s'.table) + x == Bag(p, s.table)
            && Hands(p, s'.threads) == Hands(p, s.threads)
            && s'.removed == s.removed + y && s'.dropped == s.dropped && s'.begun == s.begun
            && s'.lost == (if right then s.lost else s.lost + x)
            && s'.spare == if right then s.spare else s.spare + y
  {
    BagPut(p, s.table, s.threads[t].b, s.threads[t].i, "");
    assert HandOf(p, s.threads[t]) == multiset{} == HandOf(p, s'.threads[t]);
    assert Hands(p, s'.threads) == Hands(p, s'.threads) + multiset{};
  }

  lemma StoreSum<C>(bag: multiset<C>, bag': multiset<C>, hands: multiset<C>, hands': multiset<C>, x: multiset<C>,
                    y: multiset<C>, removed: multiset<C>, dropped: multiset<C>, lost: multiset<C>, all: multiset<C>)
    requires bag' + x == bag + y && hands' + y == hands && bag + hands + removed + dropped + lost == all
    ensures bag' + hands' + removed + dropped + (lost + x) == all
  {
    assert bag' + hands' + removed + dropped + (lost + x) == (bag' + x) + hands' + removed + dropped + lost;
    assert (bag + y) + hands' + removed + dropped + lost == bag + (hands' + y) + removed + dropped + lost;
  }

  lemma TakeSum<C>(bag: multiset<C>, bag': multiset<C>, hands: multiset<C>, x: multiset<C>, y: multiset<C>,
                   removed: multiset<C>, dropped: multiset<C>, lost: multiset<C>,
                   begun: multiset<C>, spare: multiset<C>,
                   right: bool)
    requires bag' + x == bag && (right ==> x == y)
    requires bag + hands + removed + dropped + lost == begun + spare
    ensures bag' + hands + (removed + y) + dropped + (if right then lost else lost + x)
         == begun + if right then spare else spare + y
  {
    if right {
      assert bag' + hands + (removed + y) + dropped + lost == (bag' + y) + hands + removed + dropped + lost;
    } else {
      assert bag' + hands + (removed + y) + dropped + (lost + x) == ((bag' + x) + hands + removed + dropped + lost) + y;
      assert begun + (spare + y) == (begun + spare) + y;
    }
  }

  lemma KickKeeps(p: Params, s: State, s': State, t: nat)
    requires InOrder(p, s) && t < |s.threads| && Kick(p, s, s', t)
    ensures InOrder(p, s')
  {
    var i: nat :| i < SLOTS && s' == Kicked(p, s, t, i);
    assert LocksOk(s') by { SameLocks(s, s', t); }
    KickKeepsPcs(p, s, t, i);
  }

  lemma KickBooks(p: Params, s: State, s': State, t: nat)
    requires Usual(p) && Inv(p, s) && t < |s.threads| && Kick(p, s, s', t)
    ensures Balanced(p, s')
  {
    var i: nat :| i < SLOTS && s' == Kicked(p, s, t, i);
    assert PcOk(p, s, s.threads[t]);
    KickHands(p, s, t, i);
    KickKeepsBooks(p, s, t, i);
  }

  lemma KickHands(p: Params, s: State, t: nat, i: nat)
    requires WellShaped(p, s) && t < |s.threads| && i < SLOTS
    requires s.threads[t].Swap? && s.threads[t].task.InsertTask? && s.threads[t].b < p.size
    ensures var s' := Kicked(p, s, t, i);
            Hands(p, s'.threads) + HandOf(p, s.threads[t]) == Hands(p, s.threads) + HandOf(p, s'.threads[t])
  {
    HandsUpdate(p, s.threads, Kicked(p, s, t, i).threads, t);
  }

  lemma KickKeepsPcs(p: Params, s: State, t: nat, i: nat)
    requires WellShaped(p, s) && PcsOk(p, s) && t < |s.threads| && i < SLOTS
    requires s.threads[t].Swap? && s.threads[t].task.InsertTask? && s.threads[t].b < p.size
    ensures WellShaped(p, Kicked(p, s, t, i)) && PcsOk(p, Kicked(p, s, t, i))
  {
    var s' := Kicked(p, s, t, i);
    assert PcOk(p, s, s.threads[t]);
    forall u | 0 <= u < |s'.threads| ensures PcOk(p, s', s'.threads[u]) {
      if u != t {
        assert PcOk(p, s, s.threads[u]) && s'.threads[u] == Race(s.threads[u], s.threads[t].b, i);
      }
    }
  }

  lemma KickKeepsBooks(p: Params, s: State, t: nat, i: nat)
    requires Usual(p) && WellShaped(p, s) && t < |s.threads| && i < SLOTS && PcOk(p, s, s.threads[t])
    requires s.threads[t].Swap? && s.threads[t].task.InsertTask? && s.threads[t].b < p.size
    requires Balanced(p, s)
    requires var s' := Kicked(p, s, t, i);
             Hands(p, s'.threads) + HandOf(p, s.threads[t]) == Hands(p, s.threads) + HandOf(p, s'.threads[t])
    ensures Balanced(p, Kicked(p, s, t, i))
  {
    var s' := Kicked(p, s, t, i);
    var pc := s.threads[t];
    var victim := s.table[pc.b][i];
    var bag, bag', hands, hands' := Bag(p, s.table), Bag(p, s'.table), Hands(p, s.threads), Hands(p, s'.threads);
    var x, y := OneClass(p, pc.b, victim), OneClass(p, pc.b, pc.task.hand);
    assert bag' + x == bag + y by { BagPut(p, s.table, pc.b, i, pc.task.hand); }
    assert HandOf(p, s'.threads[t]) == x by { ClassEitherBucket(p, pc.b, victim); }
    assert hands' + y == hands + x;
    assert (bag' + hands') + (x + y) == (bag' + x) + (hands' + y);
    assert (bag + hands) + (x + y) == (bag + y) + (hands + x);
    Cancel(bag' + hands', bag + hands, x + y);
  }

  lemma StepInOrder(p: Params, s: State, s': State, t: nat)
    requires InOrder(p, s) && Proceeds(p, s, s', t)
    ensures InOrder(p, s')
  {
    if Acquire(p, s, s', t) {
      AcquireKeeps(p, s, s', t);
    } else if LookAt(p, s, s', t) {
      LookKeeps(p, s, s', t);
    } else if WriteSlot(p, s, s', t) {
      WriteKeeps(p, s, s', t);
    } else if LeaveBucket(p, s, s', t) {
      LeaveKeeps(p, s, s', t);
    } else {
      KickKeeps(p, s, s', t);
    }
  }

  lemma StepBalanced(p: Params, s: State, s': State, t: nat)
    requires Usual(p) && Inv(p, s) && Proceeds(p, s, s', t)
    ensures Balanced(p, s')
  {
    assert PcOk(p, s, s.threads[t]);
    if Acquire(p, s, s', t) || LookAt(p, s, s', t) {
      BooksSame(p, s, s', t);
    } else if WriteSlot(p, s, s', t) {
      WriteBooks(p, s, s', t);
    } else if LeaveBucket(p, s, s', t) {
      LeaveBooks(p, s, s', t);
    } else {
      KickBooks(p, s, s', t);
    }
  }

  lemma NextInOrder(p: Params, s: State, s': State)
    requires InOrder(p, s) && Next(p, s, s')
    ensures InOrder(p, s')
  {
    var t: nat :| Proceeds(p, s, s', t) || (WellShaped(p, s) && t < |s.threads| && Begin(p, s, s', t));
    if Proceeds(p, s, s', t) {
      StepInOrder(p, s, s', t);
    } else {
      BeginKeeps(p, s, s', t);
    }
  }

  lemma NextKeeps(p: Params, s: State, s': State)
    requires Usual(p) && Inv(p, s) && Next(p, s, s')
    ensures Inv(p, s')
  {
    NextInOrder(p, s, s');
    var t: nat :| Proceeds(p, s, s', t) || (WellShaped(p, s) && t < |s.threads| && Begin(p, s, s', t));
    if Proceeds(p, s, s', t) {
      StepBalanced(p, s, s', t);
    } else {
      var key: string :| BeginsWith(p, s, s', t, key);
      BeginBooks(p, s, s', t, key);
    }
  }

  /** Locks and places are in order in every run, for every size and any fingerprints. */
  lemma {:induction false} RunInOrder(p: Params, run: seq<State>, i: nat)
    requires IsRun(p, run) && i < |run|
    ensures InOrder(p, run[i])
    decreases i
  {
    if i == 0 {
      InitInOrder(p, run[0]);
    } else {
      RunInOrder(p, run, i - 1);
      assert Next(p, run[i - 1], run[i - 1 + 1]);
      NextInOrder(p, run[i - 1], run[i]);
    }
  }

  lemma {:induction false} RunInv(p: Params, run: seq<State>, i: nat)
    requires Usual(p) && IsRun(p, run) && i < |run|
    ensures Inv(p, run[i])
    decreases i
  {
    if i == 0 {
      InitInOrder(p, run[0]);
      InitBalanced(p, run[0]);
    } else {
      RunInv(p, run, i - 1);
      assert Next(p, run[i - 1], run[i - 1 + 1]);
      NextKeeps(p, run[i - 1], run[i]);
    }
  }
}
