/**
  The fine-grained filter as a transition system. A step is one lock operation,
  one look at a slot, one write of a slot, or one unlocked swap of a slot; each
  is atomic, and steps are sequentially consistent.
 */
module FineModel {
  import opened HashIndex
  import opened Words
  import opened TableBag
  import opened ClassBag

  const MUTEXES: nat := 8

  /** The mutex of a bucket. */
  function Mutex(b: nat): (m: nat)
    ensures m < MUTEXES
  {
    b % MUTEXES
  }

  /** Two buckets have one mutex exactly if their numbers differ by a multiple of eight. */
  lemma SharedMutexIff(b: nat, c: nat)
    requires b <= c
    ensures Mutex(b) == Mutex(c) <==> exists k: nat :: c == b + 8 * k
  {
    if Mutex(b) == Mutex(c) {
      assert c == b + 8 * (c / 8 - b / 8);
      assert c / 8 >= b / 8;
    }
    if k: nat :| c == b + 8 * k {
      assert c / 8 == b / 8 + k && c % 8 == b % 8;
    }
  }

  /** Who holds a shared mutex. */
  datatype Lock = Lock(writers: set<nat>, readers: set<nat>)

  const FREE := Lock({}, {})

  /**
    What a thread is doing. `round` counts the buckets scanned: 0 and 1 are
    the key's own, and 2 + n is the one after the n-th kick.
   */
  datatype Task =
    | InsertTask(hand: string, h1: nat, h2: nat, round: nat)
    | FindTask(fingerprint: string, h1: nat, h2: nat, round: nat)
    | RemoveTask(fingerprint: string, h1: nat, h2: nat, round: nat)

  /**
    Where it is: waiting for a bucket's mutex; holding it, about to look at
    slot i (after the last one: about to let go); holding it, having seen
    that slot i is the one to write; or about to kick, without a lock.
    `raced` is history: another thread's swap hit the slot meanwhile.
   */
  datatype Pc =
    | Idle(answer: bool)
    | Want(task: Task, b: nat)
    | Look(task: Task, b: nat, i: nat)
    | Write(task: Task, b: nat, i: nat, raced: bool)
    | Swap(task: Task, b: nat)

  /**
    The program's state, and the books: classes of inserts begun, of removes
    that succeeded, and of what failed inserts dropped. `lost` and `spare` are
    what racing writes took wrongly: a write that hits a swapped slot loses
    what it overwrites, and a remove that does leaves what it meant to take.
   */
  datatype State = State(
    table: Table,
    locks: seq<Lock>,
    threads: seq<Pc>,
    begun: multiset<Class>,
    removed: multiset<Class>,
    dropped: multiset<Class>,
    lost: multiset<Class>,
    spare: multiset<Class>)

  predicate WellShaped(p: Params, s: State) {
    p.Valid() && Shaped(p, s.table) && |s.locks| == MUTEXES
  }

  predicate Init(p: Params, s: State) {
    && WellShaped(p, s)
    && (forall b, i | 0 <= b < |s.table| && 0 <= i < SLOTS :: s.table[b][i] == "")
    && (forall m | 0 <= m < MUTEXES :: s.locks[m] == FREE)
    && (forall t | 0 <= t < |s.threads| :: s.threads[t].Idle?)
    && s.begun == s.removed == s.dropped == s.lost == s.spare == multiset{}
  }

  function At(s: State, t: nat, pc: Pc): State
    requires t < |s.threads|
  {
    s.(threads := s.threads[t := pc])
  }

  function Locked(s: State, m: nat, lock: Lock): State
    requires m < |s.locks|
  {
    s.(locks := s.locks[m := lock])
  }

  /** Thread t lets go of the mutex of bucket b. */
  function Released(s: State, t: nat, b: nat): State
    requires |s.locks| == MUTEXES
  {
    var l := s.locks[Mutex(b)];
    Locked(s, Mutex(b), Lock(l.writers - {t}, l.readers - {t}))
  }

  // ----- steps -----

  /** A call about this key starts. */
  ghost predicate BeginsWith(p: Params, s: State, s': State, t: nat, key: string)
    requires WellShaped(p, s) && t < |s.threads|
  {
    var f, h1, h2 := p.md5(key), p.Bucket1(key), p.Bucket2(key);
    || s' == At(s, t, Want(InsertTask(f, h1, h2, 0), h1)).(begun := s.begun + multiset{KeyClass(p, key)})
    || s' == At(s, t, Want(FindTask(f, h1, h2, 0), h1))
    || s' == At(s, t, Want(RemoveTask(f, h1, h2, 0), h1))
  }

  ghost predicate Begin(p: Params, s: State, s': State, t: nat)
    requires WellShaped(p, s) && t < |s.threads|
  {
    s.threads[t].Idle? && exists key: string :: BeginsWith(p, s, s', t, key)
  }

  ghost predicate Acquire(p: Params, s: State, s': State, t: nat)
    requires WellShaped(p, s) && t < |s.threads|
  {
    var pc := s.threads[t];
    && pc.Want?
    && var m := Mutex(pc.b);
       var l := s.locks[m];
       && l.writers == {}
       && (pc.task.FindTask? || l.readers == {})
       && s' == At(Locked(s, m, if pc.task.FindTask? then l.(readers := l.readers + {t}) else l.(writers := {t})),
                   t, Look(pc.task, pc.b, 0))
  }

  /** Look at the next slot of the bucket. */
  ghost predicate LookAt(p: Params, s: State, s': State, t: nat)
    requires WellShaped(p, s) && t < |s.threads|
  {
    var pc := s.threads[t];
    && pc.Look? && pc.i < SLOTS && pc.b < p.size
    && var item := s.table[pc.b][pc.i];
       match pc.task
       case InsertTask(_, _, _, _) =>
         s' == At(s, t, if item == "" then Write(pc.task, pc.b, pc.i, false) else Look(pc.task, pc.b, pc.i + 1))
       case FindTask(f, _, _, _) =>
         if item == f then s' == At(Released(s, t, pc.b), t, Idle(true))
         else s' == At(s, t, Look(pc.task, pc.b, pc.i + 1))
       case RemoveTask(f, _, _, _) =>
         s' == At(s, t, if item != "" && item == f then Write(pc.task, pc.b, pc.i, false)
                        else Look(pc.task, pc.b, pc.i + 1))
  }

  /** Write the slot seen to be the right one, let go, and answer true. */
  ghost predicate WriteSlot(p: Params, s: State, s': State, t: nat)
    requires WellShaped(p, s) && t < |s.threads|
  {
    var pc := s.threads[t];
    && pc.Write? && pc.i < SLOTS && pc.b < p.size
    && var item := s.table[pc.b][pc.i];
       var done := At(Released(s, t, pc.b), t, Idle(true));
       match pc.task
       case InsertTask(hand, _, _, _) =>
         s' == done.(table := Put(s.table, pc.b, pc.i, hand), lost := s.lost + OneClass(p, pc.b, item))
       case RemoveTask(f, _, _, _) =>
         s' == done.(table := Put(s.table, pc.b, pc.i, ""),
                     removed := s.removed + OneClass(p, pc.b, f),
                     lost := if item == f then s.lost else s.lost + OneClass(p, pc.b, item),
                     spare := if item == f then s.spare else s.spare + OneClass(p, pc.b, f))
       case FindTask(_, _, _, _) => false
  }

  /** All slots seen: let go, and go on to the next bucket, to a kick, or home. */
  ghost predicate LeaveBucket(p: Params, s: State, s': State, t: nat)
    requires WellShaped(p, s) && t < |s.threads|
  {
    var pc := s.threads[t];
    && pc.Look? && pc.i >= SLOTS
    && var left := Released(s, t, pc.b);
       match pc.task
       case InsertTask(hand, h1, h2, round) =>
         if round == 0 then s' == At(left, t, Want(InsertTask(hand, h1, h2, 1), h2))
         else if round == 1 then
           || s' == At(left, t, Swap(InsertTask(hand, h1, h2, 2), h1))
           || s' == At(left, t, Swap(InsertTask(hand, h1, h2, 2), h2))
         else if round < 1 + MAX_KICKS then s' == At(left, t, Swap(InsertTask(hand, h1, h2, round + 1), pc.b))
         else s' == At(left, t, Idle(false)).(dropped := s.dropped + OneClass(p, pc.b, hand))
       case FindTask(f, h1, h2, round) =>
         s' == At(left, t, if round == 0 then Want(FindTask(f, h1, h2, 1), h2) else Idle(false))
       case RemoveTask(f, h1, h2, round) =>
         s' == At(left, t, if round == 0 then Want(RemoveTask(f, h1, h2, 1), h2) else Idle(false))
  }

  /** Any thread that has just seen the slot is about to be wrong about it. */
  function Race(pc: Pc, b: nat, i: nat): Pc {
    if pc.Write? && pc.b == b && pc.i == i then pc.(raced := true) else pc
  }

  /** Swap what is in hand with some slot of the bucket, without a lock. */
  ghost predicate Kick(p: Params, s: State, s': State, t: nat)
    requires WellShaped(p, s) && t < |s.threads|
  {
    var pc := s.threads[t];
    && pc.Swap? && pc.task.InsertTask? && pc.b < p.size
    && exists i: nat :: i < SLOTS && s' == Kicked(p, s, t, i)
  }

  function Kicked(p: Params, s: State, t: nat, i: nat): State
    requires WellShaped(p, s) && t < |s.threads| && i < SLOTS
    requires s.threads[t].Swap? && s.threads[t].task.InsertTask? && s.threads[t].b < p.size
  {
    var pc := s.threads[t];
    var victim := s.table[pc.b][i];
    s.(table := Put(s.table, pc.b, i, pc.task.hand),
       threads := seq(|s.threads|, u requires 0 <= u < |s.threads| =>
         if u == t then Want(InsertTask(victim, pc.task.h1, pc.task.h2, pc.task.round), p.NextIndex(pc.b, victim))
         else Race(s.threads[u], pc.b, i)))
  }

  /** A step of an operation under way. */
  ghost predicate Proceeds(p: Params, s: State, s': State, t: nat) {
    && WellShaped(p, s) && t < |s.threads|
    && (|| Acquire(p, s, s', t)
        || LookAt(p, s, s', t)
        || WriteSlot(p, s, s', t)
        || LeaveBucket(p, s, s', t)
        || Kick(p, s, s', t))
  }

  ghost predicate Next(p: Params, s: State, s': State) {
    exists t: nat :: Proceeds(p, s, s', t) || (WellShaped(p, s) && t < |s.threads| && Begin(p, s, s', t))
  }

  ghost predicate IsRun(p: Params, run: seq<State>) {
    && |run| > 0
    && Init(p, run[0])
    && forall i | 0 <= i < |run| - 1 :: Next(p, run[i], run[i + 1])
  }
}
