/** What the answers of the lock-free filter's calls mean, in every run and for every size. */
module LockFreeAnswers {
  import opened Words
  import opened LockFreeModel
  import opened LockFreeInvariant
  import opened LockFreeTheorems
  import opened LockFreeCounters
  import opened LockFreeFind
  import opened Chains

  // ----- a thread's own steps -----

  /** A step after which t's operation is where it was, or that was t's own. */
  ghost predicate OwnStepped(w: World, s: State, s': State, t: nat) {
    t in s'.threads ==>
      && w.params.Valid() && HasTable(w, s) && t in s.threads
      && (s'.threads[t].op != s.threads[t].op ==> OpStep(w, s, s', t))
  }

  /** What a run is for the operations of thread t. */
  ghost predicate Follows(w: World, run: seq<State>, t: nat) {
    && |run| > 0 && (t in run[0].threads ==> run[0].threads[t].op.Idle?)
    && forall m | 0 <= m < |run| - 1 :: OwnStepped(w, run[m], run[m + 1], t)
  }

  lemma RunFollows(w: World, run: seq<State>, t: nat)
    requires IsRun(w, run)
    ensures Follows(w, run, t)
  {
    forall m | 0 <= m < |run| - 1
      ensures OwnStepped(w, run[m], run[m + 1], t)
    {
      assert Next(w, run[m], run[m + 1]);
      var u :| Step(w, run[m], run[m + 1], u);
      if t in run[m + 1].threads {
        OwnStep(w, run[m], run[m + 1], u, t);
      }
    }
  }

  // ----- an insert's scan of its eight slots -----

  /** Where a point of the scan comes from, if it has seen no empty slot: the slot before was full, or it begins. */
  lemma ScanFrom(w: World, s: State, s': State, t: nat, e: nat, h1: nat, h2: nat, k: nat)
    requires w.params.Valid() && HasTable(w, s) && t in s.threads && t in s'.threads && OpStep(w, s, s', t)
    requires s'.threads[t].op == InsertRead(e, h1, h2, k, false) && s.threads[t].op != s'.threads[t].op && k > 0
    ensures k <= 8 && s.threads[t].op == InsertRead(e, h1, h2, k - 1, false)
    ensures w.Valid(ScanCell(h1, h2, k - 1)) && At(s, ScanCell(h1, h2, k - 1)).ptr != NULL
  {
    if FindStep(w, s, s', t) {
      FindNoScan(w, s, s', t);
    } else if RelocateStep(w, s, s', t) {
      RelocateNoScan(w, s, s', t);
    }
  }

  lemma FindNoScan(w: World, s: State, s': State, t: nat)
    requires w.params.Valid() && HasTable(w, s) && t in s.threads && t in s'.threads && FindStep(w, s, s', t)
    ensures !Inserting(s'.threads[t].op)
  {
    if FindFirst(w, s, s', t) || FindSecond(w, s, s', t) {
      FindReadsNoScan(w, s, s', t);
    }
  }

  lemma FindReadsNoScan(w: World, s: State, s': State, t: nat)
    requires HasTable(w, s) && t in s.threads && t in s'.threads && (FindFirst(w, s, s', t) || FindSecond(w, s, s', t))
    ensures !Inserting(s'.threads[t].op)
  {
  }

  lemma RelocateNoScan(w: World, s: State, s': State, t: nat)
    requires HasTable(w, s) && t in s.threads && t in s'.threads && RelocateStep(w, s, s', t)
    ensures s'.threads[t].op.InsertRead? ==> s'.threads[t].op.k == 0
    ensures !s'.threads[t].op.InsertCas?
  {
    if PathLook(w, s, s', t) {
      PathNoScan(w, s, s', t);
    }
  }

  lemma PathNoScan(w: World, s: State, s': State, t: nat)
    requires HasTable(w, s) && t in s.threads && t in s'.threads && PathLook(w, s, s', t)
    ensures s'.threads[t].op.InsertRead? ==> s'.threads[t].op.k == 0
    ensures !s'.threads[t].op.InsertCas?
  {
  }

  /** At step m the scan reads its n-th slot, which is full, and goes on. */
  ghost predicate ReadsFullAt(w: World, run: seq<State>, m: nat, t: nat, e: nat, h1: nat, h2: nat, n: nat) {
    && m + 1 < |run| && t in run[m].threads
    && run[m].threads[t].op == InsertRead(e, h1, h2, n, false)
    && w.Valid(ScanCell(h1, h2, n)) && At(run[m], ScanCell(h1, h2, n)).ptr != NULL
  }

  /** Thread t is at `op` in all states from i to j. */
  predicate Stays(run: seq<State>, i: nat, j: nat, t: nat, op: Op) {
    i <= j < |run| && forall m | i <= m <= j :: t in run[m].threads && run[m].threads[t].op == op
  }

  /** Step m reads the n-th slot of a scan, full, and nothing else is done until step j. */
  ghost predicate ScanAt(w: World, run: seq<State>, n: nat, m: nat, j: nat, t: nat, e: nat, h1: nat, h2: nat) {
    ReadsFullAt(w, run, m, t, e, h1, h2, n) && Stays(run, m + 1, j, t, InsertRead(e, h1, h2, n + 1, false))
  }

  ghost function ScanLink(w: World, run: seq<State>, t: nat, e: nat, h1: nat, h2: nat): (nat, nat, nat) -> bool {
    (n: nat, m: nat, j: nat) => ScanAt(w, run, n, m, j, t, e, h1, h2)
  }

  /** One round of the scan has, by state j, read its first |looks| slots one after the other, all full. */
  ghost predicate Scanned(w: World, run: seq<State>, looks: seq<nat>, j: nat, t: nat, e: nat, h1: nat, h2: nat) {
    Linked(ScanLink(w, run, t, e, h1, h2), looks, j)
  }

  lemma StaysOn(run: seq<State>, i: nat, j: nat, t: nat, op: Op)
    requires Stays(run, i, j, t, op) && j + 1 < |run| && t in run[j + 1].threads && run[j + 1].threads[t].op == op
    ensures Stays(run, i, j + 1, t, op)
  {
  }

  lemma ScanStays(w: World, run: seq<State>, looks: seq<nat>, j: nat, t: nat, e: nat, h1: nat, h2: nat)
    requires Scanned(w, run, looks, j, t, e, h1, h2) && j + 1 < |run| && t in run[j + 1].threads
    requires run[j + 1].threads[t].op == InsertRead(e, h1, h2, |looks|, false)
    ensures Scanned(w, run, looks, j + 1, t, e, h1, h2)
  {
    if |looks| > 0 && ScanAt(w, run, |looks| - 1, looks[|looks| - 1], j, t, e, h1, h2) {
      StaysOn(run, looks[|looks| - 1] + 1, j, t, InsertRead(e, h1, h2, |looks|, false));
    }
    LinkedLater(ScanLink(w, run, t, e, h1, h2), looks, j, j + 1);
  }

  lemma ScanExtends(w: World, run: seq<State>, looks: seq<nat>, m: nat, t: nat, e: nat, h1: nat, h2: nat)
    requires Scanned(w, run, looks, m, t, e, h1, h2) && m + 1 < |run| && t in run[m + 1].threads
    requires ReadsFullAt(w, run, m, t, e, h1, h2, |looks|)
    requires run[m + 1].threads[t].op == InsertRead(e, h1, h2, |looks| + 1, false)
    ensures Scanned(w, run, looks + [m], m + 1, t, e, h1, h2)
  {
    LinkedMore(ScanLink(w, run, t, e, h1, h2), looks, m, m + 1);
  }

  lemma ScanFromAt(w: World, run: seq<State>, m: nat, t: nat, e: nat, h1: nat, h2: nat, k: nat)
    requires Follows(w, run, t) && m + 1 < |run| && t in run[m + 1].threads
    requires run[m + 1].threads[t].op == InsertRead(e, h1, h2, k, false)
    ensures t in run[m].threads
    ensures k > 0 && run[m].threads[t].op != run[m + 1].threads[t].op ==>
              k <= 8 && ReadsFullAt(w, run, m, t, e, h1, h2, k - 1)
  {
    assert OwnStepped(w, run[m], run[m + 1], t);
    if k > 0 && run[m].threads[t].op != run[m + 1].threads[t].op {
      ScanFrom(w, run[m], run[m + 1], t, e, h1, h2, k);
    }
  }

  lemma {:induction false} ScanWasFull(w: World, run: seq<State>, j: nat, t: nat, e: nat, h1: nat, h2: nat, k: nat)
    returns (looks: seq<nat>)
    requires Follows(w, run, t) && j < |run| && t in run[j].threads
    requires run[j].threads[t].op == InsertRead(e, h1, h2, k, false)
    ensures |looks| == k <= 8 && Scanned(w, run, looks, j, t, e, h1, h2)
    decreases j
  {
    looks := [];
    if j > 0 && k > 0 {
      var m := j - 1;
      ScanFromAt(w, run, m, t, e, h1, h2, k);
      if run[m].threads[t].op == run[j].threads[t].op {
        looks := ScanWasFull(w, run, m, t, e, h1, h2, k);
        ScanStays(w, run, looks, m, t, e, h1, h2);
      } else {
        looks := ScanWasFull(w, run, m, t, e, h1, h2, k - 1);
        ScanExtends(w, run, looks, m, t, e, h1, h2);
        looks := looks + [m];
      }
    }
  }

  // ----- the lanes it then tries -----

  /** An insert of this entry that found its slots full, and tries the lanes in this order. */
  datatype Try = Try(entry: nat, h1: nat, h2: nat, order: seq<nat>)

  predicate Relocating(op: Op) {
    op.Discover? || op.Back? || op.BackDest?
  }

  function TryOf(op: Op): Try
    requires Relocating(op)
  {
    Try(op.entry, op.h1, op.h2, op.walk.order)
  }

  /** Thread t is in lane order[l] of this try. */
  predicate InTry(s: State, t: nat, y: Try, l: nat) {
    t in s.threads && Relocating(s.threads[t].op) && TryOf(s.threads[t].op) == y && s.threads[t].op.walk.turn == l
  }

  /** Path discovery is at depth d, in bucket b. */
  predicate AtDepth(s: State, t: nat, y: Try, l: nat, d: nat, b: nat) {
    InTry(s, t, y, l) && s.threads[t].op.Discover? && s.threads[t].op.depth == d && s.threads[t].op.walk.bucket == b
  }

  /** It looks at an unmarked entry there. */
  predicate LooksFull(s: State, t: nat, y: Try, l: nat, d: nat, b: nat) {
    && AtDepth(s, t, y, l, d, b) && IsOrder(y.order) && l < 4
    && At(s, Cell(b, y.order[l])).ptr != NULL && !At(s, Cell(b, y.order[l])).mark
  }

  /** The bucket that entry moves to. */
  function Leads(w: World, s: State, y: Try, l: nat, b: nat): nat
    requires l < |y.order|
  {
    w.other(Cell(b, y.order[l]), At(s, Cell(b, y.order[l])).ptr).bucket
  }

  /** The loop back over a path finds the destination taken, and path discovery starts over at depth d. */
  predicate StartsOver(s: State, t: nat, y: Try, l: nat, d: nat, b: nat) {
    InTry(s, t, y, l) && s.threads[t].op.BackDest? && s.threads[t].op.i + 1 == d && s.threads[t].op.walk.bucket == b
  }

  /** What the path noted at depth d. */
  predicate Noted(s: State, t: nat, d: nat, b: nat)
    requires t in s.threads && Relocating(s.threads[t].op)
  {
    d < |s.threads[t].op.walk.route| && s.threads[t].op.walk.route[d] == b
  }

  /** Path discovery looks at an empty slot. */
  predicate LooksEmpty(s: State, t: nat, y: Try, l: nat) {
    && InTry(s, t, y, l) && s.threads[t].op.Discover? && l < |y.order|
    && At(s, Cell(s.threads[t].op.walk.bucket, y.order[l])).ptr == NULL
  }

  /** How a try goes on, or a new one begins. */
  ghost predicate TryFrom(w: World, s: State, s': State, t: nat, y: Try, l: nat)
    requires t in s.threads && InTry(s', t, y, l)
  {
    var op, op' := s.threads[t].op, s'.threads[t].op;
    || (op == InsertRead(y.entry, y.h1, y.h2, 8, false) && IsOrder(y.order) && l == 0 && AtDepth(s', t, y, 0, 0, y.h1))
    || (&& l > 0 && AtDepth(s', t, y, l, 0, y.h1)
        && op.Discover? && LooksFull(s, t, y, l - 1, 9, op.walk.bucket))
    || (&& op'.Discover? && op.Discover? && op'.depth == op.depth + 1 <= 9
        && LooksFull(s, t, y, l, op.depth, op.walk.bucket)
        && op'.walk.bucket == Leads(w, s, y, l, op.walk.bucket) && Noted(s', t, op.depth, op.walk.bucket))
    || (&& op'.Discover? && op'.depth > 0 && StartsOver(s, t, y, l, op'.depth, op'.walk.bucket)
        && (op'.depth <= 10 ==> Noted(s', t, op'.depth - 1, 0)))
    || (&& op'.Back? && op.Discover? && InTry(s, t, y, l) && op'.walk == op.walk
        && op'.top + 1 == op.depth && op'.i == op'.top && LooksEmpty(s, t, y, l))
    || (&& !op'.Discover? && !op.Discover? && InTry(s, t, y, l) && op'.walk == op.walk && op'.top == op.top
        && (if op.Back? && (op'.BackDest? || op'.again) then op'.i == op.i else op'.Back? && op'.i + 1 == op.i))
  }

  lemma PathTryFrom(w: World, s: State, s': State, t: nat, y: Try, l: nat)
    requires HasTable(w, s) && t in s.threads && InTry(s', t, y, l) && s.threads[t].op != s'.threads[t].op
    requires PathLook(w, s, s', t)
    ensures TryFrom(w, s, s', t, y, l)
  {
  }

  lemma BackTryFrom(w: World, s: State, s': State, t: nat, y: Try, l: nat)
    requires HasTable(w, s) && t in s.threads && InTry(s', t, y, l) && s.threads[t].op != s'.threads[t].op
    requires SourceLook(w, s, s', t) || DestLook(w, s, s', t)
    ensures TryFrom(w, s, s', t, y, l)
  {
  }

  lemma ScanTryFrom(w: World, s: State, s': State, t: nat, y: Try, l: nat)
    requires w.params.Valid() && HasTable(w, s) && t in s.threads && InTry(s', t, y, l)
    requires s.threads[t].op != s'.threads[t].op && InsertStep(w, s, s', t)
    requires s.threads[t].op.InsertRead? && !s.threads[t].op.foundEmpty ==> s.threads[t].op.k <= 8
    ensures TryFrom(w, s, s', t, y, l)
  {
  }

  lemma StepTryFrom(w: World, s: State, s': State, t: nat, y: Try, l: nat)
    requires w.params.Valid() && HasTable(w, s) && t in s.threads && InTry(s', t, y, l)
    requires s.threads[t].op != s'.threads[t].op && OpStep(w, s, s', t)
    requires s.threads[t].op.InsertRead? && !s.threads[t].op.foundEmpty ==> s.threads[t].op.k <= 8
    ensures TryFrom(w, s, s', t, y, l)
  {
    if PathLook(w, s, s', t) {
      PathTryFrom(w, s, s', t, y, l);
    } else if SourceLook(w, s, s', t) || DestLook(w, s, s', t) {
      BackTryFrom(w, s, s', t, y, l);
    } else if InsertStep(w, s, s', t) {
      ScanTryFrom(w, s, s', t, y, l);
    } else if FindStep(w, s, s', t) {
      FindNoScan(w, s, s', t);
    }
  }

  lemma TryFromAt(w: World, run: seq<State>, m: nat, t: nat, y: Try, l: nat)
    requires Follows(w, run, t) && m + 1 < |run| && InTry(run[m + 1], t, y, l)
    ensures t in run[m].threads
    ensures run[m].threads[t].op == run[m + 1].threads[t].op || TryFrom(w, run[m], run[m + 1], t, y, l)
  {
    assert OwnStepped(w, run[m], run[m + 1], t);
    var op := run[m].threads[t].op;
    if op != run[m + 1].threads[t].op {
      if op.InsertRead? && !op.foundEmpty {
        var looks := ScanWasFull(w, run, m, t, op.entry, op.h1, op.h2, op.k);
      }
      StepTryFrom(w, run[m], run[m + 1], t, y, l);
    }
  }

  /** Thread t's operation does not change from state i to j. */
  predicate Waits(run: seq<State>, i: nat, j: nat, t: nat) {
    i <= j < |run| && t in run[j].threads && Stays(run, i, j, t, run[j].threads[t].op)
  }

  /** Path discovery started over at depth d, by step m. */
  ghost predicate StartedOver(run: seq<State>, m: nat, j: nat, t: nat, y: Try, l: nat, d: nat, b: nat) {
    m < j < |run| && StartsOver(run[m], t, y, l, d, b) && Waits(run, m + 1, j, t)
  }

  /** Path discovery at state j: it began at depth 0 in the first bucket, or where it started over. */
  ghost predicate PathStarts(run: seq<State>, j: nat, t: nat, y: Try, l: nat, d: nat, b: nat) {
    if d == 0 then b == y.h1 else exists m: nat :: StartedOver(run, m, j, t, y, l, d, b)
  }

  /** The bucket path discovery is in. */
  function BucketAt(run: seq<State>, j: nat, t: nat): nat {
    if j < |run| && t in run[j].threads && run[j].threads[t].op.Discover? then run[j].threads[t].op.walk.bucket else 0
  }

  /** The look at depth d is at a full slot, and leads to the bucket of the next, with nothing done in between. */
  ghost predicate LookAt(w: World, run: seq<State>, m: nat, j: nat, t: nat, y: Try, l: nat, d: nat) {
    && m < j < |run| && LooksFull(run[m], t, y, l, d, BucketAt(run, m, t))
    && Leads(w, run[m], y, l, BucketAt(run, m, t)) == BucketAt(run, j, t)
    && Waits(run, m + 1, j, t)
  }

  ghost function PathLink(w: World, run: seq<State>, base: nat, t: nat, y: Try, l: nat): (nat, nat, nat) -> bool {
    (n: nat, m: nat, j: nat) => LookAt(w, run, m, j, t, y, l, base + n)
  }

  /** The first of these steps, or j. */
  function Start(looks: seq<nat>, j: nat): nat {
    if looks == [] then j else looks[0]
  }

  /** How path discovery has come from depth `base` to state j: past these slots, each full and leading to the next. */
  ghost predicate Path(w: World, run: seq<State>, looks: seq<nat>, base: nat, j: nat, t: nat, y: Try, l: nat) {
    && PathStarts(run, Start(looks, j), t, y, l, base, BucketAt(run, Start(looks, j), t))
    && Linked(PathLink(w, run, base, t, y, l), looks, j)
  }

  lemma WaitsOn(run: seq<State>, i: nat, j: nat, t: nat)
    requires Waits(run, i, j, t) && j + 1 < |run| && t in run[j + 1].threads
    requires run[j + 1].threads[t].op == run[j].threads[t].op
    ensures Waits(run, i, j + 1, t)
  {
  }

  lemma LookStays(w: World, run: seq<State>, m: nat, j: nat, t: nat, y: Try, l: nat, d: nat)
    requires LookAt(w, run, m, j, t, y, l, d) && j + 1 < |run| && t in run[j + 1].threads
    requires run[j + 1].threads[t].op == run[j].threads[t].op
    ensures LookAt(w, run, m, j + 1, t, y, l, d)
  {
    WaitsOn(run, m + 1, j, t);
  }

  lemma StartStays(run: seq<State>, j: nat, t: nat, y: Try, l: nat, d: nat, b: nat)
    requires PathStarts(run, j, t, y, l, d, b) && j + 1 < |run| && t in run[j].threads && t in run[j + 1].threads
    requires run[j + 1].threads[t].op == run[j].threads[t].op
    ensures PathStarts(run, j + 1, t, y, l, d, b)
  {
    if d > 0 {
      var m: nat :| StartedOver(run, m, j, t, y, l, d, b);
      WaitsOn(run, m + 1, j, t);
      assert StartedOver(run, m, j + 1, t, y, l, d, b);
    }
  }

  lemma PathStays(w: World, run: seq<State>, looks: seq<nat>, base: nat, j: nat, t: nat, y: Try, l: nat)
    requires Path(w, run, looks, base, j, t, y, l) && j + 1 < |run|
    requires t in run[j].threads && t in run[j + 1].threads && run[j + 1].threads[t].op == run[j].threads[t].op
    ensures Path(w, run, looks, base, j + 1, t, y, l)
  {
    if looks == [] {
      StartStays(run, j, t, y, l, base, BucketAt(run, j, t));
    } else if LookAt(w, run, looks[|looks| - 1], j, t, y, l, base + |looks| - 1) {
      LookStays(w, run, looks[|looks| - 1], j, t, y, l, base + |looks| - 1);
    }
    LinkedLater(PathLink(w, run, base, t, y, l), looks, j, j + 1);
  }

  lemma PathExtends(w: World, run: seq<State>, looks: seq<nat>, base: nat, m: nat, t: nat, y: Try, l: nat)
    requires Path(w, run, looks, base, m, t, y, l) && LookAt(w, run, m, m + 1, t, y, l, base + |looks|)
    ensures Path(w, run, looks + [m], base, m + 1, t, y, l)
  {
    LinkedMore(PathLink(w, run, base, t, y, l), looks, m, m + 1);
  }

  /** Where path discovery's point at state m + 1 comes from. */
  lemma PathCame(w: World, run: seq<State>, m: nat, t: nat, y: Try, l: nat, d: nat, b: nat)
    requires Follows(w, run, t) && m + 1 < |run| && AtDepth(run[m + 1], t, y, l, d, b)
    requires t in run[m].threads && run[m].threads[t].op != run[m + 1].threads[t].op
    ensures || PathStarts(run, m + 1, t, y, l, d, b)
            || (d > 0 && LookAt(w, run, m, m + 1, t, y, l, d - 1))
  {
    TryFromAt(w, run, m, t, y, l);
    if d > 0 && !run[m].threads[t].op.Discover? {
      assert StartedOver(run, m, m + 1, t, y, l, d, b);
    }
  }

  lemma {:induction false} PathWas(w: World, run: seq<State>, j: nat, t: nat, y: Try, l: nat, d: nat, b: nat)
    returns (looks: seq<nat>, base: nat)
    requires Follows(w, run, t) && j < |run| && AtDepth(run[j], t, y, l, d, b)
    ensures base + |looks| == d && Path(w, run, looks, base, j, t, y, l)
    decreases j
  {
    TryNotFirst(w, run, t, y, l, j);
    var m := j - 1;
    if run[m].threads[t].op == run[j].threads[t].op {
      looks, base := PathWas(w, run, m, t, y, l, d, b);
      PathStays(w, run, looks, base, m, t, y, l);
    } else {
      PathCame(w, run, m, t, y, l, d, b);
      looks, base := [], d;
      if !PathStarts(run, j, t, y, l, d, b) {
        looks, base := PathWas(w, run, m, t, y, l, d - 1, BucketAt(run, m, t));
        PathExtends(w, run, looks, base, m, t, y, l);
        looks := looks + [m];
      }
    }
  }

  lemma TryNotFirst(w: World, run: seq<State>, t: nat, y: Try, l: nat, j: nat)
    requires Follows(w, run, t) && j < |run| && InTry(run[j], t, y, l)
    ensures j > 0 && t in run[j - 1].threads
  {
    if j > 0 {
      assert OwnStepped(w, run[j - 1], run[j - 1 + 1], t);
    }
  }

  /** Lane order[l] of this try is given up after step k: the tenth slot of its path is full too. */
  ghost predicate GivenUp(w: World, run: seq<State>, k: nat, t: nat, y: Try, l: nat) {
    && k < |run| && LooksFull(run[k], t, y, l, 9, BucketAt(run, k, t))
    && exists looks: seq<nat>, base: nat :: base + |looks| == 9 && Path(w, run, looks, base, k, t, y, l)
  }

  ghost predicate LaneGivenUp(w: World, run: seq<State>, i: nat, j: nat, t: nat, y: Try, l: nat) {
    exists k: nat :: i < k < j && GivenUp(w, run, k, t, y, l)
  }

  /** At step m thread t, done with a scan that found all eight slots full, begins this try. */
  ghost predicate TryBegins(w: World, run: seq<State>, m: nat, t: nat, y: Try) {
    && m + 1 < |run| && t in run[m].threads && run[m].threads[t].op == InsertRead(y.entry, y.h1, y.h2, 8, false)
    && (exists looks: seq<nat> :: |looks| == 8 && Scanned(w, run, looks, m, t, y.entry, y.h1, y.h2))
    && IsOrder(y.order) && InTry(run[m + 1], t, y, 0)
  }

  ghost predicate GaveUp(w: World, run: seq<State>, i: nat, j: nat, t: nat, y: Try, l: nat) {
    forall n: nat | n < l :: LaneGivenUp(w, run, i, j, t, y, n)
  }

  lemma GaveUpLater(w: World, run: seq<State>, m: nat, i: nat, j: nat, t: nat, y: Try, l: nat)
    requires GaveUp(w, run, m, i, t, y, l) && i <= j
    ensures GaveUp(w, run, m, j, t, y, l)
  {
    forall n: nat | n < l
      ensures LaneGivenUp(w, run, m, j, t, y, n)
    {
      assert LaneGivenUp(w, run, m, i, t, y, n);
      var k: nat :| m < k < i && GivenUp(w, run, k, t, y, n);
      assert k < j;
    }
  }

  lemma OneMoreLane(w: World, run: seq<State>, m: nat, i: nat, j: nat, t: nat, y: Try, l: nat)
    requires GaveUp(w, run, m, i, t, y, l) && m < i < j && GivenUp(w, run, i, t, y, l)
    ensures GaveUp(w, run, m, j, t, y, l + 1)
  {
    GaveUpLater(w, run, m, i, j, t, y, l);
    assert LaneGivenUp(w, run, m, j, t, y, l);
  }

  lemma GivesUpHere(w: World, run: seq<State>, i: nat, t: nat, y: Try, l: nat, b: nat)
    requires Follows(w, run, t) && i < |run| && LooksFull(run[i], t, y, l, 9, b)
    ensures GivenUp(w, run, i, t, y, l)
  {
    var looks, base := PathWas(w, run, i, t, y, l, 9, b);
  }

  lemma TryBeginsHere(w: World, run: seq<State>, m: nat, t: nat, y: Try)
    requires Follows(w, run, t) && m + 1 < |run| && InTry(run[m + 1], t, y, 0)
    requires t in run[m].threads && run[m].threads[t].op == InsertRead(y.entry, y.h1, y.h2, 8, false)
    requires IsOrder(y.order)
    ensures TryBegins(w, run, m, t, y)
  {
    var looks := ScanWasFull(w, run, m, t, y.entry, y.h1, y.h2, 8);
  }

  /** Where the step before a point of a try was. */
  lemma TryWas(w: World, run: seq<State>, i: nat, t: nat, y: Try, l: nat)
    requires Follows(w, run, t) && i + 1 < |run| && InTry(run[i + 1], t, y, l) && t in run[i].threads
    ensures || (l == 0 && TryBegins(w, run, i, t, y))
            || InTry(run[i], t, y, l)
            || (l > 0 && InTry(run[i], t, y, l - 1) && GivenUp(w, run, i, t, y, l - 1))
  {
    TryFromAt(w, run, i, t, y, l);
    var op := run[i].threads[t].op;
    if op != run[i + 1].threads[t].op {
      if op.InsertRead? {
        TryBeginsHere(w, run, i, t, y);
      } else if l > 0 && op.Discover? && LooksFull(run[i], t, y, l - 1, 9, op.walk.bucket) {
        GivesUpHere(w, run, i, t, y, l - 1, op.walk.bucket);
      }
    }
  }

  /** A try begun at step m has, by state j, given up the first l lanes. */
  ghost predicate Tried(w: World, run: seq<State>, m: nat, j: nat, t: nat, y: Try, l: nat) {
    m < j && TryBegins(w, run, m, t, y) && GaveUp(w, run, m, j, t, y, l)
  }

  lemma TriedLater(w: World, run: seq<State>, m: nat, i: nat, t: nat, y: Try, l: nat)
    requires Tried(w, run, m, i, t, y, l)
    ensures Tried(w, run, m, i + 1, t, y, l)
  {
    GaveUpLater(w, run, m, i, i + 1, t, y, l);
  }

  lemma TriedMore(w: World, run: seq<State>, m: nat, i: nat, t: nat, y: Try, l: nat)
    requires Tried(w, run, m, i, t, y, l) && GivenUp(w, run, i, t, y, l)
    ensures Tried(w, run, m, i + 1, t, y, l + 1)
  {
    OneMoreLane(w, run, m, i, i + 1, t, y, l);
  }

  /** A try in lane order[l] has given up the lanes before it. */
  lemma {:induction false} LanesTried(w: World, run: seq<State>, j: nat, t: nat, y: Try, l: nat) returns (m: nat)
    requires Follows(w, run, t) && j < |run| && InTry(run[j], t, y, l)
    ensures Tried(w, run, m, j, t, y, l)
    decreases j
  {
    TryNotFirst(w, run, t, y, l, j);
    var i := j - 1;
    TryWas(w, run, i, t, y, l);
    if l == 0 && TryBegins(w, run, i, t, y) {
      m := i;
    } else if InTry(run[i], t, y, l) {
      m := LanesTried(w, run, i, t, y, l);
      TriedLater(w, run, m, i, t, y, l);
    } else {
      m := LanesTried(w, run, i, t, y, l - 1);
      TriedMore(w, run, m, i, t, y, l - 1);
    }
  }

  // ----- how a relocation that succeeds ends -----

  /** It succeeds at once in an empty slot, or when the loop back over the path has made its last round. */
  lemma RetryFrom(w: World, s: State, s': State, t: nat)
    requires HasTable(w, s) && t in s.threads && t in s'.threads && RelocateStep(w, s, s', t)
    requires Relocating(s.threads[t].op) && s'.threads[t].op.InsertRead?
    ensures var op, op' := s.threads[t].op, s'.threads[t].op;
            && op' == InsertRead(op.entry, op.h1, op.h2, 0, false)
            && if op.Discover? then op.depth == 0 && LooksEmpty(s, t, TryOf(op), op.walk.turn) else op.i == 0
  {
  }

  /** The loop back makes a round for each slot of the path: it is done i rounds before the end. */
  ghost predicate RoundsLeft(run: seq<State>, m: nat, j: nat, t: nat, y: Try, l: nat, done: nat)
  {
    && m < j < |run| && LooksEmpty(run[m], t, y, l) && InTry(run[j], t, y, l) && !run[j].threads[t].op.Discover?
    && run[m].threads[t].op.depth == run[j].threads[t].op.top + 1
    && done + run[j].threads[t].op.i == run[j].threads[t].op.top
  }

  /** Since the path ended, `top - i` rounds of the loop back are done. */
  lemma {:induction false} RoundsDone(w: World, run: seq<State>, j: nat, t: nat, y: Try, l: nat)
    returns (m: nat, done: nat)
    requires Follows(w, run, t) && j < |run| && InTry(run[j], t, y, l) && !run[j].threads[t].op.Discover?
    ensures RoundsLeft(run, m, j, t, y, l, done)
    decreases j
  {
    TryNotFirst(w, run, t, y, l, j);
    var i := j - 1;
    TryFromAt(w, run, i, t, y, l);
    if run[i].threads[t].op.Discover? {
      m, done := i, 0;
    } else {
      m, done := RoundsDone(w, run, i, t, y, l);
      done := run[j].threads[t].op.top - run[j].threads[t].op.i;
    }
  }

  lemma RelocateEnds(w: World, s: State, s': State, t: nat)
    requires w.params.Valid() && HasTable(w, s) && t in s.threads && t in s'.threads && OpStep(w, s, s', t)
    requires Relocating(s.threads[t].op) && s'.threads[t].op.InsertRead?
    ensures RelocateStep(w, s, s', t)
  {
  }

  /** An insert whose relocation succeeded scans again: at once from an empty slot, or after a round per slot passed. */
  lemma RelocationEnds(w: World, run: seq<State>, j: nat, t: nat)
    requires IsRun(w, run) && j + 1 < |run| && t in run[j].threads && t in run[j + 1].threads
    requires Relocating(run[j].threads[t].op) && run[j + 1].threads[t].op.InsertRead?
    ensures var op := run[j].threads[t].op; var y, l := TryOf(op), op.walk.turn;
            && run[j + 1].threads[t].op == InsertRead(op.entry, op.h1, op.h2, 0, false)
            && if op.Discover? then op.depth == 0 && LooksEmpty(run[j], t, y, l)
               else exists m: nat :: RoundsLeft(run, m, j, t, y, l, op.top)
  {
    RunFollows(w, run, t);
    assert OwnStepped(w, run[j], run[j + 1], t);
    RelocateEnds(w, run[j], run[j + 1], t);
    RetryFrom(w, run[j], run[j + 1], t);
    var op := run[j].threads[t].op;
    if !op.Discover? {
      var m, done := RoundsDone(w, run, j, t, TryOf(op), op.walk.turn);
    }
  }

  // ----- what a relocation moves -----

  /** The bucket noted at depth d is the one looked at there, or 0 if path discovery started over after it. */
  ghost predicate NotedWas(w: World, run: seq<State>, j: nat, t: nat, y: Try, l: nat, d: nat, c: nat) {
    || (exists m: nat :: LookAt(w, run, m, j, t, y, l, d) && BucketAt(run, m, t) == c)
    || (c == 0 && PathStarts(run, j, t, y, l, d + 1, BucketAt(run, j, t)))
  }

  lemma NotedStays(w: World, run: seq<State>, j: nat, t: nat, y: Try, l: nat, d: nat, c: nat)
    requires NotedWas(w, run, j, t, y, l, d, c) && j + 1 < |run|
    requires t in run[j].threads && t in run[j + 1].threads && run[j + 1].threads[t].op == run[j].threads[t].op
    ensures NotedWas(w, run, j + 1, t, y, l, d, c)
  {
    if m: nat :| LookAt(w, run, m, j, t, y, l, d) && BucketAt(run, m, t) == c {
      LookStays(w, run, m, j, t, y, l, d);
    } else {
      StartStays(run, j, t, y, l, d + 1, BucketAt(run, j, t));
    }
  }

  lemma {:induction false} Notes(w: World, run: seq<State>, j: nat, t: nat, y: Try, l: nat, d: nat, b: nat)
    returns (c: nat)
    requires Follows(w, run, t) && j < |run| && AtDepth(run[j], t, y, l, d + 1, b) && d < 10
    ensures Noted(run[j], t, d, c) && NotedWas(w, run, j, t, y, l, d, c)
    decreases j
  {
    TryNotFirst(w, run, t, y, l, j);
    var m := j - 1;
    if run[m].threads[t].op == run[j].threads[t].op {
      c := Notes(w, run, m, t, y, l, d, b);
      NotedStays(w, run, m, t, y, l, d, c);
    } else {
      c := NotesAt(w, run, m, t, y, l, d, b);
    }
  }

  lemma NotesAt(w: World, run: seq<State>, m: nat, t: nat, y: Try, l: nat, d: nat, b: nat) returns (c: nat)
    requires Follows(w, run, t) && m + 1 < |run| && AtDepth(run[m + 1], t, y, l, d + 1, b) && d < 10
    requires t in run[m].threads && run[m].threads[t].op != run[m + 1].threads[t].op
    ensures Noted(run[m + 1], t, d, c) && NotedWas(w, run, m + 1, t, y, l, d, c)
  {
    TryFromAt(w, run, m, t, y, l);
    if run[m].threads[t].op.Discover? {
      c := BucketAt(run, m, t);
      assert LookAt(w, run, m, m + 1, t, y, l, d);
    } else {
      c := 0;
      assert StartedOver(run, m, m + 1, t, y, l, d + 1, b);
    }
  }

  /** At step m path discovery came to an empty slot at depth top + 1, and noted bucket c at the depth before. */
  ghost predicate EndedAt(w: World, run: seq<State>, m: nat, t: nat, y: Try, l: nat, top: nat, c: nat) {
    && m < |run| && LooksEmpty(run[m], t, y, l) && run[m].threads[t].op.depth == top + 1
    && NotedWas(w, run, m, t, y, l, top, c)
  }

  /**
    What a relocation looks at, and moves, is the slot path discovery passed
    last before the empty one; or, if it had just started over, that of bucket 0.
   */
  lemma {:induction false} SourceWas(w: World, run: seq<State>, j: nat, t: nat, y: Try, l: nat) returns (m: nat, c: nat)
    requires Follows(w, run, t) && j < |run| && InTry(run[j], t, y, l) && !run[j].threads[t].op.Discover?
    requires run[j].threads[t].op.top < 10
    ensures m < j && EndedAt(w, run, m, t, y, l, run[j].threads[t].op.top, c)
    ensures Noted(run[j], t, run[j].threads[t].op.top, c)
    decreases j
  {
    TryNotFirst(w, run, t, y, l, j);
    var i := j - 1;
    TryFromAt(w, run, i, t, y, l);
    var op, top := run[i].threads[t].op, run[j].threads[t].op.top;
    if op.Discover? {
      m := i;
      c := Notes(w, run, i, t, y, l, top, op.walk.bucket);
    } else {
      m, c := SourceWas(w, run, i, t, y, l);
    }
  }

  /** At step j thread t's insert begins to move what is in cell c. */
  ghost predicate CallsMove(run: seq<State>, j: nat, t: nat, c: Cell) {
    && j + 1 < |run| && t in run[j].threads && t in run[j + 1].threads
    && run[j].threads[t].op.BackDest? && run[j].threads[t].help == NoHelp
    && run[j + 1].threads[t].help == Read1(c, true)
  }

  lemma MoveCallIs(w: World, s: State, s': State, t: nat, c: Cell)
    requires w.params.Valid() && HasTable(w, s) && t in s.threads && t in s'.threads && OpStep(w, s, s', t)
    requires s.threads[t].op.BackDest? && s.threads[t].help == NoHelp && s'.threads[t].help == Read1(c, true)
    ensures DestLook(w, s, s', t) && s.threads[t].op.top < 10 && IsOrder(s.threads[t].op.walk.order)
    ensures c == SourceCell(s.threads[t].op) && At(s, w.other(c, s.threads[t].op.ptr)).ptr == NULL
  {
  }

  /** A relocation that an insert starts is of such a slot, whose entry's other slot is empty. */
  lemma MovesLast(w: World, run: seq<State>, j: nat, t: nat, c: Cell) returns (m: nat)
    requires IsRun(w, run) && CallsMove(run, j, t, c)
    ensures var op := run[j].threads[t].op; var y, l := TryOf(op), op.walk.turn;
            && m < j && l < 4 && l < |y.order| && c.slot == y.order[l]
            && EndedAt(w, run, m, t, y, l, op.top, c.bucket)
            && At(run[j], w.other(c, op.ptr)).ptr == NULL
  {
    RunFollows(w, run, t);
    HelpBegins(w, run, j, t);
    MoveCallIs(w, run[j], run[j + 1], t, c);
    var op := run[j].threads[t].op;
    var b;
    m, b := SourceWas(w, run, j, t, TryOf(op), op.walk.turn);
  }

  /** Only its own operation gives a thread a slot to help. */
  lemma HelpBegins(w: World, run: seq<State>, j: nat, t: nat)
    requires IsRun(w, run) && j + 1 < |run| && t in run[j].threads && t in run[j + 1].threads
    requires run[j].threads[t].help == NoHelp && run[j + 1].threads[t].help != NoHelp
    ensures w.params.Valid() && HasTable(w, run[j]) && OpStep(w, run[j], run[j + 1], t)
  {
    assert Next(w, run[j], run[j + 1]);
    var u :| Step(w, run[j], run[j + 1], u);
    StepHelp(w, run[j], run[j + 1], u, t);
  }

  lemma StepHelp(w: World, s: State, s': State, u: nat, t: nat)
    requires Step(w, s, s', u) && t in s.threads && t in s'.threads
    requires s.threads[t].help == NoHelp && s'.threads[t].help != NoHelp
    ensures OpStep(w, s, s', t)
  {
    if OpStep(w, s, s', u) {
      OpStepHelp(w, s, s', u);
    }
  }

  // ----- an insert's answer -----

  /** What an insert's last step does. */
  ghost predicate InsertEnded(w: World, s: State, s': State, t: nat)
    requires t in s.threads && t in s'.threads
  {
    || (s'.threads[t].op == Idle(1) && Inserts(w, s, s', t))
    || (s'.threads[t].op == Idle(0) && !s.threads[t].op.InsertCas?
        && s.threads[t].op.Discover? && LooksFull(s, t, TryOf(s.threads[t].op), 3, 9, s.threads[t].op.walk.bucket))
  }

  lemma InsertEnds(w: World, s: State, s': State, t: nat)
    requires w.params.Valid() && HasTable(w, s) && t in s.threads && t in s'.threads && OpStep(w, s, s', t)
    requires Inserting(s.threads[t].op) && s'.threads[t].op.Idle?
    ensures InsertEnded(w, s, s', t)
  {
    if PathLook(w, s, s', t) {
      PathEnds(w, s, s', t);
    } else if SourceLook(w, s, s', t) || DestLook(w, s, s', t) {
      BackGoesOn(w, s, s', t);
    }
  }

  lemma PathEnds(w: World, s: State, s': State, t: nat)
    requires HasTable(w, s) && t in s.threads && t in s'.threads && PathLook(w, s, s', t) && s'.threads[t].op.Idle?
    ensures InsertEnded(w, s, s', t)
  {
  }

  lemma BackGoesOn(w: World, s: State, s': State, t: nat)
    requires HasTable(w, s) && t in s.threads && t in s'.threads && (SourceLook(w, s, s', t) || DestLook(w, s, s', t))
    ensures !s'.threads[t].op.Idle?
  {
  }

  lemma InsertEndsAt(w: World, run: seq<State>, j: nat, t: nat)
    requires Follows(w, run, t) && j + 1 < |run| && t in run[j].threads && t in run[j + 1].threads
    requires Inserting(run[j].threads[t].op) && run[j + 1].threads[t].op.Idle?
    ensures InsertEnded(w, run[j], run[j + 1], t)
  {
    assert OwnStepped(w, run[j], run[j + 1], t);
    InsertEnds(w, run[j], run[j + 1], t);
  }

  /**
    In its last round the insert read its eight slots one after the other, all
    full; then it tried the four lanes in some order, and gave up each.
   */
  ghost predicate Failed(w: World, run: seq<State>, j: nat, t: nat, y: Try) {
    exists m: nat :: Tried(w, run, m, j, t, y, 4)
  }

  /** An insert answers true exactly with its own successful swap, and false only when that failed. */
  lemma InsertAnswers(w: World, run: seq<State>, j: nat, t: nat)
    requires IsRun(w, run) && j + 1 < |run| && t in run[j].threads && t in run[j + 1].threads
    requires Inserting(run[j].threads[t].op) && run[j + 1].threads[t].op.Idle?
    ensures run[j + 1].threads[t].op == Idle(1) || run[j + 1].threads[t].op == Idle(0)
    ensures run[j + 1].threads[t].op == Idle(1) <==> Inserts(w, run[j], run[j + 1], t)
    ensures run[j + 1].threads[t].op == Idle(0) ==>
              Relocating(run[j].threads[t].op) && Failed(w, run, j + 1, t, TryOf(run[j].threads[t].op))
  {
    RunFollows(w, run, t);
    InsertEndsAt(w, run, j, t);
    if run[j + 1].threads[t].op == Idle(0) {
      var y, b := TryOf(run[j].threads[t].op), run[j].threads[t].op.walk.bucket;
      GivesUpLast(w, run, j, t, y, b);
    }
  }

  lemma GivesUpLast(w: World, run: seq<State>, j: nat, t: nat, y: Try, b: nat)
    requires Follows(w, run, t) && j < |run| && LooksFull(run[j], t, y, 3, 9, b)
    ensures Failed(w, run, j + 1, t, y)
  {
    var m := LanesTried(w, run, j, t, y, 3);
    GivesUpHere(w, run, j, t, y, 3, b);
    TriedMore(w, run, m, j, t, y, 3);
  }

  // ----- what becomes of an entry whose insert failed -----

  /** Each insert under way has an entry of its own, not inserted yet. */
  ghost predicate Fresh(s: State) {
    && s.info.Keys <= s.addresses
    && (forall t | t in s.threads && Inserting(s.threads[t].op) ::
          s.threads[t].op.entry in s.addresses - s.info.Keys && s.threads[t].op.entry != NULL)
    && (forall t, u | t in s.threads && u in s.threads && t != u
          && Inserting(s.threads[t].op) && Inserting(s.threads[u].op) ::
          s.threads[t].op.entry != s.threads[u].op.entry)
  }

  /** The entry is allocated, was not inserted, and no insert under way is about it. */
  ghost predicate Dropped(s: State, e: nat) {
    && e in s.addresses - s.info.Keys && e != NULL
    && forall t | t in s.threads && Inserting(s.threads[t].op) :: s.threads[t].op.entry != e
  }

  /** What a step does to the inserts under way. */
  ghost predicate Onward(s: State, s': State, t: nat) {
    && t in s.threads && s'.threads.Keys == s.threads.Keys
    && (forall u | u in s.threads && u != t :: s'.threads[u].op == s.threads[u].op)
    && s.addresses <= s'.addresses
    && var op, op' := s.threads[t].op, s'.threads[t].op;
       && (Inserting(op') && !Inserting(op) ==> op'.entry in s'.addresses - s.addresses && op'.entry != NULL)
       && (Inserting(op') && Inserting(op) ==> op'.entry == op.entry)
       && (s'.info.Keys != s.info.Keys ==>
             Inserting(op) && s'.info.Keys == s.info.Keys + {op.entry} && !Inserting(op'))
  }

  lemma OnwardKeeps(s: State, s': State, t: nat, e: nat)
    requires Fresh(s) && Onward(s, s', t)
    ensures Fresh(s') && (Dropped(s, e) ==> Dropped(s', e))
  {
    forall u | u in s'.threads && Inserting(s'.threads[u].op)
      ensures s'.threads[u].op.entry in s'.addresses - s'.info.Keys && s'.threads[u].op.entry != NULL
    {
    }
  }

  lemma StepOnward(w: World, s: State, s': State, t: nat)
    requires Step(w, s, s', t) && Fresh(s)
    ensures Onward(s, s', t)
  {
    if OpStep(w, s, s', t) {
      if InsertStep(w, s, s', t) {
        InsertOnward(w, s, s', t);
      } else if RelocateStep(w, s, s', t) {
        RelocateOnward(w, s, s', t);
      } else {
        OtherOnward(w, s, s', t);
      }
    } else {
      HelpOnward(w, s, s', t);
    }
  }

  lemma InsertOnward(w: World, s: State, s': State, t: nat)
    requires w.params.Valid() && HasTable(w, s) && t in s.threads && InsertStep(w, s, s', t)
    ensures Onward(s, s', t)
  {
    if InsertReadSlot(w, s, s', t) {
      ReadOnward(w, s, s', t);
    } else if InsertSwap(w, s, s', t) {
      SwapOnward(w, s, s', t);
    }
  }

  lemma ReadOnward(w: World, s: State, s': State, t: nat)
    requires HasTable(w, s) && t in s.threads && InsertReadSlot(w, s, s', t)
    ensures Onward(s, s', t)
  {
  }

  lemma SwapOnward(w: World, s: State, s': State, t: nat)
    requires HasTable(w, s) && t in s.threads && InsertSwap(w, s, s', t)
    ensures Onward(s, s', t)
  {
  }

  lemma RelocateOnward(w: World, s: State, s': State, t: nat)
    requires HasTable(w, s) && t in s.threads && RelocateStep(w, s, s', t)
    ensures Onward(s, s', t)
  {
    if PathLook(w, s, s', t) {
      PathOnward(w, s, s', t);
    }
  }

  lemma PathOnward(w: World, s: State, s': State, t: nat)
    requires HasTable(w, s) && t in s.threads && PathLook(w, s, s', t)
    ensures Onward(s, s', t)
  {
  }

  lemma OtherOnward(w: World, s: State, s': State, t: nat)
    requires w.params.Valid() && HasTable(w, s) && t in s.threads && (FindStep(w, s, s', t) || RemoveSwap(w, s, s', t))
    ensures Onward(s, s', t)
  {
    if FindFirst(w, s, s', t) || FindSecond(w, s, s', t) {
      FindReadOnward(w, s, s', t);
    }
  }

  lemma FindReadOnward(w: World, s: State, s': State, t: nat)
    requires HasTable(w, s) && t in s.threads && (FindFirst(w, s, s', t) || FindSecond(w, s, s', t))
    ensures Onward(s, s', t)
  {
  }

  lemma HelpOnward(w: World, s: State, s': State, t: nat)
    requires HasTable(w, s) && t in s.threads && HelpStep(w, s, s', t)
    ensures Onward(s, s', t)
  {
    HelpKeepsOps(w, s, s', t);
  }

  /** A helper's step changes no operation. */
  lemma HelpKeepsOps(w: World, s: State, s': State, t: nat)
    requires HasTable(w, s) && t in s.threads && HelpStep(w, s, s', t)
    ensures s'.info == s.info && s'.addresses == s.addresses && s'.threads.Keys == s.threads.Keys
    ensures forall u | u in s.threads :: s'.threads[u].op == s.threads[u].op
  {
    if HelpRead1(w, s, s', t) || HelpRead2(w, s, s', t) || HelpCheck(w, s, s', t) {
      HelpReadsKeepOps(w, s, s', t);
    } else if HelpMark(w, s, s', t) || HelpCopy(w, s, s', t) || HelpClear(w, s, s', t) {
      HelpMovesKeepOps(w, s, s', t);
    } else {
      FallThroughKeepsOps(w, s, s', t);
    }
  }

  lemma HelpReadsKeepOps(w: World, s: State, s': State, t: nat)
    requires HasTable(w, s) && t in s.threads
    requires HelpRead1(w, s, s', t) || HelpRead2(w, s, s', t) || HelpCheck(w, s, s', t)
    ensures s'.info == s.info && s'.addresses == s.addresses && s'.threads.Keys == s.threads.Keys
    ensures forall u | u in s.threads :: s'.threads[u].op == s.threads[u].op
  {
  }

  lemma HelpMovesKeepOps(w: World, s: State, s': State, t: nat)
    requires HasTable(w, s) && t in s.threads
    requires HelpMark(w, s, s', t) || HelpCopy(w, s, s', t) || HelpClear(w, s, s', t)
    ensures s'.info == s.info && s'.addresses == s.addresses && s'.threads.Keys == s.threads.Keys
    ensures forall u | u in s.threads :: s'.threads[u].op == s.threads[u].op
  {
  }

  lemma FallThroughKeepsOps(w: World, s: State, s': State, t: nat)
    requires HasTable(w, s) && t in s.threads && (HelpSameEntry(w, s, s', t) || HelpOccupied(w, s, s', t))
    ensures s'.info == s.info && s'.addresses == s.addresses && s'.threads.Keys == s.threads.Keys
    ensures forall u | u in s.threads :: s'.threads[u].op == s.threads[u].op
  {
  }

  lemma NextOnward(w: World, run: seq<State>, i: nat) returns (t: nat)
    requires IsRun(w, run) && i + 1 < |run| && Fresh(run[i])
    ensures Onward(run[i], run[i + 1], t)
  {
    assert Next(w, run[i], run[i + 1]);
    t :| Step(w, run[i], run[i + 1], t);
    StepOnward(w, run[i], run[i + 1], t);
  }

  lemma {:induction false} RunFresh(w: World, run: seq<State>, i: nat)
    requires IsRun(w, run) && i < |run|
    ensures Fresh(run[i])
    decreases i
  {
    if i > 0 {
      RunFresh(w, run, i - 1);
      var t := NextOnward(w, run, i - 1);
      OnwardKeeps(run[i - 1], run[i], t, 0);
    }
  }

  ghost predicate DropStays(s: State, s': State, e: nat) {
    Dropped(s, e) ==> Dropped(s', e)
  }

  lemma {:induction false} DroppedAlong(run: seq<State>, i: nat, j: nat, e: nat)
    requires i <= j < |run| && Dropped(run[i], e) && forall k | 0 <= k < |run| - 1 :: DropStays(run[k], run[k + 1], e)
    ensures Dropped(run[j], e)
    decreases j
  {
    if i < j {
      DroppedAlong(run, i, j - 1, e);
      assert DropStays(run[j - 1], run[j - 1 + 1], e);
    }
  }

  lemma StaysDropped(w: World, run: seq<State>, i: nat, j: nat, e: nat)
    requires IsRun(w, run) && i <= j < |run| && Dropped(run[i], e)
    ensures Dropped(run[j], e)
  {
    forall k | 0 <= k < |run| - 1
      ensures DropStays(run[k], run[k + 1], e)
    {
      RunFresh(w, run, k);
      var t := NextOnward(w, run, k);
      OnwardKeeps(run[k], run[k + 1], t, e);
    }
    DroppedAlong(run, i, j, e);
  }

  /** After an insert answered false its entry is in no cell, and not inserted, for good. */
  lemma FailedIsNowhere(w: World, run: seq<State>, i: nat, j: nat, t: nat, c: Cell)
    requires IsRun(w, run) && i + 1 <= j < |run| && t in run[i].threads && t in run[i + 1].threads
    requires Inserting(run[i].threads[t].op) && run[i + 1].threads[t].op == Idle(0)
    ensures var e := run[i].threads[t].op.entry; e !in run[j].info && At(run[j], c).ptr != e
  {
    var e := run[i].threads[t].op.entry;
    RunFresh(w, run, i);
    InsertAnswers(w, run, i, t);
    DroppedByFailure(w, run, i, t);
    StaysDropped(w, run, i + 1, j, e);
    MarkedNotNull(w, run, j, c);
  }

  lemma DroppedByFailure(w: World, run: seq<State>, i: nat, t: nat)
    requires IsRun(w, run) && i + 1 < |run| && t in run[i].threads && t in run[i + 1].threads && Fresh(run[i])
    requires Inserting(run[i].threads[t].op) && run[i + 1].threads[t].op == Idle(0)
    requires !Inserts(w, run[i], run[i + 1], t)
    ensures Dropped(run[i + 1], run[i].threads[t].op.entry)
  {
    RunFollows(w, run, t);
    assert OwnStepped(w, run[i], run[i + 1], t);
    FailureDrops(w, run[i], run[i + 1], t);
  }

  lemma FailureDrops(w: World, s: State, s': State, t: nat)
    requires w.params.Valid() && HasTable(w, s) && t in s.threads && t in s'.threads && OpStep(w, s, s', t) && Fresh(s)
    requires Inserting(s.threads[t].op) && s'.threads[t].op == Idle(0)
    ensures Dropped(s', s.threads[t].op.entry)
  {
    InsertEnds(w, s, s', t);
    assert s'.info == s.info && s'.addresses == s.addresses;
  }
}
