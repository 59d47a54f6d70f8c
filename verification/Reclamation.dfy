/** Freeing a thread's retired entries, except those some thread has marked as in use. */
module Reclamation {
  import opened Words

  /** The retired addresses that are marked, in order. */
  function Kept(retired: seq<nat>, marked: set<nat>): (r: seq<nat>)
    ensures |r| <= |retired|
  {
    if retired == [] then []
    else Kept(retired[..|retired| - 1], marked)
         + if retired[|retired| - 1] in marked then [retired[|retired| - 1]] else []
  }

  /** The others, in order. */
  function Freed(retired: seq<nat>, marked: set<nat>): seq<nat> {
    if retired == [] then []
    else Freed(retired[..|retired| - 1], marked)
         + if retired[|retired| - 1] in marked then [] else [retired[|retired| - 1]]
  }

  /** Every retired address is kept or freed, as often as it was retired; marked ones are kept, others freed. */
  lemma {:induction false} KeptOrFreed(retired: seq<nat>, marked: set<nat>)
    ensures multiset(retired) == multiset(Kept(retired, marked)) + multiset(Freed(retired, marked))
    ensures forall e | e in Kept(retired, marked) :: e in marked
    ensures forall e | e in Freed(retired, marked) :: e !in marked
    decreases |retired|
  {
    if retired != [] {
      KeptOrFreed(retired[..|retired| - 1], marked);
      assert retired == retired[..|retired| - 1] + [retired[|retired| - 1]];
    }
  }

  predicate NoRepeats(s: seq<nat>) {
    forall i, j | 0 <= i < j < |s| :: s[i] != s[j]
  }

  lemma {:induction false} Multiplicity(s: seq<nat>)
    ensures NoRepeats(s) <==> forall e: nat :: multiset(s)[e] <= 1
    decreases |s|
  {
    if s != [] {
      var last := |s| - 1;
      Multiplicity(s[..last]);
      assert s == s[..last] + [s[last]];
      if NoRepeats(s) {
        assert s[last] !in s[..last];
      } else if NoRepeats(s[..last]) {
        var i, j :| 0 <= i < j < |s| && s[i] == s[j];
        assert j == last && s[..last][i] == s[last];
        assert multiset(s)[s[last]] >= 2;
      } else {
        var e: nat :| multiset(s[..last])[e] > 1;
        assert multiset(s)[e] > 1;
      }
    }
  }

  /**
    Retired once, freed at most once: if no address was retired twice, none is
    freed twice, none is both freed and kept, and what remains has no repeats.
   */
  lemma FreedOnce(retired: seq<nat>, marked: set<nat>)
    requires NoRepeats(retired)
    ensures NoRepeats(Freed(retired, marked)) && NoRepeats(Kept(retired, marked))
    ensures forall e | e in Freed(retired, marked) :: e in retired && e !in Kept(retired, marked)
  {
    KeptOrFreed(retired, marked);
    Multiplicity(retired);
    var k: seq<nat>, f: seq<nat> := Kept(retired, marked), Freed(retired, marked);
    forall e: nat
      ensures multiset(k)[e] <= 1 && multiset(f)[e] <= 1
    {
      assert multiset(retired)[e] == multiset(k)[e] + multiset(f)[e];
    }
    Multiplicity(k);
    Multiplicity(f);
    forall e | e in f
      ensures e in retired && e !in k
    {
      assert e in multiset(retired);
    }
  }

  /** Two hazard pointers a thread. */
  const HAZARDS: nat := 2

  function Marked(hazards: seq<seq<nat>>): set<nat> {
    set i, j | 0 <= i < |hazards| && 0 <= j < |hazards[i]| && hazards[i][j] != NULL :: hazards[i][j]
  }

  /** All non-null hazard pointers of all threads. */
  method CollectHazards(hazards: seq<seq<nat>>) returns (record: set<nat>)
    requires forall i | 0 <= i < |hazards| :: |hazards[i]| == 2
    ensures record == Marked(hazards)
  {
    record := {};
    for i := 0 to |hazards|
      invariant record == Marked(hazards[..i])
    {
      for j := 0 to HAZARDS
        invariant record == Marked(hazards[..i]) + Marked([hazards[i][..j]])
      {
        var ptr := hazards[i][j];
        assert hazards[i][..j + 1] == hazards[i][..j] + [ptr];
        MarkedMore(hazards[i][..j], ptr);
        if ptr != NULL {
          record := record + {ptr};
        }
      }
      assert hazards[i][..HAZARDS] == hazards[i];
      assert hazards[..i + 1] == hazards[..i] + [hazards[i]];
      MarkedAppend(hazards[..i], hazards[i]);
    }
    assert hazards[..|hazards|] == hazards;
  }

  lemma MarkedMore(row: seq<nat>, ptr: nat)
    ensures Marked([row + [ptr]]) == Marked([row]) + if ptr != NULL then {ptr} else {}
  {
    var more := row + [ptr];
    forall e | e in Marked([row]) + if ptr != NULL then {ptr} else {}
      ensures e in Marked([more])
    {
      if e in Marked([row]) {
        var j :| 0 <= j < |row| && row[j] == e && e != NULL;
        assert [more][0][j] == e;
      } else {
        assert [more][0][|row|] == e;
      }
    }
    forall e | e in Marked([more])
      ensures e in Marked([row]) || (e == ptr && ptr != NULL)
    {
      var j :| 0 <= j < |more| && more[j] == e && e != NULL;
      if j < |row| {
        assert [row][0][j] == e;
      }
    }
  }

  lemma MarkedAppend(hazards: seq<seq<nat>>, row: seq<nat>)
    ensures Marked(hazards + [row]) == Marked(hazards) + Marked([row])
  {
    var all := hazards + [row];
    forall e | e in Marked(all)
      ensures e in Marked(hazards) || e in Marked([row])
    {
      var i, j :| 0 <= i < |all| && 0 <= j < |all[i]| && all[i][j] == e && e != NULL;
      if i == |hazards| {
        assert [row][0][j] == e;
      } else {
        assert hazards[i][j] == e;
      }
    }
    forall e | e in Marked(hazards)
      ensures e in Marked(all)
    {
      var i, j :| 0 <= i < |hazards| && 0 <= j < |hazards[i]| && hazards[i][j] == e && e != NULL;
      assert all[i][j] == e;
    }
    forall e | e in Marked([row])
      ensures e in Marked(all)
    {
      var j :| 0 <= j < |row| && row[j] == e && e != NULL;
      assert all[|hazards|][j] == e;
    }
  }
}
