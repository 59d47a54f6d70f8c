/** The filter with one lock around every call: calls do not overlap. */
module SeqFilter {
  import opened HashIndex
  import opened Words
  import opened TableBag
  import opened ClassBag
  import opened AbstractFilter
  import Spec = SeqSpec

  class SequentialFilter {
    const params: Params
    var table: Table

    ghost predicate Valid()
      reads this
    {
      Usual(params) && Shaped(params, table)
    }

    ghost function Contents(): multiset<Class>
      reads this
      requires Valid()
    {
      Bag(params, table)
    }

    constructor (p: Params)
      ensures params == p && Shaped(params, table)
      ensures p.Valid() ==> Bag(params, table) == multiset{}
      ensures Usual(p) ==> Valid()
    {
      params := p;
      var row := seq(SLOTS, (i: nat) => "");
      table := seq(p.size, (b: nat) => row);
      new;
      if p.Valid() {
        Spec.EmptyBag(params, table);
      }
    }

    /** Store a fingerprint in the bucket's first empty slot, if it has one. */
    method StoreInEmpty(b: nat, fingerprint: string) returns (ok: bool)
      requires params.Valid() && Shaped(params, table) && b < params.size
      modifies this
      ensures Shaped(params, table)
      ensures var h := Spec.Hand(old(table), fingerprint, b);
              && ok == Spec.HasRoom(params, h)
              && table == if ok then Spec.Store(params, h) else old(table)
    {
      for i := 0 to SLOTS
        invariant table == old(table)
        invariant "" !in table[b][..i]
      {
        if table[b][i] == "" {
          FirstIs(table[b], i, "");
          table := Put(table, b, i, fingerprint);
          return true;
        }
      }
      assert table[b][..SLOTS] == table[b];
      return false;
    }

    /** The replace phase: swap with a random slot, move on to where the loser goes, until there is room. */
    method Kick(first: string, start: nat, picks: seq<nat>) returns (ok: bool)
      requires params.Valid() && Shaped(params, table)
      requires start < params.size && |picks| == 10 && Spec.Picks(picks)
      modifies this
      ensures Shaped(params, table)
      ensures var (h, done) := Spec.KickLoop(params, Spec.Hand(old(table), first, start), picks);
              table == h.table && ok == done
    {
      var fingerprint := first;
      var replaceHash: nat := start;
      ghost var began := Spec.Hand(table, first, start);
      var n := 0;
      while n < MAX_KICKS
        invariant n <= MAX_KICKS && Shaped(params, table) && replaceHash < params.size
        invariant Spec.KickLoop(params, began, picks)
               == Spec.KickLoop(params, Spec.Hand(table, fingerprint, replaceHash), picks[n..])
      {
        assert picks[n..][0] == picks[n] && picks[n..][1..] == picks[n + 1..];
        var victim := table[replaceHash][picks[n]];
        table := Put(table, replaceHash, picks[n], fingerprint);
        fingerprint := victim;
        replaceHash := params.NextIndex(replaceHash, fingerprint);
        ok := StoreInEmpty(replaceHash, fingerprint);
        if ok { return; }
        n := n + 1;
      }
      return false;
    }

    /** `coin` and `picks` are the answers of `rand`. */
    method Insert(key: string, coin: nat, picks: seq<nat>) returns (ok: bool)
      requires Valid() && |picks| == 10 && Spec.Picks(picks)
      modifies this
      ensures Valid()
      ensures var (h, done) := Spec.Insert(params, old(table), key, coin, picks);
              table == h.table && ok == done
      ensures Answers(params, old(Contents()), InsertCall(key), ok, Contents())
    {
      InsertAnswers(params, table, key, coin, picks);
      var fingerprint := params.md5(key);
      var hash1 := params.Bucket1(key);
      var hash2 := params.NextIndex(hash1, fingerprint);
      ok := StoreInEmpty(hash1, fingerprint);
      if ok { return; }
      ok := StoreInEmpty(hash2, fingerprint);
      if ok { return; }
      ok := Kick(fingerprint, if coin == 0 then hash1 else hash2, picks);
    }

    method Find(key: string) returns (found: bool)
      requires Valid()
      ensures found <==> KeyClass(params, key) in Contents()
    {
      KeyStoredIff(params, table, key);
      var fingerprint := params.md5(key);
      var hash1 := params.Bucket1(key);
      var hash2 := params.NextIndex(hash1, fingerprint);
      for i := 0 to SLOTS
        invariant fingerprint !in table[hash1][..i]
      {
        if table[hash1][i] == fingerprint { return true; }
      }
      for i := 0 to SLOTS
        invariant fingerprint !in table[hash2][..i]
      {
        if table[hash2][i] == fingerprint { return true; }
      }
      assert table[hash1][..SLOTS] == table[hash1] && table[hash2][..SLOTS] == table[hash2];
      return false;
    }

    /** Empty the bucket's first slot with this fingerprint, if it has one. */
    method RemoveIn(b: nat, fingerprint: string) returns (ok: bool)
      requires Valid() && b < params.size && fingerprint != ""
      modifies this
      ensures Shaped(params, table)
      ensures ok == (fingerprint in old(table)[b])
      ensures table == if ok then Put(old(table), b, Spec.IndexOf(old(table)[b], fingerprint), "") else old(table)
    {
      for i := 0 to SLOTS
        invariant table == old(table)
        invariant fingerprint !in table[b][..i]
      {
        if table[b][i] != "" && table[b][i] == fingerprint {
          FirstIs(table[b], i, fingerprint);
          table := Put(table, b, i, "");
          return true;
        }
      }
      assert table[b][..SLOTS] == table[b];
      return false;
    }

    method Remove(key: string) returns (ok: bool)
      requires Valid()
      modifies this
      ensures Valid()
      ensures (table, ok) == Spec.Remove(params, old(table), key)
      ensures Answers(params, old(Contents()), RemoveCall(key), ok, Contents())
    {
      RemoveAnswers(params, table, key);
      var fingerprint := params.md5(key);
      var hash1 := params.Bucket1(key);
      var hash2 := params.NextIndex(hash1, fingerprint);
      ok := RemoveIn(hash1, fingerprint);
      if ok { return; }
      ok := RemoveIn(hash2, fingerprint);
    }
  }

  lemma FirstIs(row: seq<string>, i: nat, f: string)
    requires i < |row| && row[i] == f && f !in row[..i]
    ensures Spec.IndexOf(row, f) == i
  {
    assert forall j | 0 <= j < i :: row[..i][j] == row[j];
  }

  lemma InsertAnswers(p: Params, t: Table, key: string, coin: nat, picks: seq<nat>)
    requires Usual(p) && Shaped(p, t) && Spec.Picks(picks)
    ensures var (h, ok) := Spec.Insert(p, t, key, coin, picks);
            Answers(p, Bag(p, t), InsertCall(key), ok, Bag(p, h.table))
  {
    Spec.InsertMeaning(p, t, key, coin, picks);
  }

  lemma RemoveAnswers(p: Params, t: Table, key: string)
    requires Usual(p) && Shaped(p, t)
    ensures var (t', ok) := Spec.Remove(p, t, key);
            Answers(p, Bag(p, t), RemoveCall(key), ok, Bag(p, t'))
  {
    Spec.RemoveMeaning(p, t, key);
  }

  // ----- whole histories -----

  /** A call, with what `rand` answers while an insert runs. */
  datatype Op = Op(call: Call, coin: nat, picks: seq<nat>)

  predicate OpsOk(ops: seq<Op>) {
    forall i | 0 <= i < |ops| :: Spec.Picks(ops[i].picks)
  }

  function Calls(ops: seq<Op>): (r: seq<Call>)
    ensures |r| == |ops| && forall i | 0 <= i < |r| :: r[i] == ops[i].call
  {
    seq(|ops|, i requires 0 <= i < |ops| => ops[i].call)
  }

  function Do(p: Params, t: Table, op: Op): (r: (Table, bool))
    requires p.Valid() && Shaped(p, t) && Spec.Picks(op.picks)
    ensures Shaped(p, r.0)
  {
    match op.call
    case InsertCall(key) => var (h, ok) := Spec.Insert(p, t, key, op.coin, op.picks); (h.table, ok)
    case FindCall(key) => (t, Spec.Find(p, t, key))
    case RemoveCall(key) => Spec.Remove(p, t, key)
  }

  function DoAll(p: Params, t: Table, ops: seq<Op>): (r: (Table, seq<bool>))
    requires p.Valid() && Shaped(p, t) && OpsOk(ops)
    ensures Shaped(p, r.0) && |r.1| == |ops|
    decreases |ops|
  {
    if ops == [] then (t, [])
    else
      var (t1, answer) := Do(p, t, ops[0]);
      var (t2, answers) := DoAll(p, t1, ops[1..]);
      (t2, [answer] + answers)
  }

  lemma DoAnswers(p: Params, t: Table, op: Op)
    requires Usual(p) && Shaped(p, t) && Spec.Picks(op.picks)
    ensures Answers(p, Bag(p, t), op.call, Do(p, t, op).1, Bag(p, Do(p, t, op).0))
  {
    match op.call
    case InsertCall(key) => InsertAnswers(p, t, key, op.coin, op.picks);
    case FindCall(key) => KeyStoredIff(p, t, key);
    case RemoveCall(key) => RemoveAnswers(p, t, key);
  }

  lemma CallsStart(ops: seq<Op>)
    requires ops != []
    ensures Calls(ops) == [ops[0].call] + Calls(ops[1..])
  {
  }

  /** What a first call and a history of the rest make together. */
  lemma OneThenRest(p: Params, t: Table, ops: seq<Op>, rest: (Table, seq<bool>))
    requires Usual(p) && Shaped(p, t) && OpsOk(ops) && ops != [] && Shaped(p, rest.0) && |rest.1| == |ops| - 1
    requires History(p, Bag(p, Do(p, t, ops[0]).0), Calls(ops[1..]), rest.1, Bag(p, rest.0))
    ensures History(p, Bag(p, t), Calls(ops), [Do(p, t, ops[0]).1] + rest.1, Bag(p, rest.0))
  {
    DoAnswers(p, t, ops[0]);
    CallsStart(ops);
    HistoryStarts(p, Bag(p, t), ops[0].call, Do(p, t, ops[0]).1, Bag(p, Do(p, t, ops[0]).0),
                  Calls(ops[1..]), rest.1, Bag(p, rest.0));
  }

  /** Every history of the sequential filter is a history of the bag of classes. */
  lemma {:induction false} RefinesBag(p: Params, t: Table, ops: seq<Op>)
    requires Usual(p) && Shaped(p, t) && OpsOk(ops)
    ensures History(p, Bag(p, t), Calls(ops), DoAll(p, t, ops).1, Bag(p, DoAll(p, t, ops).0))
    decreases |ops|
  {
    if ops == [] {
      NoCalls(p, Bag(p, t));
    } else {
      var t1 := Do(p, t, ops[0]).0;
      RefinesBag(p, t1, ops[1..]);
      OneThenRest(p, t, ops, DoAll(p, t1, ops[1..]));
    }
  }
}
