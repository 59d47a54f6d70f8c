/** A history from the empty filter whose last insert finds room with its tenth swap, and with none before. */
module TenthSwap {
  import opened Bits
  import opened HashIndex
  import opened Words
  import opened TableBag
  import opened ClassBag
  import opened AbstractFilter
  import opened SeqFilter
  import opened FalseNegative

  /** Key "y" has fingerprint "z" and buckets 1 and 3, all others have fingerprint "a" and buckets 0 and 1. */
  function P(): Params {
    Params(4,
           (s: string) => if s == "a" || s == "y" then 1 else if s == "z" then 2 else 0,
           (key: string) => if key == "y" then "z" else "a")
  }

  lemma Hops()
    ensures P().Valid() && P().Bucket1("k") == 0 && P().Bucket2("k") == 1
    ensures P().Bucket1("y") == 1 && P().Bucket2("y") == 3
    ensures P().NextIndex(0, "a") == 1 && P().NextIndex(1, "a") == 0 && P().NextIndex(1, "z") == 3
  {
    assert Xor(0, 1) == 1 && Xor(1, 1) == 0;
    assert Xor(1, 2) == 3 by {
      assert Xor(0, 1) == 1;
    }
  }

  /** The eighth call inserts "y", all others "k". */
  function Call8(n: nat): Op {
    Op(InsertCall(if n == 7 then "y" else "k"), 0, [])
  }

  /** n of a bucket's slots, the fourth one for `last`, the others for "a". */
  function Filled(n: nat, last: string): (r: seq<string>)
    ensures |r| == SLOTS && forall i | 0 <= i < SLOTS :: r[i] == if i >= n then "" else if i == 3 then last else "a"
  {
    seq(SLOTS, (i: nat) => if i >= n then "" else if i == 3 then last else "a")
  }

  function Tables(n: nat): (t: Table)
    ensures |t| == 4 && t[0] == Filled(n, "a") && t[1] == Filled(n - Least(n, 4), "z")
    ensures t[2] == t[3] == Filled(0, "")
  {
    [Filled(n, "a"), Filled(n - Least(n, 4), "z"), Filled(0, ""), Filled(0, "")]
  }

  lemma Room(n: nat, last: string)
    requires last != ""
    ensures "" in Filled(n, last) <==> n < SLOTS
    ensures n < SLOTS ==> Spec.IndexOf(Filled(n, last), "") == n
  {
    if n < SLOTS {
      assert Filled(n, last)[n] == "";
    }
  }

  lemma Grows(n: nat, last: string)
    requires n < SLOTS && last != ""
    ensures Filled(n, last)[n := if n == 3 then last else "a"] == Filled(n + 1, last)
  {
  }

  lemma StepFirst(n: nat)
    requires n < 4
    ensures P().Valid() && Shaped(P(), Tables(n)) && Do(P(), Tables(n), Call8(n)) == (Tables(n + 1), true)
  {
    Hops();
    Room(n, "a");
    Grows(n, "a");
    InsertsFirst(P(), Tables(n), Call8(n), n);
    assert Put(Tables(n), 0, n, "a") == Tables(n + 1);
  }

  lemma StepSecond(n: nat)
    requires 4 <= n < 7
    ensures P().Valid() && Shaped(P(), Tables(n)) && Do(P(), Tables(n), Call8(n)) == (Tables(n + 1), true)
  {
    Hops();
    Room(n, "a");
    Room(n - 4, "z");
    Grows(n - 4, "z");
    assert Filled(n, "a") == Filled(n + 1, "a");
    InsertsSecond(P(), Tables(n), Call8(n), n - 4);
    assert Put(Tables(n), 1, n - 4, "a") == Tables(n + 1);
  }

  lemma StepLast(n: nat)
    requires n == 7
    ensures P().Valid() && Shaped(P(), Tables(n)) && Do(P(), Tables(n), Call8(n)) == (Tables(n + 1), true)
  {
    Hops();
    Room(n - 4, "z");
    Grows(n - 4, "z");
    assert Filled(n, "a") == Filled(n + 1, "a");
    InsertsFirst(P(), Tables(n), Call8(n), n - 4);
    assert Put(Tables(n), 1, n - 4, "z") == Tables(n + 1);
  }

  lemma Step8(rows: nat -> Table, n: nat)
    requires n < 8 && rows(n) == Tables(n) && rows(n + 1) == Tables(n + 1)
    ensures StepAt(P(), rows, Call8, n)
  {
    if n < 4 {
      StepFirst(n);
    } else if n < 7 {
      StepSecond(n);
    } else {
      StepLast(n);
    }
  }

  lemma StartsEmpty()
    ensures Tables(0) == EmptyTable(4)
  {
    assert Filled(0, "a") == Filled(0, "z") == Filled(0, "") == ["", "", "", ""];
    var t, e := Tables(0), EmptyTable(4);
    forall b | 0 <= b < 4
      ensures t[b] == e[b]
    {
    }
  }

  // ----- the insert that swaps ten times -----

  /** `rand` picks the first slot n times, and then the fourth. */
  function Picks(n: nat): (picks: seq<nat>)
    ensures |picks| == n + 1 && Spec.Picks(picks)
    ensures forall i | 0 <= i <= n :: picks[i] == if i == n then 3 else 0
  {
    seq(n + 1, (i: nat) => if i == n then 3 else 0)
  }

  function Zeros(n: nat): (picks: seq<nat>)
    ensures |picks| == n && Spec.Picks(picks) && forall i | 0 <= i < n :: picks[i] == 0
  {
    seq(n, (i: nat) => 0)
  }

  /** The insert of "k" with "a" in hand, at bucket b of the full pair. */
  function At(b: nat): Spec.Hand
    requires b < 2
  {
    Spec.Hand(Tables(8), "a", b)
  }

  /** A swap with the first slot takes "a" to the other bucket, and finds no room there. */
  lemma SwapOver(b: nat)
    requires b < 2
    ensures P().Valid() && Spec.HandOk(P(), At(b)) && !Spec.HasRoom(P(), At(b))
    ensures Spec.KickOnce(P(), At(b), 0) == At(1 - b)
  {
    Hops();
    Room(8, "a");
    Room(4, "z");
    var t := Tables(8);
    assert t[b][0] == "a" && t[b][0 := "a"] == t[b] && t[b := t[b]] == t;
  }

  /** A swap with the fourth slot of bucket 1 takes out "z", whose other bucket is empty. */
  lemma SwapOut()
    ensures P().Valid() && Spec.HandOk(P(), At(1)) && Spec.HasRoom(P(), Spec.KickOnce(P(), At(1), 3))
  {
    Hops();
    Room(0, "a");
    var t := Tables(8);
    assert t[1][3] == "z" && t[3] == Filled(0, "a");
  }

  lemma {:induction false} Swings(b: nat, n: nat)
    requires b < 2
    ensures P().Valid() && Spec.HandOk(P(), At(b)) && !Spec.KickLoop(P(), At(b), Zeros(n)).1
    decreases n
  {
    SwapOver(b);
    if n > 0 {
      SwapOver(1 - b);
      Swings(1 - b, n - 1);
      assert Zeros(n)[1..] == Zeros(n - 1);
    }
  }

  lemma {:induction false} GetsOut(b: nat, n: nat)
    requires b < 2 && (n + b) % 2 == 1
    ensures P().Valid() && Spec.HandOk(P(), At(b)) && Spec.KickLoop(P(), At(b), Picks(n)).1
    decreases n
  {
    SwapOver(b);
    if n > 0 {
      SwapOver(1 - b);
      GetsOut(1 - b, n - 1);
      assert Picks(n)[1..] == Picks(n - 1);
    } else {
      SwapOut();
    }
  }

  /** After the eight calls, the insert of "k" answers true with ten answers of `rand`; with nine swaps it had not. */
  lemma LastInsert(nine: nat)
    requires nine == 9
    ensures P().Valid() && Shaped(P(), Tables(8))
    ensures Spec.Insert(P(), Tables(8), "k", 0, Picks(nine)).1
    ensures !Spec.Insert(P(), Tables(8), "k", 0, Zeros(nine)).1
  {
    Hops();
    Room(8, "a");
    Room(4, "z");
    GetsOut(0, nine);
    Swings(0, nine);
  }

  /** From the empty filter: eight inserts that succeed, and a ninth that does with its tenth swap. */
  lemma TenSwapsSucceed() returns (ops: seq<Op>, picks: seq<nat>)
    ensures AllInsert(P(), ops) && |picks| == 10 && Spec.Picks(picks) && picks[..9] == Zeros(9)
    ensures var t := DoAll(P(), EmptyTable(4), ops).0;
            && Spec.Insert(P(), t, "k", 0, picks).1
            && !Spec.Insert(P(), t, "k", 0, picks[..9]).1
  {
    var rows := (n: nat) => Tables(n);
    ops := CallsFrom(Call8, 0, 8);
    forall n: nat | n < 8
      ensures StepAt(P(), rows, Call8, n)
    {
      Step8(rows, n);
    }
    Hops();
    StartsEmpty();
    AllSucceed(P(), rows, Call8, 8, ops);
    picks := Picks(9);
    LastInsert(9);
  }
}
