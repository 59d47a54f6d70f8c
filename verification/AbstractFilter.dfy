/** The filter a caller has in mind: a bag of classes, with the answers each call may give. */
module AbstractFilter {
  import opened HashIndex
  import opened ClassBag

  datatype Call = InsertCall(key: string) | FindCall(key: string) | RemoveCall(key: string)

  /**
    A true insert adds one of the key's class. A false one may swap: it adds
    the key's class and drops some class, perhaps the same.
   */
  ghost predicate Answers(p: Params, bag: multiset<Class>, call: Call, answer: bool, bag': multiset<Class>)
    requires p.Valid()
  {
    var c := KeyClass(p, call.key);
    match call
    case InsertCall(_) =>
      if answer then bag' == bag + multiset{c}
      else exists v: Class :: bag' + multiset{v} == bag + multiset{c}
    case FindCall(_) => (answer <==> c in bag) && bag' == bag
    case RemoveCall(_) => (answer <==> c in bag) && bag' == bag - multiset{c}
  }

  /** Each call's answer is one the bag before it may give, and leads to the bag after it. */
  ghost predicate Explains(p: Params, bags: seq<multiset<Class>>, calls: seq<Call>, answers: seq<bool>)
    requires p.Valid()
  {
    && |bags| == |calls| + 1 && |answers| == |calls|
    && forall i | 0 <= i < |calls| :: Answers(p, bags[i], calls[i], answers[i], bags[i + 1])
  }

  ghost predicate ExplainsFrom(p: Params, bags: seq<multiset<Class>>, bag: multiset<Class>,
                               calls: seq<Call>, answers: seq<bool>, bag': multiset<Class>)
    requires p.Valid()
  {
    Explains(p, bags, calls, answers) && bags[0] == bag && bags[|calls|] == bag'
  }

  /** Some sequence of bags explains the answers. */
  ghost predicate History(p: Params, bag: multiset<Class>, calls: seq<Call>, answers: seq<bool>, bag': multiset<Class>)
    requires p.Valid() && |answers| == |calls|
  {
    exists bags :: ExplainsFrom(p, bags, bag, calls, answers, bag')
  }

  lemma NoCalls(p: Params, bag: multiset<Class>)
    requires p.Valid()
    ensures History(p, bag, [], [], bag)
  {
    assert ExplainsFrom(p, [bag], bag, [], [], bag);
  }

  /** One call, and then a history. */
  lemma HistoryStarts(p: Params, bag: multiset<Class>, call: Call, answer: bool, mid: multiset<Class>,
                      calls: seq<Call>, answers: seq<bool>, bag': multiset<Class>)
    requires p.Valid() && |answers| == |calls|
    requires Answers(p, bag, call, answer, mid) && History(p, mid, calls, answers, bag')
    ensures History(p, bag, [call] + calls, [answer] + answers, bag')
  {
    var bags :| ExplainsFrom(p, bags, mid, calls, answers, bag');
    assert ExplainsFrom(p, [bag] + bags, bag, [call] + calls, [answer] + answers, bag');
  }

  /** A history may be continued by one more call. */
  lemma HistoryExtends(p: Params, bag: multiset<Class>, calls: seq<Call>, answers: seq<bool>,
                       mid: multiset<Class>, call: Call, answer: bool, bag': multiset<Class>)
    requires p.Valid() && |answers| == |calls|
    requires History(p, bag, calls, answers, mid) && Answers(p, mid, call, answer, bag')
    ensures History(p, bag, calls + [call], answers + [answer], bag')
  {
    var bags :| ExplainsFrom(p, bags, bag, calls, answers, mid);
    assert ExplainsFrom(p, bags + [bag'], bag, calls + [call], answers + [answer], bag');
  }

  predicate InsertsSucceed(calls: seq<Call>, answers: seq<bool>)
    requires |answers| == |calls|
  {
    forall i | 0 <= i < |calls| && calls[i].InsertCall? :: answers[i]
  }

  lemma {:induction false} BagsDetermined(p: Params, calls: seq<Call>, b1: seq<multiset<Class>>, a1: seq<bool>,
                                          b2: seq<multiset<Class>>, a2: seq<bool>, i: nat)
    requires p.Valid() && Explains(p, b1, calls, a1) && Explains(p, b2, calls, a2) && b1[0] == b2[0]
    requires InsertsSucceed(calls, a1) && InsertsSucceed(calls, a2)
    requires i <= |calls|
    ensures b1[i] == b2[i] && a1[..i] == a2[..i]
    decreases i
  {
    if i > 0 {
      var j := i - 1;
      BagsDetermined(p, calls, b1, a1, b2, a2, j);
      assert Answers(p, b1[j], calls[j], a1[j], b1[j + 1]) && Answers(p, b2[j], calls[j], a2[j], b2[j + 1]);
    }
  }

  /** While no insert fails, the answers and the contents are determined by the calls. */
  lemma HistoryDetermined(p: Params, bag: multiset<Class>, calls: seq<Call>,
                          a1: seq<bool>, b1: multiset<Class>, a2: seq<bool>, b2: multiset<Class>)
    requires p.Valid() && |a1| == |a2| == |calls|
    requires History(p, bag, calls, a1, b1) && History(p, bag, calls, a2, b2)
    requires InsertsSucceed(calls, a1) && InsertsSucceed(calls, a2)
    ensures a1 == a2 && b1 == b2
  {
    var bags1 :| ExplainsFrom(p, bags1, bag, calls, a1, b1);
    var bags2 :| ExplainsFrom(p, bags2, bag, calls, a2, b2);
    BagsDetermined(p, calls, bags1, a1, bags2, a2, |calls|);
  }
}
