/** The session log as a tree of nodes, children sorted by time. */
module SessionTree {
  import opened Messages
  import opened Sequences
  import opened SessionLog

  datatype Node = Node(entry: Entry, children: seq<Node>, nodeLabel: Option<string>, labelTimestamp: Option<int>)

  // A node is known by the position of its entry in the log; the source holds references instead.

  /** The entries below position `n` that hang on entry `p`, in log order. */
  function Kids(es: seq<Entry>, p: nat, n: nat): seq<nat>
    requires p < |es| && n <= |es|
  {
    if n == 0 then []
    else Kids(es, p, n - 1) + (if es[n - 1].parentId == Some(es[p].id) then [n - 1] else [])
  }

  ghost predicate HasParentFrom(es: seq<Entry>, k: nat, j: nat)
    requires j < |es|
  {
    exists m | k <= m < |es| :: es[j].parentId == Some(es[m].id)
  }

  /** The entries in `k..n` that hang on no entry from position `k` on; for `k == 0`, the roots. */
  ghost function Frontier(es: seq<Entry>, k: nat, n: nat): seq<nat>
    requires n <= |es|
  {
    if n <= k then []
    else Frontier(es, k, n - 1) + (if HasParentFrom(es, k, n - 1) then [] else [n - 1])
  }

  predicate InRange(n: nat, at: seq<nat>)
  {
    forall k | 0 <= k < |at| :: at[k] < n
  }

  lemma {:induction false} KidsInRange(es: seq<Entry>, p: nat, n: nat)
    requires p < |es| && n <= |es|
    ensures InRange(n, Kids(es, p, n))
  {
    if n > 0 {
      KidsInRange(es, p, n - 1);
    }
  }

  lemma {:induction false} FrontierInRange(es: seq<Entry>, k: nat, n: nat)
    requires n <= |es|
    ensures InRange(n, Frontier(es, k, n))
  {
    if n > k {
      FrontierInRange(es, k, n - 1);
    }
  }

  lemma {:induction false} KidsMember(es: seq<Entry>, p: nat, n: nat, j: nat)
    requires p < |es| && n <= |es|
    ensures j in Kids(es, p, n) <==> j < n && es[j].parentId == Some(es[p].id)
  {
    if n > 0 {
      KidsMember(es, p, n - 1, j);
    }
  }

  lemma {:induction false} FrontierMember(es: seq<Entry>, k: nat, n: nat, j: nat)
    requires n <= |es|
    ensures j in Frontier(es, k, n) <==> k <= j < n && !HasParentFrom(es, k, j)
  {
    if n > k {
      FrontierMember(es, k, n - 1, j);
    }
  }

  // ---------------------------------------------------------------------------------------------
  // Sorting by time
  // ---------------------------------------------------------------------------------------------

  function Time(es: seq<Entry>, i: nat): int
  {
    if i < |es| then es[i].timestamp else 0
  }

  function InsertByTime(es: seq<Entry>, sorted: seq<nat>, x: nat): seq<nat>
  {
    if sorted == [] || Time(es, Last(sorted)) <= Time(es, x) then sorted + [x]
    else InsertByTime(es, Front(sorted), x) + [Last(sorted)]
  }

  /** A stable sort: entries of the same time keep their order. */
  function SortByTime(es: seq<Entry>, kids: seq<nat>): seq<nat>
  {
    if kids == [] then [] else InsertByTime(es, SortByTime(es, Front(kids)), Last(kids))
  }

  lemma {:induction false} InsertPermutes(es: seq<Entry>, sorted: seq<nat>, x: nat)
    ensures multiset(InsertByTime(es, sorted, x)) == multiset(sorted) + multiset{x}
  {
    if sorted != [] && Time(es, Last(sorted)) > Time(es, x) {
      InsertPermutes(es, Front(sorted), x);
      assert sorted == Front(sorted) + [Last(sorted)];
    }
  }

  lemma {:induction false} SortPermutes(es: seq<Entry>, kids: seq<nat>)
    ensures multiset(SortByTime(es, kids)) == multiset(kids)
  {
    if kids != [] {
      SortPermutes(es, Front(kids));
      InsertPermutes(es, SortByTime(es, Front(kids)), Last(kids));
      assert kids == Front(kids) + [Last(kids)];
    }
  }

  predicate Before(es: seq<Entry>, i: nat, j: nat)
  {
    Time(es, i) < Time(es, j) || (Time(es, i) == Time(es, j) && i < j)
  }

  ghost predicate InTimeOrder(es: seq<Entry>, kids: seq<nat>)
  {
    forall a, b | 0 <= a < b < |kids| :: Before(es, kids[a], kids[b])
  }

  lemma {:induction false} InsertKeepsOrder(es: seq<Entry>, sorted: seq<nat>, x: nat)
    requires InTimeOrder(es, sorted) && forall a | 0 <= a < |sorted| :: sorted[a] < x
    ensures InTimeOrder(es, InsertByTime(es, sorted, x))
  {
    if sorted != [] {
      var z := Last(sorted);
      if Time(es, z) > Time(es, x) {
        InsertKeepsOrder(es, Front(sorted), x);
        InsertPermutes(es, Front(sorted), x);
        var front := InsertByTime(es, Front(sorted), x);
        forall a | 0 <= a < |front| ensures Before(es, front[a], z) {
          assert front[a] in multiset(front);
          if front[a] != x {
            assert front[a] in Front(sorted);
            var b :| 0 <= b < |sorted| - 1 && sorted[b] == front[a];
          }
        }
      } else {
        forall a | 0 <= a < |sorted| ensures Before(es, sorted[a], x) {
          if a < |sorted| - 1 { assert Before(es, sorted[a], sorted[|sorted| - 1]); }
        }
      }
    }
  }

  lemma SortInRange(es: seq<Entry>, kids: seq<nat>, n: nat)
    requires InRange(n, kids)
    ensures InRange(n, SortByTime(es, kids))
  {
    var sorted := SortByTime(es, kids);
    SortPermutes(es, kids);
    forall a | 0 <= a < |sorted| ensures sorted[a] < n {
      assert sorted[a] in multiset(sorted);
      assert sorted[a] in kids;
    }
  }

  /** Sorting the children of a node puts them in time order, log order breaking ties. */
  lemma {:induction false} SortedKidsInOrder(es: seq<Entry>, p: nat, n: nat)
    requires p < |es| && n <= |es|
    ensures InTimeOrder(es, SortByTime(es, Kids(es, p, n)))
  {
    if n > 0 {
      SortedKidsInOrder(es, p, n - 1);
      var front := Kids(es, p, n - 1);
      if es[n - 1].parentId == Some(es[p].id) {
        FrontOfAppend(front, n - 1);
        KidsInRange(es, p, n - 1);
        SortInRange(es, front, n - 1);
        InsertKeepsOrder(es, SortByTime(es, front), n - 1);
      } else {
        assert Kids(es, p, n) == front;
      }
    }
  }

  // ---------------------------------------------------------------------------------------------
  // Trees over child lists
  // ---------------------------------------------------------------------------------------------

  /** One list for each entry, holding its children in some order. */
  ghost predicate ChildLists(es: seq<Entry>, children: seq<seq<nat>>)
  {
    && |children| == |es|
    && forall p | 0 <= p < |es| :: multiset(children[p]) == multiset(Kids(es, p, |es|))
  }

  /** Children come later in the log than their parents. */
  predicate Descending(children: seq<seq<nat>>)
  {
    forall p, k | 0 <= p < |children| && 0 <= k < |children[p]| :: p < children[p][k] < |children|
  }

  lemma ChildIsKid(es: seq<Entry>, children: seq<seq<nat>>, p: nat, k: nat)
    requires ChildLists(es, children) && p < |es| && k < |children[p]|
    ensures children[p][k] < |es| && es[children[p][k]].parentId == Some(es[p].id)
  {
    assert children[p][k] in multiset(children[p]);
    assert children[p][k] in multiset(Kids(es, p, |es|));
    KidsMember(es, p, |es|, children[p][k]);
  }

  lemma ChildListsDescend(es: seq<Entry>, children: seq<seq<nat>>)
    requires Ordered(es) && ChildLists(es, children)
    ensures Descending(children)
  {
    forall p, k | 0 <= p < |children| && 0 <= k < |children[p]| ensures p < children[p][k] < |children| {
      ChildIsKid(es, children, p, k);
    }
  }

  datatype Labelling = Labelling(labels: map<Id, string>, times: map<Id, int>)

  function Lookup<T>(m: map<Id, T>, id: Id): Option<T>
  {
    if id in m then Some(m[id]) else None
  }

  /** The node at a position with everything below it. */
  function Grow(es: seq<Entry>, children: seq<seq<nat>>, marks: Labelling, i: nat): Node
    requires |children| == |es| && Descending(children) && i < |es|
    decreases |es| - i
  {
    var kids := children[i];
    Node(es[i], seq(|kids|, k requires 0 <= k < |kids| => Grow(es, children, marks, kids[k])),
         Lookup(marks.labels, es[i].id), Lookup(marks.times, es[i].id))
  }

  function GrowAll(es: seq<Entry>, children: seq<seq<nat>>, marks: Labelling, at: seq<nat>): seq<Node>
    requires |children| == |es| && Descending(children) && InRange(|es|, at)
  {
    seq(|at|, k requires 0 <= k < |at| => Grow(es, children, marks, at[k]))
  }

  /** All entries of a forest, each before those below it. */
  function Flatten(nodes: seq<Node>): seq<Entry>
  {
    if nodes == [] then [] else [nodes[0].entry] + Flatten(nodes[0].children) + Flatten(nodes[1..])
  }

  lemma {:induction false} FlattenConcat(a: seq<Node>, b: seq<Node>)
    ensures Flatten(a + b) == Flatten(a) + Flatten(b)
  {
    if a == [] {
      assert a + b == b;
    } else {
      FlattenConcat(a[1..], b);
      assert (a + b)[1..] == a[1..] + b && (a + b)[0] == a[0];
      ConcatAssociative([a[0].entry] + Flatten(a[0].children), Flatten(a[1..]), Flatten(b));
    }
  }

  /** The entries in and below the given positions. */
  ghost function Below(es: seq<Entry>, children: seq<seq<nat>>, marks: Labelling, at: seq<nat>): multiset<Entry>
    requires |children| == |es| && Descending(children) && InRange(|es|, at)
  {
    multiset(Flatten(GrowAll(es, children, marks, at)))
  }

  lemma BelowConcat(es: seq<Entry>, children: seq<seq<nat>>, marks: Labelling, a: seq<nat>, b: seq<nat>)
    requires |children| == |es| && Descending(children) && InRange(|es|, a) && InRange(|es|, b)
    ensures InRange(|es|, a + b)
    ensures Below(es, children, marks, a + b) == Below(es, children, marks, a) + Below(es, children, marks, b)
  {
    assert GrowAll(es, children, marks, a + b) == GrowAll(es, children, marks, a) + GrowAll(es, children, marks, b);
    FlattenConcat(GrowAll(es, children, marks, a), GrowAll(es, children, marks, b));
  }

  lemma BelowOne(es: seq<Entry>, children: seq<seq<nat>>, marks: Labelling, i: nat)
    requires |children| == |es| && Descending(children) && i < |es|
    ensures InRange(|es|, children[i])
    ensures Below(es, children, marks, [i]) == multiset{es[i]} + Below(es, children, marks, children[i])
  {
    var nodes := GrowAll(es, children, marks, [i]);
    assert nodes == [Grow(es, children, marks, i)];
    assert nodes[0].children == GrowAll(es, children, marks, children[i]);
    assert nodes[1..] == [];
    assert Flatten(nodes) == [es[i]] + Flatten(nodes[0].children);
  }

  lemma BelowMiddle(
    es: seq<Entry>, children: seq<seq<nat>>, marks: Labelling, left: seq<nat>, x: nat, right: seq<nat>)
    requires |children| == |es| && Descending(children)
    requires InRange(|es|, left) && InRange(|es|, right) && x < |es|
    ensures Below(es, children, marks, left + ([x] + right))
         == Below(es, children, marks, [x]) + Below(es, children, marks, left + right)
  {
    var a, b, c := Below(es, children, marks, left), Below(es, children, marks, [x]), Below(es, children, marks, right);
    assert Below(es, children, marks, left + right) == a + c by { BelowConcat(es, children, marks, left, right); }
    BelowConcat(es, children, marks, [x], right);
    BelowConcat(es, children, marks, left, [x] + right);
    MiddleFirst(a, b, c);
  }

  lemma MiddleFirst<T>(a: multiset<T>, b: multiset<T>, c: multiset<T>)
    ensures a + (b + c) == b + (a + c)
  {
  }

  lemma BelowMoved(
    es: seq<Entry>, children: seq<seq<nat>>, marks: Labelling, x: nat, rest: seq<nat>, left: seq<nat>, right: seq<nat>)
    requires |children| == |es| && Descending(children)
    requires InRange(|es|, rest) && x < |es|
    requires InRange(|es|, left) && InRange(|es|, right) && InRange(|es|, left + right)
    requires Below(es, children, marks, rest) == Below(es, children, marks, left + right)
    ensures Below(es, children, marks, [x] + rest) == Below(es, children, marks, left + ([x] + right))
  {
    BelowConcat(es, children, marks, [x], rest);
    BelowMiddle(es, children, marks, left, x, right);
  }

  /** What lies below a list of positions does not depend on their order. */
  lemma {:induction false} BelowPermuted(
    es: seq<Entry>, children: seq<seq<nat>>, marks: Labelling, a: seq<nat>, b: seq<nat>)
    requires |children| == |es| && Descending(children) && multiset(a) == multiset(b)
    requires InRange(|es|, a) && InRange(|es|, b)
    ensures Below(es, children, marks, a) == Below(es, children, marks, b)
    decreases |a|
  {
    if a == [] {
      EmptyBag(b);
    } else {
      var rest, left, right := SplitBoth(|es|, a, b);
      BelowPermuted(es, children, marks, rest, left + right);
      BelowMoved(es, children, marks, a[0], rest, left, right);
    }
  }

  lemma EmptyBag(b: seq<nat>)
    requires multiset(b) == multiset([])
    ensures b == []
  {
    assert |multiset(b)| == 0;
  }

  lemma SplitBoth(n: nat, a: seq<nat>, b: seq<nat>) returns (rest: seq<nat>, left: seq<nat>, right: seq<nat>)
    requires a != [] && multiset(a) == multiset(b) && InRange(n, a) && InRange(n, b)
    ensures a == [a[0]] + rest && b == left + ([a[0]] + right) && |rest| < |a|
    ensures multiset(rest) == multiset(left + right)
    ensures InRange(n, rest) && InRange(n, left) && InRange(n, right) && InRange(n, left + right)
  {
    MultisetCons(a);
    assert a[0] in multiset(b);
    left, right := SplitAt(n, b, a[0]);
    rest := a[1..];
    CancelCommon(multiset(rest), multiset(left + right), multiset{a[0]});
  }

  lemma SplitAt(n: nat, b: seq<nat>, x: nat) returns (left: seq<nat>, right: seq<nat>)
    requires x in multiset(b) && InRange(n, b)
    ensures b == left + ([x] + right) && multiset(b) == multiset(left + right) + multiset{x}
    ensures x < n && InRange(n, left) && InRange(n, right) && InRange(n, left + right)
  {
    var k :| 0 <= k < |b| && b[k] == x;
    left, right := b[..k], b[k + 1..];
    assert b == left + ([x] + right);
  }

  /** The two sides of a step back by one entry. */
  ghost function NextAndSelf(es: seq<Entry>, k: nat, n: nat): multiset<nat>
    requires n <= |es|
  {
    multiset(Frontier(es, k + 1, n)) + multiset{k}
  }

  ghost function HereAndKids(es: seq<Entry>, k: nat, n: nat): multiset<nat>
    requires k < n <= |es|
  {
    multiset(Frontier(es, k, n)) + multiset(Kids(es, k, n))
  }

  /** Stepping back one entry trades its children for the entry itself. */
  lemma {:induction false} FrontierStep(es: seq<Entry>, k: nat, n: nat)
    requires Ordered(es) && k < n <= |es|
    ensures NextAndSelf(es, k, n) == HereAndKids(es, k, n)
  {
    if n == k + 1 {
      FrontierFirst(es, k, n);
    } else {
      FrontierStep(es, k, n - 1);
      FrontierNext(es, k, n);
    }
  }

  lemma FrontierFirst(es: seq<Entry>, k: nat, n: nat)
    requires Ordered(es) && k < n == k + 1 <= |es|
    ensures NextAndSelf(es, k, n) == HereAndKids(es, k, n)
  {
    NoKidsBefore(es, k, n);
    assert !HasParentFrom(es, k, k);
    assert Frontier(es, k, k) == [];
    assert Frontier(es, k, n) == [k];
  }

  lemma FrontierNext(es: seq<Entry>, k: nat, n: nat)
    requires Ordered(es) && k + 1 < n <= |es|
    requires NextAndSelf(es, k, n - 1) == HereAndKids(es, k, n - 1)
    ensures NextAndSelf(es, k, n) == HereAndKids(es, k, n)
  {
    var j := n - 1;
    var free, kid := !HasParentFrom(es, k + 1, j), es[j].parentId == Some(es[k].id);
    ParentCases(es, k, j);
    TradeOne(Frontier(es, k + 1, j), Frontier(es, k, j), Kids(es, k, j), k, j, free, kid);
    assert Frontier(es, k + 1, n) == Frontier(es, k + 1, j) + if free then [j] else [];
    assert Frontier(es, k, n) == Frontier(es, k, j) + if free && !kid then [j] else [];
    assert Kids(es, k, n) == Kids(es, k, j) + if kid then [j] else [];
  }

  lemma TradeOne(next: seq<nat>, here: seq<nat>, kids: seq<nat>, k: nat, j: nat, free: bool, kid: bool)
    requires multiset(next) + multiset{k} == multiset(here) + multiset(kids)
    requires kid ==> free
    ensures multiset(next + if free then [j] else []) + multiset{k}
         == multiset(here + if free && !kid then [j] else []) + multiset(kids + if kid then [j] else [])
  {
    MultisetSnoc(next, j);
    MultisetSnoc(here, j);
    MultisetSnoc(kids, j);
    assert next + [] == next && here + [] == here && kids + [] == kids;
    MultisetShift(multiset(next), multiset(here), multiset(kids), k, j);
  }

  lemma MultisetSnoc<T>(s: seq<T>, x: T)
    ensures multiset(s + [x]) == multiset(s) + multiset{x}
  {
  }

  lemma MultisetCons<T>(s: seq<T>)
    requires s != []
    ensures s == [s[0]] + s[1..] && multiset(s) == multiset(s[1..]) + multiset{s[0]}
  {
    assert s == [s[0]] + s[1..];
  }

  lemma MultisetShift<T>(a: multiset<T>, b: multiset<T>, c: multiset<T>, x: T, y: T)
    requires a + multiset{x} == b + c
    ensures (a + multiset{y}) + multiset{x} == (b + multiset{y}) + c
    ensures (a + multiset{y}) + multiset{x} == b + (c + multiset{y})
  {
    forall e ensures (a + multiset{y} + multiset{x})[e] == (b + multiset{y} + c)[e]
             ensures (a + multiset{y} + multiset{x})[e] == (b + (c + multiset{y}))[e]
    {
      assert (a + multiset{x})[e] == (b + c)[e];
    }
    assert a + multiset{y} + multiset{x} == b + multiset{y} + c;
  }

  lemma {:induction false} NoKidsBefore(es: seq<Entry>, k: nat, n: nat)
    requires Ordered(es) && n <= k + 1 <= |es|
    ensures Kids(es, k, n) == []
  {
    if n > 0 {
      NoKidsBefore(es, k, n - 1);
    }
  }

  lemma ParentCases(es: seq<Entry>, k: nat, j: nat)
    requires Ordered(es) && k < j < |es|
    ensures HasParentFrom(es, k, j) <==> HasParentFrom(es, k + 1, j) || es[j].parentId == Some(es[k].id)
    ensures !(HasParentFrom(es, k + 1, j) && es[j].parentId == Some(es[k].id))
  {
  }

  lemma FrontierTrade(es: seq<Entry>, children: seq<seq<nat>>, marks: Labelling, k: nat)
    requires Ordered(es) && ChildLists(es, children) && Descending(children) && k < |es|
    requires InRange(|es|, Frontier(es, k, |es|)) && InRange(|es|, Frontier(es, k + 1, |es|))
    ensures Below(es, children, marks, Frontier(es, k, |es|))
         == Below(es, children, marks, Frontier(es, k + 1, |es|)) + multiset{es[k]}
  {
    var n := |es|;
    var next, here, kids := Frontier(es, k + 1, n), Frontier(es, k, n), Kids(es, k, n);
    KidsInRange(es, k, n);
    FrontierStep(es, k, n);
    assert multiset(next + [k]) == multiset(here + kids);
    TradeBelow(es, children, marks, k, next, here, kids);
  }

  lemma TradeBelow(
    es: seq<Entry>, children: seq<seq<nat>>, marks: Labelling, k: nat, next: seq<nat>, here: seq<nat>, kids: seq<nat>)
    requires |children| == |es| && Descending(children) && k < |es|
    requires InRange(|es|, next) && InRange(|es|, here) && InRange(|es|, kids)
    requires multiset(children[k]) == multiset(kids) && multiset(next + [k]) == multiset(here + kids)
    ensures Below(es, children, marks, here) == Below(es, children, marks, next) + multiset{es[k]}
  {
    BelowOne(es, children, marks, k);
    BelowPermuted(es, children, marks, children[k], kids);
    BelowPermuted(es, children, marks, next + [k], here + kids);
    BelowConcat(es, children, marks, next, [k]);
    BelowConcat(es, children, marks, here, kids);
    CancelThrough(Below(es, children, marks, here), Below(es, children, marks, next), es[k],
                  Below(es, children, marks, kids));
  }

  lemma CancelThrough<T>(here: multiset<T>, next: multiset<T>, x: T, kids: multiset<T>)
    requires next + (multiset{x} + kids) == here + kids
    ensures here == next + multiset{x}
  {
    CancelCommon(here, next + multiset{x}, kids);
  }

  lemma SuffixStep<T>(s: seq<T>, k: nat)
    requires k < |s|
    ensures multiset(s[k..]) == multiset(s[k + 1..]) + multiset{s[k]}
  {
    assert s[k..] == [s[k]] + s[k + 1..];
  }

  lemma {:induction false} FrontierCoversSuffix(es: seq<Entry>, children: seq<seq<nat>>, marks: Labelling, k: nat)
    requires Ordered(es) && ChildLists(es, children) && Descending(children) && k <= |es|
    ensures InRange(|es|, Frontier(es, k, |es|))
    ensures Below(es, children, marks, Frontier(es, k, |es|)) == multiset(es[k..])
    decreases |es| - k
  {
    FrontierInRange(es, k, |es|);
    if k < |es| {
      FrontierCoversSuffix(es, children, marks, k + 1);
      FrontierTrade(es, children, marks, k);
      SuffixStep(es, k);
    } else {
      assert GrowAll(es, children, marks, []) == [];
    }
  }

  lemma CancelCommon<T>(a: multiset<T>, b: multiset<T>, c: multiset<T>)
    requires a + c == b + c
    ensures a == b
  {
    assert (a + c) - c == a && (b + c) - c == b;
  }

  /** Flattening the tree gives back every entry of the log exactly once. */
  lemma TreeHoldsEveryEntryOnce(es: seq<Entry>, children: seq<seq<nat>>, marks: Labelling)
    requires Ordered(es) && ChildLists(es, children) && Descending(children)
    ensures InRange(|es|, Frontier(es, 0, |es|))
    ensures multiset(Flatten(GrowAll(es, children, marks, Frontier(es, 0, |es|)))) == multiset(es)
  {
    FrontierCoversSuffix(es, children, marks, 0);
    assert es[0..] == es;
  }

  /** Every way down from a root spells the path of the log to the node it reaches. */
  ghost predicate PathsAgree(es: seq<Entry>, above: seq<Entry>, node: Node)
    decreases node
  {
    && above + [node.entry] == Ancestry(es, Some(node.entry.id))
    && forall k | 0 <= k < |node.children| :: PathsAgree(es, above + [node.entry], node.children[k])
  }

  lemma {:induction false} GrownPathsAgree(es: seq<Entry>, children: seq<seq<nat>>, marks: Labelling, i: nat)
    requires Ordered(es) && ChildLists(es, children) && Descending(children) && i < |es|
    ensures PathsAgree(es, Ancestry(es, es[i].parentId), Grow(es, children, marks, i))
    decreases |es| - i
  {
    var node := Grow(es, children, marks, i);
    IndexLookup(es, i);
    AncestryUnfold(es, es[i].id);
    forall k | 0 <= k < |node.children| ensures PathsAgree(es, Ancestry(es, Some(es[i].id)), node.children[k]) {
      ChildIsKid(es, children, i, k);
      GrownPathsAgree(es, children, marks, children[i][k]);
    }
  }

  /** A root is an entry whose parent is not in the log, so the way down to it is its whole path. */
  lemma RootHasNothingAbove(es: seq<Entry>, j: nat)
    requires j < |es| && !HasParentFrom(es, 0, j)
    ensures Ancestry(es, es[j].parentId) == []
  {
    if es[j].parentId.Some? {
      IndexDomain(es, es[j].parentId.value);
      AncestryMissing(es, es[j].parentId.value);
    }
  }

  lemma TreePathsAreBranches(es: seq<Entry>, children: seq<seq<nat>>, marks: Labelling, k: nat)
    requires Ordered(es) && ChildLists(es, children) && Descending(children)
    requires k < |Frontier(es, 0, |es|)|
    ensures InRange(|es|, Frontier(es, 0, |es|))
    ensures PathsAgree(es, [], GrowAll(es, children, marks, Frontier(es, 0, |es|))[k])
  {
    var j := Frontier(es, 0, |es|)[k];
    FrontierInRange(es, 0, |es|);
    FrontierMember(es, 0, |es|, j);
    RootHasNothingAbove(es, j);
    GrownPathsAgree(es, children, marks, j);
  }

  lemma {:induction false} RootsInLogOrder(es: seq<Entry>, k: nat, n: nat)
    requires n <= |es|
    ensures forall a, b | 0 <= a < b < |Frontier(es, k, n)| :: Frontier(es, k, n)[a] < Frontier(es, k, n)[b]
  {
    if n > k {
      RootsInLogOrder(es, k, n - 1);
      FrontierInRange(es, k, n - 1);
    }
  }

  /** Nodes carry the label of their entry and its time, and have their children below them, oldest first. */
  ghost predicate Dressed(labels: map<Id, string>, times: map<Id, int>, node: Node)
    decreases node
  {
    && node.nodeLabel == (if node.entry.id in labels then Some(labels[node.entry.id]) else None)
    && node.labelTimestamp == (if node.entry.id in times then Some(times[node.entry.id]) else None)
    && (forall k | 0 <= k < |node.children| :: node.children[k].entry.parentId == Some(node.entry.id))
    && (forall j, k | 0 <= j < k < |node.children| ::
          node.children[j].entry.timestamp <= node.children[k].entry.timestamp)
    && forall k | 0 <= k < |node.children| :: Dressed(labels, times, node.children[k])
  }

  lemma {:induction false} GrownDressed(es: seq<Entry>, children: seq<seq<nat>>, marks: Labelling, i: nat)
    requires ChildLists(es, children) && Descending(children) && i < |es|
    requires forall p | 0 <= p < |es| :: InTimeOrder(es, children[p])
    ensures Dressed(marks.labels, marks.times, Grow(es, children, marks, i))
    decreases |es| - i
  {
    var node := Grow(es, children, marks, i);
    forall k | 0 <= k < |node.children|
      ensures node.children[k].entry == es[children[i][k]] && es[children[i][k]].parentId == Some(es[i].id)
      ensures Dressed(marks.labels, marks.times, node.children[k])
    {
      ChildIsKid(es, children, i, k);
      GrownDressed(es, children, marks, children[i][k]);
    }
    forall j, k | 0 <= j < k < |node.children|
      ensures node.children[j].entry.timestamp <= node.children[k].entry.timestamp
    {
      assert Before(es, children[i][j], children[i][k]);
    }
  }

  // ---------------------------------------------------------------------------------------------
  // The loops that build it
  // ---------------------------------------------------------------------------------------------

  /** First the child lists and the roots, in log order. */
  method Link(entries: seq<Entry>) returns (roots: seq<nat>, children: seq<seq<nat>>)
    requires Ordered(entries)
    ensures roots == Frontier(entries, 0, |entries|)
    ensures |children| == |entries|
    ensures forall p | 0 <= p < |entries| :: children[p] == Kids(entries, p, |entries|)
  {
    var nodeMap: map<Id, nat> := map[];
    children := [];
    for i := 0 to |entries|
      invariant |children| == i && forall p | 0 <= p < i :: children[p] == []
      invariant forall p | 0 <= p < i :: entries[p].id in nodeMap
      invariant forall id | id in nodeMap :: nodeMap[id] < i && entries[nodeMap[id]].id == id
    {
      nodeMap := nodeMap[entries[i].id := i];
      children := children + [[]];
    }
    roots := [];
    for i := 0 to |entries|
      invariant |children| == |entries|
      invariant forall p | 0 <= p < |entries| :: children[p] == Kids(entries, p, i)
      invariant roots == Frontier(entries, 0, i)
    {
      var entry := entries[i];
      if entry.parentId.None? || entry.parentId.value == entry.id {
        roots := roots + [i];
      } else if entry.parentId.value in nodeMap {
        var parent := nodeMap[entry.parentId.value];
        assert entries[i].parentId == Some(entries[parent].id);
        children := children[parent := children[parent] + [i]];
      } else {
        roots := roots + [i];
      }
    }
  }

  ghost function SortedKids(es: seq<Entry>): (children: seq<seq<nat>>)
    ensures |children| == |es|
  {
    seq(|es|, p requires 0 <= p < |es| => SortByTime(es, Kids(es, p, |es|)))
  }

  lemma SortedKidsAreChildLists(es: seq<Entry>)
    ensures ChildLists(es, SortedKids(es))
    ensures Ordered(es) ==> Descending(SortedKids(es))
  {
    forall p | 0 <= p < |es| ensures multiset(SortedKids(es)[p]) == multiset(Kids(es, p, |es|)) {
      SortPermutes(es, Kids(es, p, |es|));
    }
    if Ordered(es) { ChildListsDescend(es, SortedKids(es)); }
  }

  lemma DressedTree(es: seq<Entry>, marks: Labelling, i: nat)
    requires i < |es| && ChildLists(es, SortedKids(es)) && Descending(SortedKids(es))
    ensures Dressed(marks.labels, marks.times, Grow(es, SortedKids(es), marks, i))
  {
    forall p | 0 <= p < |es| ensures InTimeOrder(es, SortedKids(es)[p]) {
      SortedKidsInOrder(es, p, |es|);
    }
    GrownDressed(es, SortedKids(es), marks, i);
  }

  lemma DistinctOnce(es: seq<Entry>, e: Entry)
    requires Distinct(es)
    ensures multiset(es)[e] <= 1
  {
    if es != [] {
      DistinctOnce(Front(es), e);
      assert es == Front(es) + [Last(es)];
      if e == Last(es) {
        assert e !in Front(es);
        assert e !in multiset(Front(es));
      }
    }
  }

  /** The entries still to be visited are exactly those whose children are not sorted yet. */
  ghost predicate Unvisited(es: seq<Entry>, children: seq<seq<nat>>, left: multiset<Entry>)
    requires |children| == |es|
  {
    && (forall p | 0 <= p < |es| ::
          children[p] == if es[p] in left then Kids(es, p, |es|) else SortedKids(es)[p])
    && forall e :: left[e] <= 1
  }

  lemma VisitOne(es: seq<Entry>, children: seq<seq<nat>>, left: multiset<Entry>, rest: multiset<Entry>, i: nat)
    requires |children| == |es| && Distinct(es) && Unvisited(es, children, left)
    requires i < |es| && left == rest + multiset{es[i]}
    ensures Unvisited(es, children[i := SortedKids(es)[i]], rest)
    ensures children[i] == Kids(es, i, |es|) && |rest| < |left|
  {
    assert left[es[i]] <= 1;
    assert es[i] !in rest;
    forall p | 0 <= p < |es| && p != i ensures es[p] in rest <==> es[p] in left {
      assert es[p].id != es[i].id;
    }
    assert forall e :: rest[e] <= left[e];
  }

  lemma BelowVisited(es: seq<Entry>, children: seq<seq<nat>>, marks: Labelling, rest: seq<nat>, node: nat)
    requires |children| == |es| && Descending(children) && InRange(|es|, rest) && node < |es|
    ensures InRange(|es|, rest + children[node])
    ensures Below(es, children, marks, rest + [node])
         == Below(es, children, marks, rest + children[node]) + multiset{es[node]}
  {
    BelowOne(es, children, marks, node);
    BelowConcat(es, children, marks, rest, [node]);
    BelowConcat(es, children, marks, rest, children[node]);
  }

  lemma VisitNext(es: seq<Entry>, children: seq<seq<nat>>, marks: Labelling, stack: seq<nat>)
    requires Ordered(es) && |children| == |es| && stack != [] && InRange(|es|, stack)
    requires Descending(SortedKids(es)) && Unvisited(es, children, Below(es, SortedKids(es), marks, stack))
    ensures var node := Last(stack);
            var next := Front(stack) + SortedKids(es)[node];
            && children[node] == Kids(es, node, |es|)
            && InRange(|es|, next)
            && Unvisited(es, children[node := SortedKids(es)[node]], Below(es, SortedKids(es), marks, next))
            && |Below(es, SortedKids(es), marks, next)| < |Below(es, SortedKids(es), marks, stack)|
  {
    var sorted, node := SortedKids(es), Last(stack);
    SplitLast(stack);
    BelowVisited(es, sorted, marks, Front(stack), node);
    VisitOne(es, children, Below(es, sorted, marks, stack), Below(es, sorted, marks, Front(stack) + sorted[node]),
             node);
  }

  lemma VisitFirst(es: seq<Entry>, linked: seq<seq<nat>>, marks: Labelling)
    requires Ordered(es) && |linked| == |es| && forall p | 0 <= p < |es| :: linked[p] == Kids(es, p, |es|)
    ensures Descending(SortedKids(es)) && InRange(|es|, Frontier(es, 0, |es|))
    ensures Unvisited(es, linked, Below(es, SortedKids(es), marks, Frontier(es, 0, |es|)))
  {
    SortedKidsAreChildLists(es);
    TreeHoldsEveryEntryOnce(es, SortedKids(es), marks);
    forall e ensures multiset(es)[e] <= 1 { DistinctOnce(es, e); }
  }

  lemma VisitedAll(es: seq<Entry>, children: seq<seq<nat>>, marks: Labelling)
    requires |children| == |es| && Descending(SortedKids(es))
    requires Unvisited(es, children, Below(es, SortedKids(es), marks, []))
    ensures children == SortedKids(es)
  {
    assert GrowAll(es, SortedKids(es), marks, []) == [];
  }

  /** Then every list of children is sorted, with a stack of nodes still to visit. */
  method SortAll(entries: seq<Entry>, roots: seq<nat>, linked: seq<seq<nat>>, ghost marks: Labelling)
    returns (children: seq<seq<nat>>)
    requires Ordered(entries) && roots == Frontier(entries, 0, |entries|)
    requires |linked| == |entries| && forall p | 0 <= p < |entries| :: linked[p] == Kids(entries, p, |entries|)
    ensures children == SortedKids(entries)
  {
    VisitFirst(entries, linked, marks);
    children := linked;
    var stack := roots;
    while |stack| > 0
      invariant |children| == |entries| && InRange(|entries|, stack)
      invariant Unvisited(entries, children, Below(entries, SortedKids(entries), marks, stack))
      decreases |Below(entries, SortedKids(entries), marks, stack)|
    {
      var node := Last(stack);
      VisitNext(entries, children, marks, stack);
      children := children[node := SortByTime(entries, children[node])];
      stack := Front(stack) + children[node];
    }
    VisitedAll(entries, children, marks);
  }

  /**
   The tree of a session. It holds every entry exactly once, the way down to a node is the branch of
   that node, and the children of each node are those the log gives it, oldest first.
   */
  method GetTree(entries: seq<Entry>, labelsById: map<Id, string>, labelTimestampsById: map<Id, int>)
    returns (tree: seq<Node>)
    requires Ordered(entries)
    ensures multiset(Flatten(tree)) == multiset(entries)
    ensures forall k | 0 <= k < |tree| :: PathsAgree(entries, [], tree[k])
    ensures forall k | 0 <= k < |tree| :: Dressed(labelsById, labelTimestampsById, tree[k])
    ensures ChildLists(entries, SortedKids(entries)) && Descending(SortedKids(entries))
    ensures InRange(|entries|, Frontier(entries, 0, |entries|))
    ensures tree == GrowAll(entries, SortedKids(entries), Labelling(labelsById, labelTimestampsById),
                            Frontier(entries, 0, |entries|))
  {
    var marks := Labelling(labelsById, labelTimestampsById);
    var roots, linked := Link(entries);
    var children := SortAll(entries, roots, linked, marks);
    SortedKidsAreChildLists(entries);
    TreeHoldsEveryEntryOnce(entries, children, marks);
    tree := GrowAll(entries, children, marks, roots);
    forall k | 0 <= k < |tree| ensures PathsAgree(entries, [], tree[k]) {
      TreePathsAreBranches(entries, children, marks, k);
    }
    forall k | 0 <= k < |tree| ensures Dressed(labelsById, labelTimestampsById, tree[k]) {
      DressedTree(entries, marks, roots[k]);
    }
  }
}
