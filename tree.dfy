/**
 * The tree utilities of the quark compiler (quarkc/tree.py): partitioning
 * a collection by predicates, depth- and breadth-first walks, the parent
 * map a `Query` records for a tree, and the shared indentation counter.
 */
module Tree {
  import opened Wrappers

  // ---------------------------------------------------------------------
  // split

  /** `assert pred` failing on no predicates; an element no predicate takes when there is no catch-all. */
  datatype SplitError = NoPredicates | Unmatched

  /** The predicates `split` tries: those given, plus a catch-all unless the last one given was `None`. */
  function Predicates<T>(preds: seq<T -> bool>, withRest: bool): seq<T -> bool>
  {
    if withRest then preds + [(x: T) => true] else preds
  }

  /** The index of the first predicate `x` satisfies, `|ps|` when there is none. */
  function FirstMatch<T>(ps: seq<T -> bool>, x: T): (i: nat)
    ensures i <= |ps|
    ensures i < |ps| ==> ps[i](x)
    ensures forall k :: 0 <= k < i ==> !ps[k](x)
  {
    if ps == [] then 0
    else if ps[0](x) then 0
    else 1 + FirstMatch(ps[1..], x)
  }

  /** The elements of `coll` whose first satisfied predicate is the `i`-th, in their order. */
  function Group<T>(coll: seq<T>, ps: seq<T -> bool>, i: nat): seq<T>
  {
    if coll == [] then []
    else
      Group(coll[..|coll| - 1], ps, i) +
      (if FirstMatch(ps, coll[|coll| - 1]) == i then [coll[|coll| - 1]] else [])
  }

  /**
   * `split(coll, *pred)`: one group per predicate tried; each element goes
   * to the group of the first predicate it satisfies.
   */
  method Split<T>(coll: seq<T>, preds: seq<T -> bool>, withRest: bool) returns (r: Result<seq<seq<T>>, SplitError>)
    ensures withRest && preds == [] ==> r == Err(NoPredicates)
    ensures !(withRest && preds == []) ==>
      var ps := Predicates(preds, withRest);
      (r.Ok? <==> forall j :: 0 <= j < |coll| ==> FirstMatch(ps, coll[j]) < |ps|) &&
      (r.Ok? ==> |r.value| == |ps| && forall i :: 0 <= i < |ps| ==> r.value[i] == Group(coll, ps, i)) &&
      (r.Err? ==> r.error == Unmatched)
  {
    if withRest && preds == [] {
      return Err(NoPredicates);
    }
    var ps := Predicates(preds, withRest);
    var ret: seq<seq<T>> := seq(|ps|, _ => []);
    var j := 0;
    while j < |coll|
      invariant 0 <= j <= |coll| && |ret| == |ps|
      invariant forall i :: 0 <= i < |ps| ==> ret[i] == Group(coll[..j], ps, i)
      invariant forall k :: 0 <= k < j ==> FirstMatch(ps, coll[k]) < |ps|
    {
      var el := coll[j];
      var i := FindMatch(ps, el);
      if i == |ps| {
        return Err(Unmatched);
      }
      GroupsStep(coll, ps, j, ret, i, ret[i := ret[i] + [el]]);
      ret := ret[i := ret[i] + [el]];
      j := j + 1;
    }
    assert coll[..j] == coll;
    return Ok(ret);
  }

  /** The inner loop of `split`: the predicates tried in order until one takes `el`. */
  method FindMatch<T>(ps: seq<T -> bool>, el: T) returns (i: nat)
    ensures i == FirstMatch(ps, el)
  {
    i := 0;
    while i < |ps| && !ps[i](el)
      invariant 0 <= i <= |ps|
      invariant forall k :: 0 <= k < i ==> !ps[k](el)
    {
      i := i + 1;
    }
  }

  /** Adding `coll[j]` to the group of its first predicate turns the groups of `coll[..j]` into those of `coll[..j + 1]`. */
  lemma GroupsStep<T>(coll: seq<T>, ps: seq<T -> bool>, j: nat, ret: seq<seq<T>>, m: nat, ret': seq<seq<T>>)
    requires j < |coll| && m == FirstMatch(ps, coll[j]) && m < |ps| && |ret| == |ps|
    requires forall i :: 0 <= i < |ps| ==> ret[i] == Group(coll[..j], ps, i)
    requires ret' == ret[m := ret[m] + [coll[j]]]
    ensures forall i :: 0 <= i < |ps| ==> ret'[i] == Group(coll[..j + 1], ps, i)
  {
    var pre := coll[..j + 1];
    assert pre[..|pre| - 1] == coll[..j] && pre[|pre| - 1] == coll[j];
  }

  /** With a catch-all, no element is left over. */
  lemma CatchAllTakesEverything<T>(preds: seq<T -> bool>, x: T)
    ensures FirstMatch(Predicates(preds, true), x) < |preds| + 1
  {
    var ps := Predicates(preds, true);
    assert ps[|preds|](x);
  }

  /** An element is in group `i` exactly when it is in the collection and `i` is its first satisfied predicate. */
  lemma {:induction false} GroupMembers<T>(coll: seq<T>, ps: seq<T -> bool>, i: nat, x: T)
    ensures x in Group(coll, ps, i) <==> x in coll && FirstMatch(ps, x) == i
    decreases |coll|
  {
    if coll != [] {
      var init := coll[..|coll| - 1];
      GroupMembers(init, ps, i, x);
      assert coll == init + [coll[|coll| - 1]];
    }
  }

  /** Sizes of the groups `0..n-1`. */
  function Total<T>(coll: seq<T>, ps: seq<T -> bool>, n: nat): nat
  {
    if n == 0 then 0 else Total(coll, ps, n - 1) + |Group(coll, ps, n - 1)|
  }

  lemma {:induction false} TotalSnoc<T>(coll: seq<T>, ps: seq<T -> bool>, x: T, n: nat)
    ensures Total(coll + [x], ps, n) == Total(coll, ps, n) + (if FirstMatch(ps, x) < n then 1 else 0)
    decreases n
  {
    if n > 0 {
      TotalSnoc(coll, ps, x, n - 1);
      assert (coll + [x])[..|coll + [x]| - 1] == coll;
    }
  }

  /** When every element is taken, the group sizes add up to the size of the collection. */
  lemma {:induction false} GroupSizes<T>(coll: seq<T>, ps: seq<T -> bool>)
    requires forall j :: 0 <= j < |coll| ==> FirstMatch(ps, coll[j]) < |ps|
    ensures Total(coll, ps, |ps|) == |coll|
    decreases |coll|
  {
    if coll == [] {
      TotalEmpty(ps, |ps|);
    } else {
      var init := coll[..|coll| - 1];
      GroupSizes(init, ps);
      TotalSnoc(init, ps, coll[|coll| - 1], |ps|);
      assert init + [coll[|coll| - 1]] == coll;
    }
  }

  lemma {:induction false} TotalEmpty<T>(ps: seq<T -> bool>, n: nat)
    ensures Total([], ps, n) == 0
  {
    if n > 0 {
      TotalEmpty(ps, n - 1);
    }
  }

  // ---------------------------------------------------------------------
  // Trees and walks

  /** A tree node: its identity (Python's `id`), its class and its children. */
  datatype Node = Node(id: nat, kind: string, children: seq<Node>)

  function Size(n: Node): nat
    decreases n
  {
    1 + SizeAll(n.children)
  }

  function SizeAll(ns: seq<Node>): nat
    decreases ns
  {
    if ns == [] then 0 else Size(ns[0]) + SizeAll(ns[1..])
  }

  lemma {:induction false} SizeAllConcat(a: seq<Node>, b: seq<Node>)
    ensures SizeAll(a + b) == SizeAll(a) + SizeAll(b)
    decreases |a|
  {
    if a == [] {
      assert a + b == b;
    } else {
      assert (a + b)[1..] == a[1..] + b;
      SizeAllConcat(a[1..], b);
    }
  }

  /** Preorder, children left to right. */
  function Preorder(n: Node): seq<Node>
    decreases n
  {
    [n] + PreorderAll(n.children)
  }

  function PreorderAll(ns: seq<Node>): seq<Node>
    decreases ns
  {
    if ns == [] then [] else Preorder(ns[0]) + PreorderAll(ns[1..])
  }

  lemma {:induction false} PreorderAllConcat(a: seq<Node>, b: seq<Node>)
    ensures PreorderAll(a + b) == PreorderAll(a) + PreorderAll(b)
    decreases |a|
  {
    if a == [] {
      assert a + b == b;
    } else {
      assert (a + b)[1..] == a[1..] + b;
      PreorderAllConcat(a[1..], b);
    }
  }

  /** `deque.extendleft(xs)`: each element in turn goes to the front. */
  function ExtendLeft(q: seq<Node>, xs: seq<Node>): seq<Node>
    decreases |xs|
  {
    if xs == [] then q else ExtendLeft([xs[0]] + q, xs[1..])
  }

  function Reversed(xs: seq<Node>): seq<Node>
  {
    if xs == [] then [] else Reversed(xs[1..]) + [xs[0]]
  }

  /** Pushing the reversed children on the left puts them in front in their own order. */
  lemma {:induction false} ExtendLeftReversed(q: seq<Node>, xs: seq<Node>)
    ensures ExtendLeft(q, Reversed(xs)) == xs + q
    decreases |xs|
  {
    if xs != [] {
      ExtendLeftSnoc(q, Reversed(xs[1..]), xs[0]);
      ExtendLeftReversed(q, xs[1..]);
      assert [xs[0]] + (xs[1..] + q) == xs + q by {
        assert xs == [xs[0]] + xs[1..];
      }
    }
  }

  lemma {:induction false} ExtendLeftSnoc(q: seq<Node>, xs: seq<Node>, x: Node)
    ensures ExtendLeft(q, xs + [x]) == [x] + ExtendLeft(q, xs)
    decreases |xs|
  {
    if xs == [] {
      assert ([] + [x])[1..] == [];
    } else {
      assert (xs + [x])[0] == xs[0] && (xs + [x])[1..] == xs[1..] + [x];
      ExtendLeftSnoc([xs[0]] + q, xs[1..], x);
    }
  }

  /** `walk_dfs(tree)`: the nodes in preorder, children left to right. */
  method WalkDfs(tree: Node) returns (order: seq<Node>)
    ensures order == Preorder(tree)
  {
    var pending := [tree];
    order := [];
    assert PreorderAll(pending) == Preorder(tree) + [];
    while pending != []
      invariant order + PreorderAll(pending) == Preorder(tree)
      decreases SizeAll(pending)
    {
      var node := pending[0];
      var rest := pending[1..];
      assert SizeAll(pending) == Size(node) + SizeAll(rest);
      order := order + [node];
      ExtendLeftReversed(rest, node.children);
      PreorderAllConcat(node.children, rest);
      SizeAllConcat(node.children, rest);
      pending := ExtendLeft(rest, Reversed(node.children));
    }
  }

  /** The children of all of `ns`, in order: the next level down. */
  function ChildrenAll(ns: seq<Node>): seq<Node>
  {
    if ns == [] then [] else ns[0].children + ChildrenAll(ns[1..])
  }

  lemma {:induction false} SizeAllLevels(ns: seq<Node>)
    ensures SizeAll(ns) == |ns| + SizeAll(ChildrenAll(ns))
    decreases |ns|
  {
    if ns != [] {
      SizeAllLevels(ns[1..]);
      SizeAllConcat(ns[0].children, ChildrenAll(ns[1..]));
    }
  }

  /** Level order: a level, then the level its children make, and so on down. */
  function LevelOrder(ns: seq<Node>): seq<Node>
    decreases SizeAll(ns)
  {
    if ns == [] then []
    else
      SizeAllLevels(ns);
      ns + LevelOrder(ChildrenAll(ns))
  }

  /** The queue discipline of `walk_bfs`: take from the front, append the children at the back. */
  function BfsFrom(q: seq<Node>): seq<Node>
    decreases SizeAll(q)
  {
    if q == [] then []
    else
      SizeAllConcat(q[1..], q[0].children);
      assert SizeAll(q) == Size(q[0]) + SizeAll(q[1..]);
      [q[0]] + BfsFrom(q[1..] + q[0].children)
  }

  /** Draining a queue that holds one whole level yields the level order from it. */
  lemma {:induction false} BfsDrain(c: seq<Node>)
    ensures BfsFrom(c) == LevelOrder(c)
    decreases SizeAll(c), 0
  {
    if c != [] {
      var y := c[0];
      assert SizeAll(c) == Size(y) + SizeAll(c[1..]);
      BfsLevels(c[1..], y.children);
      BfsUnfold(c);
      LevelOrderUnfold(c);
      ConsFront(c, LevelOrder(y.children + ChildrenAll(c[1..])));
    }
  }

  /** A queue holding the rest of one level and part of the next is drained level by level. */
  lemma {:induction false} BfsLevels(a: seq<Node>, c: seq<Node>)
    ensures BfsFrom(a + c) == a + LevelOrder(c + ChildrenAll(a))
    decreases SizeAll(a) + SizeAll(c), 1
  {
    if a == [] {
      assert a + c == c && c + ChildrenAll(a) == c;
      BfsDrain(c);
    } else {
      var x := a[0];
      SizeAllConcat(a, c);
      SizeAllConcat(c, x.children);
      assert SizeAll(a) == Size(x) + SizeAll(a[1..]);
      BfsLevels(a[1..], c + x.children);
      BfsStep(a, c);
      ChildrenStep(a, c);
    }
  }

  lemma BfsStep(a: seq<Node>, c: seq<Node>)
    requires a != []
    ensures BfsFrom(a + c) == [a[0]] + BfsFrom(a[1..] + (c + a[0].children))
  {
    var q := a + c;
    BfsUnfold(q);
    assert q[0] == a[0];
    assert q[1..] + q[0].children == a[1..] + (c + a[0].children) by {
      assert q[1..] == a[1..] + c;
    }
  }

  /** Taking one node off the queue and queueing its children keeps what is visited plus what is still to come. */
  lemma QueueStep(done: seq<Node>, pending: seq<Node>, t: Node)
    requires pending != [] && done + BfsFrom(pending) == BfsFrom([t])
    ensures (done + [pending[0]]) + BfsFrom(pending[1..] + pending[0].children) == BfsFrom([t])
  {
    BfsUnfold(pending);
    assert done + ([pending[0]] + BfsFrom(pending[1..] + pending[0].children)) ==
      (done + [pending[0]]) + BfsFrom(pending[1..] + pending[0].children);
  }

  lemma BfsUnfold(q: seq<Node>)
    requires q != []
    ensures BfsFrom(q) == [q[0]] + BfsFrom(q[1..] + q[0].children)
  {
  }

  lemma ChildrenStep(a: seq<Node>, c: seq<Node>)
    requires a != []
    ensures [a[0]] + (a[1..] + LevelOrder(c + a[0].children + ChildrenAll(a[1..]))) == a + LevelOrder(c + ChildrenAll(a))
  {
    ChildrenAllUnfold(a);
    assert c + a[0].children + ChildrenAll(a[1..]) == c + ChildrenAll(a);
    ConsFront(a, LevelOrder(c + ChildrenAll(a)));
  }

  lemma ChildrenAllUnfold(a: seq<Node>)
    requires a != []
    ensures ChildrenAll(a) == a[0].children + ChildrenAll(a[1..])
  {
  }

  lemma LevelOrderUnfold(c: seq<Node>)
    requires c != []
    ensures LevelOrder(c) == c + LevelOrder(c[0].children + ChildrenAll(c[1..]))
  {
    SizeAllLevels(c);
    ChildrenAllUnfold(c);
  }

  lemma ConsFront<T>(a: seq<T>, l: seq<T>)
    requires a != []
    ensures [a[0]] + (a[1..] + l) == a + l
  {
    assert a == [a[0]] + a[1..];
  }

  /** `walk_bfs(tree)`: the nodes in level order. */
  method WalkBfs(tree: Node) returns (order: seq<Node>)
    ensures order == LevelOrder([tree])
  {
    var pending := [tree];
    order := [];
    while pending != []
      invariant order + BfsFrom(pending) == BfsFrom([tree])
      decreases SizeAll(pending)
    {
      var node := pending[0];
      assert SizeAll(pending) == Size(node) + SizeAll(pending[1..]);
      pending := pending[1..];
      order := order + [node];
      SizeAllConcat(pending, node.children);
      pending := pending + node.children;
    }
    BfsDrain([tree]);
  }

  // ---------------------------------------------------------------------
  // Heights and membership

  function Height(n: Node): nat
    decreases n
  {
    1 + HeightAll(n.children)
  }

  function HeightAll(ns: seq<Node>): (h: nat)
    ensures forall i :: 0 <= i < |ns| ==> Height(ns[i]) <= h
    decreases ns
  {
    if ns == [] then 0
    else
      var h0 := Height(ns[0]);
      var hs := HeightAll(ns[1..]);
      assert forall i :: 1 <= i < |ns| ==> ns[i] == ns[1..][i - 1];
      if h0 < hs then hs else h0
  }

  lemma ChildLower(p: Node, c: Node)
    requires c in p.children
    ensures Height(c) < Height(p)
  {
  }

  lemma {:induction false} PreorderAllMembers(ns: seq<Node>, x: Node)
    ensures x in PreorderAll(ns) <==> exists i :: 0 <= i < |ns| && x in Preorder(ns[i])
    decreases |ns|
  {
    if ns != [] {
      PreorderAllMembers(ns[1..], x);
      assert forall i :: 1 <= i < |ns| ==> ns[i] == ns[1..][i - 1];
      if x in PreorderAll(ns[1..]) {
        var i :| 0 <= i < |ns[1..]| && x in Preorder(ns[1..][i]);
        assert x in Preorder(ns[i + 1]);
      }
    }
  }

  /** Everything in a tree is at most as high as the tree, and the children of its nodes are in it too. */
  lemma {:induction false} PreorderFacts(t: Node, x: Node)
    requires x in Preorder(t)
    ensures Height(x) <= Height(t)
    ensures forall c :: c in x.children ==> c in Preorder(t)
    ensures x != t ==> exists p :: p in Preorder(t) && x in p.children
    decreases t
  {
    if x != t {
      PreorderAllMembers(t.children, x);
      var i :| 0 <= i < |t.children| && x in Preorder(t.children[i]);
      var ch := t.children[i];
      PreorderFacts(ch, x);
      assert forall y :: y in Preorder(ch) ==> y in PreorderAll(t.children) by {
        forall y | y in Preorder(ch) ensures y in PreorderAll(t.children) {
          PreorderAllMembers(t.children, y);
        }
      }
      if x == ch {
        assert t in Preorder(t) && x in t.children;
      } else {
        var p :| p in Preorder(ch) && x in p.children;
        assert p in Preorder(t);
      }
    } else {
      forall c | c in x.children ensures c in Preorder(t) {
        var i :| 0 <= i < |t.children| && t.children[i] == c;
        PreorderAllMembers(t.children, c);
        assert c in Preorder(t.children[i]);
      }
    }
  }

  lemma {:induction false} PreorderAllLevels(ns: seq<Node>, x: Node)
    ensures x in PreorderAll(ns) <==> x in ns || x in PreorderAll(ChildrenAll(ns))
    decreases |ns|
  {
    if ns != [] {
      PreorderAllLevels(ns[1..], x);
      PreorderAllConcat(ns[0].children, ChildrenAll(ns[1..]));
    }
  }

  /** The level order holds exactly the nodes of the tree. */
  lemma {:induction false} LevelOrderMembers(ns: seq<Node>, x: Node)
    ensures x in LevelOrder(ns) <==> x in PreorderAll(ns)
    decreases SizeAll(ns)
  {
    if ns != [] {
      SizeAllLevels(ns);
      LevelOrderMembers(ChildrenAll(ns), x);
      PreorderAllLevels(ns, x);
    }
  }

  lemma InTree(t: Node, x: Node)
    ensures x in LevelOrder([t]) <==> x in Preorder(t)
  {
    LevelOrderMembers([t], x);
    assert PreorderAll([t]) == Preorder(t) + [];
  }

  // ---------------------------------------------------------------------
  // The parent map of a Query

  /** `parent_memory[id(c)] = node` for each child `c` of `p`, in order. */
  function RecordChildren(p: Node, cs: seq<Node>, m: map<nat, Option<Node>>): map<nat, Option<Node>>
  {
    if cs == [] then m else RecordChildren(p, cs[..|cs| - 1], m)[cs[|cs| - 1].id := Some(p)]
  }

  /** The parent map after visiting `order`, starting from `m`. */
  function Record(order: seq<Node>, m: map<nat, Option<Node>>): map<nat, Option<Node>>
  {
    if order == [] then m
    else
      var p := order[|order| - 1];
      RecordChildren(p, p.children, Record(order[..|order| - 1], m))
  }

  lemma RecordSnoc(order: seq<Node>, p: Node, m: map<nat, Option<Node>>)
    ensures Record(order + [p], m) == RecordChildren(p, p.children, Record(order, m))
  {
    assert (order + [p])[..|order|] == order;
  }

  /** The map `Query(tree)` builds: the root to `None`, then every child to the node it was reached from. */
  function ParentMap(t: Node): map<nat, Option<Node>>
  {
    Record(LevelOrder([t]), map[t.id := None])
  }

  predicate HasChildId(p: Node, k: nat)
  {
    exists j :: 0 <= j < |p.children| && p.children[j].id == k
  }

  predicate SomeChildId(order: seq<Node>, k: nat)
  {
    exists i :: 0 <= i < |order| && HasChildId(order[i], k)
  }

  lemma {:induction false} RecordChildrenFacts(p: Node, cs: seq<Node>, m: map<nat, Option<Node>>, k: nat)
    ensures var r := RecordChildren(p, cs, m);
      (k in r <==> k in m || exists j :: 0 <= j < |cs| && cs[j].id == k) &&
      ((exists j :: 0 <= j < |cs| && cs[j].id == k) ==> r[k] == Some(p)) &&
      (k in m && (forall j :: 0 <= j < |cs| ==> cs[j].id != k) ==> r[k] == m[k])
    decreases |cs|
  {
    if cs != [] {
      var init := cs[..|cs| - 1];
      RecordChildrenFacts(p, init, m, k);
      assert forall j :: 0 <= j < |init| ==> init[j] == cs[j];
      if exists j :: 0 <= j < |cs| && cs[j].id == k {
        var j :| 0 <= j < |cs| && cs[j].id == k;
        if j < |init| {
          assert init[j].id == k;
        }
      }
    }
  }

  /**
   * What visiting nodes does to the map: a key is added for each child
   * seen, it then maps to a visited node with a child of that identity,
   * and any other key keeps its value.
   */
  lemma {:induction false} RecordFacts(order: seq<Node>, m: map<nat, Option<Node>>, k: nat)
    ensures var r := Record(order, m);
      (k in r <==> k in m || SomeChildId(order, k)) &&
      (SomeChildId(order, k) ==> r[k].Some? && r[k].value in order && HasChildId(r[k].value, k)) &&
      (k in m && !SomeChildId(order, k) ==> r[k] == m[k])
    decreases |order|
  {
    if order != [] {
      var init := order[..|order| - 1];
      var p := order[|order| - 1];
      RecordFacts(init, m, k);
      RecordChildrenFacts(p, p.children, Record(init, m), k);
      assert forall i :: 0 <= i < |init| ==> init[i] == order[i];
      if SomeChildId(order, k) && !HasChildId(p, k) {
        var i :| 0 <= i < |order| && HasChildId(order[i], k);
        assert i < |init| && HasChildId(init[i], k);
      }
      if SomeChildId(init, k) {
        var i :| 0 <= i < |init| && HasChildId(init[i], k);
        assert HasChildId(order[i], k);
      }
    }
  }

  /** Identity is object identity: two nodes of the tree with the same `id` are the same node. */
  predicate ConsistentIds(t: Node)
  {
    forall a, b :: a in Preorder(t) && b in Preorder(t) && a.id == b.id ==> a == b
  }

  /**
   * `Query(tree)` records every node of the tree: the root with no
   * parent, every other node with a node of the tree it is a child of.
   */
  lemma ParentMapFacts(t: Node)
    requires ConsistentIds(t)
    ensures forall k :: k in ParentMap(t) <==> exists x :: x in Preorder(t) && x.id == k
    ensures ParentMap(t)[t.id] == None
    ensures forall x :: x in Preorder(t) && x != t ==>
      ParentMap(t)[x.id].Some? && ParentMap(t)[x.id].value in Preorder(t) && x in ParentMap(t)[x.id].value.children
  {
    forall k ensures k in ParentMap(t) <==> exists x :: x in Preorder(t) && x.id == k {
      RecordedKey(t, k);
    }
    RootHasNoParent(t);
    forall x | x in Preorder(t) && x != t
      ensures ParentMap(t)[x.id].Some? && ParentMap(t)[x.id].value in Preorder(t) && x in ParentMap(t)[x.id].value.children
    {
      ChildIsRecorded(t, x);
    }
  }

  /** A recorded parent is a node of the tree. */
  lemma RecordedInTree(t: Node, k: nat)
    ensures Get(ParentMap(t), k).Some? ==> Get(ParentMap(t), k).value in Preorder(t)
  {
    var order := LevelOrder([t]);
    RecordFacts(order, map[t.id := None], k);
    if Get(ParentMap(t), k).Some? {
      InTree(t, Get(ParentMap(t), k).value);
    }
  }

  lemma RecordedKey(t: Node, k: nat)
    requires ConsistentIds(t)
    ensures k in ParentMap(t) <==> exists x :: x in Preorder(t) && x.id == k
  {
    var order := LevelOrder([t]);
    RecordFacts(order, map[t.id := None], k);
    if k in ParentMap(t) && k != t.id {
      var i :| 0 <= i < |order| && HasChildId(order[i], k);
      ChildIdInTree(t, order[i], k);
    }
    if k == t.id {
      assert t in Preorder(t);
    }
    if exists x :: x in Preorder(t) && x.id == k {
      var x :| x in Preorder(t) && x.id == k;
      if x != t {
        ChildIsRecorded(t, x);
      }
    }
  }

  lemma RootHasNoParent(t: Node)
    requires ConsistentIds(t)
    ensures t.id in ParentMap(t) && ParentMap(t)[t.id] == None
  {
    var order := LevelOrder([t]);
    RecordFacts(order, map[t.id := None], t.id);
    forall i | 0 <= i < |order| ensures !HasChildId(order[i], t.id) {
      NotChildOfTree(t, order[i]);
    }
  }

  /** No node of a tree has the root as a child. */
  lemma NotChildOfTree(t: Node, p: Node)
    requires ConsistentIds(t) && p in LevelOrder([t])
    ensures !HasChildId(p, t.id)
  {
    InTree(t, p);
    PreorderFacts(t, p);
    assert t in Preorder(t);
    forall j | 0 <= j < |p.children| ensures p.children[j].id != t.id {
      ChildLower(p, p.children[j]);
    }
  }

  lemma ChildIsRecorded(t: Node, x: Node)
    requires ConsistentIds(t) && x in Preorder(t) && x != t
    ensures x.id in ParentMap(t) && ParentMap(t)[x.id].Some?
    ensures ParentMap(t)[x.id].value in Preorder(t) && x in ParentMap(t)[x.id].value.children
  {
    var order := LevelOrder([t]);
    ParentInOrder(t, x);
    RecordFacts(order, map[t.id := None], x.id);
    SameIdChild(t, x, ParentMap(t)[x.id].value);
  }

  /** A node below the root is a child of some node the breadth-first walk visits. */
  lemma ParentInOrder(t: Node, x: Node)
    requires x in Preorder(t) && x != t
    ensures SomeChildId(LevelOrder([t]), x.id)
  {
    var order := LevelOrder([t]);
    PreorderFacts(t, x);
    var p :| p in Preorder(t) && x in p.children;
    InTree(t, p);
    var i :| 0 <= i < |order| && order[i] == p;
    var j :| 0 <= j < |p.children| && p.children[j] == x;
    assert HasChildId(order[i], x.id);
  }

  /** A visited node with a child of identity `k` has a node of the tree with that identity below it. */
  lemma ChildIdInTree(t: Node, p: Node, k: nat)
    requires p in LevelOrder([t]) && HasChildId(p, k)
    ensures p in Preorder(t)
    ensures exists j :: 0 <= j < |p.children| && p.children[j].id == k && p.children[j] in Preorder(t)
  {
    var j :| 0 <= j < |p.children| && p.children[j].id == k;
    InTree(t, p);
    PreorderFacts(t, p);
    assert p.children[j] in Preorder(t);
  }

  /** With consistent identities, a visited node with a child of `x`'s identity is a parent of `x`. */
  lemma SameIdChild(t: Node, x: Node, q: Node)
    requires ConsistentIds(t) && x in Preorder(t) && q in LevelOrder([t]) && HasChildId(q, x.id)
    ensures q in Preorder(t) && x in q.children
  {
    ChildIdInTree(t, q, x.id);
    var j :| 0 <= j < |q.children| && q.children[j].id == x.id && q.children[j] in Preorder(t);
    assert q.children[j] == x;
  }

  /** `_parent`: the recorded parent, `None` for the root and for a node never recorded. */
  function Get(m: map<nat, Option<Node>>, k: nat): Option<Node>
  {
    if k in m then m[k] else None
  }

  /** One step up from a node of the tree leads to a higher node of the tree, or to nothing at the root. */
  lemma UpStep(t: Node, q: Node)
    requires ConsistentIds(t) && q in Preorder(t)
    ensures var next := Get(ParentMap(t), q.id);
      Height(q) <= Height(t) &&
      (next.Some? ==> next.value in Preorder(t) && Height(q) < Height(next.value) <= Height(t))
  {
    PreorderFacts(t, q);
    ParentMapFacts(t);
    var next := Get(ParentMap(t), q.id);
    if next.Some? {
      assert q != t;
      ChildLower(next.value, q);
      PreorderFacts(t, next.value);
    }
  }

  /**
   * The chain of recorded parents starting at `o`, up to the root.  (A
   * start outside the tree, which a valid query never records, ends the chain.)
   */
  function Up(t: Node, o: Option<Node>): seq<Node>
    requires ConsistentIds(t)
    decreases if o.Some? && o.value in Preorder(t) then Height(t) - Height(o.value) + 1 else 0
  {
    match o
    case None => []
    case Some(q) =>
      if q !in Preorder(t) then [q]
      else
        UpStep(t, q);
        [q] + Up(t, Get(ParentMap(t), q.id))
  }

  /**
   * The chain `ancestors` follows from a node of the tree: each element is
   * the parent of the one before, the first is the node's parent, and the
   * last is the root; the root has no ancestors.
   */
  lemma {:induction false} UpIsParentChain(t: Node, x: Node)
    requires ConsistentIds(t) && x in Preorder(t)
    ensures var a := Up(t, Get(ParentMap(t), x.id));
      (a == [] <==> x == t) &&
      (a != [] ==> x in a[0].children && a[|a| - 1] == t &&
                   forall i :: 0 <= i < |a| - 1 ==> a[i] in a[i + 1].children)
    decreases Height(t) - Height(x)
  {
    ParentMapFacts(t);
    PreorderFacts(t, x);
    if x != t {
      var p := ParentMap(t)[x.id].value;
      ChildLower(p, x);
      PreorderFacts(t, p);
      UpIsParentChain(t, p);
      var rest := Up(t, Get(ParentMap(t), p.id));
      assert Up(t, Get(ParentMap(t), x.id)) == [p] + rest;
    }
  }

  /** `isa(*types)`: the predicate "is of one of these classes". */
  function Isa(kinds: set<string>): Node -> bool
  {
    (n: Node) => n.kind in kinds
  }

  /** The nodes of `ns` whose class is one of `kinds`, in order. */
  function OfKind(ns: seq<Node>, kinds: set<string>): seq<Node>
  {
    if ns == [] then []
    else (if ns[0].kind in kinds then [ns[0]] else []) + OfKind(ns[1..], kinds)
  }

  /** Filtering keeps exactly the nodes of one of the classes. */
  lemma {:induction false} OfKindMembers(ns: seq<Node>, kinds: set<string>, y: Node)
    ensures y in OfKind(ns, kinds) <==> y in ns && y.kind in kinds
    decreases |ns|
  {
    if ns != [] {
      OfKindMembers(ns[1..], kinds, y);
      assert ns == [ns[0]] + ns[1..];
    }
  }

  lemma OfKindCons(x: Node, rest: seq<Node>, kinds: set<string>)
    ensures OfKind([x] + rest, kinds) == (if x.kind in kinds then [x] else []) + OfKind(rest, kinds)
  {
    assert ([x] + rest)[1..] == rest;
  }

  /** Filtering a sequence with one more node at the end filters that node last. */
  lemma {:induction false} OfKindSnoc(ns: seq<Node>, x: Node, kinds: set<string>)
    ensures OfKind(ns + [x], kinds) == OfKind(ns, kinds) + (if x.kind in kinds then [x] else [])
    decreases |ns|
  {
    if ns == [] {
      OfKindCons(x, [], kinds);
    } else {
      assert ns + [x] == [ns[0]] + (ns[1..] + [x]);
      OfKindCons(ns[0], ns[1..] + [x], kinds);
      OfKindSnoc(ns[1..], x, kinds);
      assert ns == [ns[0]] + ns[1..];
      OfKindCons(ns[0], ns[1..], kinds);
    }
  }

  /**
   * `split(nodes, isa(*types))`: the first group, the nodes `isa` accepts,
   * is the nodes of those classes in order, the same filter the typed
   * `ancestors` applies to the parent chain.
   */
  lemma {:induction false} IsaGroupIsOfKind(ns: seq<Node>, kinds: set<string>)
    ensures Group(ns, Predicates([Isa(kinds)], true), 0) == OfKind(ns, kinds)
    decreases |ns|
  {
    if ns != [] {
      var n := |ns| - 1;
      IsaGroupIsOfKind(ns[..n], kinds);
      assert ns == ns[..n] + [ns[n]];
      OfKindSnoc(ns[..n], ns[n], kinds);
      assert FirstMatch(Predicates([Isa(kinds)], true), ns[n]) == 0 <==> ns[n].kind in kinds;
    }
  }

  /** A node of the tree is followed on its chain by its recorded parent, itself a node of the tree. */
  lemma UpUnfold(t: Node, q: Node)
    requires ConsistentIds(t) && q in Preorder(t)
    ensures var next := Get(ParentMap(t), q.id);
      Up(t, Some(q)) == [q] + Up(t, next) && (next.Some? ==> next.value in Preorder(t))
  {
    UpStep(t, q);
  }

  /** One step of the walk up the parent chain. */
  lemma ChainStep(t: Node, whole: seq<Node>, out: seq<Node>, p: Node)
    requires ConsistentIds(t) && p in Preorder(t)
    requires whole == out + Up(t, Some(p))
    ensures var next := Get(ParentMap(t), p.id);
      whole == (out + [p]) + Up(t, next) &&
      (next.Some? ==> next.value in Preorder(t)) && |Up(t, next)| < |Up(t, Some(p))|
  {
    UpUnfold(t, p);
  }

  /** One step of a filtered walk up the parent chain. */
  lemma KindStep(t: Node, whole: seq<Node>, out: seq<Node>, p: Node, kinds: set<string>)
    requires ConsistentIds(t) && p in Preorder(t)
    requires whole == out + OfKind(Up(t, Some(p)), kinds)
    ensures var next := Get(ParentMap(t), p.id);
      (p.kind in kinds ==> whole == (out + [p]) + OfKind(Up(t, next), kinds)) &&
      (p.kind !in kinds ==> whole == out + OfKind(Up(t, next), kinds)) &&
      (next.Some? ==> next.value in Preorder(t)) && |Up(t, next)| < |Up(t, Some(p))|
  {
    UpUnfold(t, p);
    KindCons(whole, out, p, Up(t, Get(ParentMap(t), p.id)), kinds);
  }

  lemma KindCons(whole: seq<Node>, out: seq<Node>, p: Node, rest: seq<Node>, kinds: set<string>)
    requires whole == out + OfKind([p] + rest, kinds)
    ensures p.kind in kinds ==> whole == (out + [p]) + OfKind(rest, kinds)
    ensures p.kind !in kinds ==> whole == out + OfKind(rest, kinds)
  {
    OfKindCons(p, rest, kinds);
    if p.kind in kinds {
      assert out + ([p] + OfKind(rest, kinds)) == (out + [p]) + OfKind(rest, kinds);
    } else {
      assert [] + OfKind(rest, kinds) == OfKind(rest, kinds);
    }
  }

  datatype QueryError = NotRecorded | NoAncestor

  /** A query over one tree: the parent of every node it reached. */
  class Query {
    ghost var tree: Node
    var parentMemory: map<nat, Option<Node>>

    ghost predicate Valid()
      reads this
    {
      ConsistentIds(tree) && parentMemory == ParentMap(tree)
    }

    /** `Query(tree)`: records the root, then each node's children, visiting in breadth-first order. */
    constructor (tree: Node)
      ensures this.tree == tree && parentMemory == ParentMap(tree)
    {
      this.tree := tree;
      var m0 := map[tree.id := None];
      var memory := m0;
      var pending := [tree];
      ghost var done: seq<Node> := [];
      while pending != []
        invariant done + BfsFrom(pending) == BfsFrom([tree])
        invariant memory == Record(done, m0)
        decreases SizeAll(pending)
      {
        var node := pending[0];
        assert SizeAll(pending) == Size(node) + SizeAll(pending[1..]);
        QueueStep(done, pending, tree);
        pending := pending[1..];
        ghost var before := pending;
        var k := 0;
        while k < |node.children|
          invariant 0 <= k <= |node.children|
          invariant memory == RecordChildren(node, node.children[..k], Record(done, m0))
          invariant pending == before + node.children[..k]
        {
          var c := node.children[k];
          assert node.children[..k + 1][..k] == node.children[..k];
          memory := memory[c.id := Some(node)];
          pending := pending + [c];
          k := k + 1;
        }
        assert node.children[..k] == node.children;
        SizeAllConcat(before, node.children);
        RecordSnoc(done, node, m0);
        done := done + [node];
      }
      BfsDrain([tree]);
      assert done + [] == done;
      parentMemory := memory;
    }

    /**
     * `parent(node)`: fails for a node never recorded; on the query's own
     * tree, the root has none and every other node gets a node it is a child of.
     */
    method Parent(node: Node) returns (r: Result<Option<Node>, QueryError>)
      ensures r.Ok? <==> node.id in parentMemory
      ensures r.Err? ==> r.error == NotRecorded
      ensures r.Ok? ==> r.value == Get(parentMemory, node.id)
      ensures Valid() ==> (r.Ok? <==> exists x :: x in Preorder(tree) && x.id == node.id)
      ensures Valid() && node == tree ==> r == Ok(None)
      ensures Valid() && node in Preorder(tree) && node != tree ==>
        r.Ok? && r.value.Some? && node in r.value.value.children
    {
      if Valid() {
        ParentMapFacts(tree);
      }
      if node.id !in parentMemory {
        return Err(NotRecorded);
      }
      return Ok(Get(parentMemory, node.id));
    }

    /** `ancestors(node)`: the recorded parents from the node's up to the root's. */
    method Ancestors(node: Node) returns (r: Result<seq<Node>, QueryError>)
      requires Valid()
      ensures r.Ok? <==> node.id in parentMemory
      ensures r.Err? ==> r.error == NotRecorded
      ensures r.Ok? ==> r.value == Up(tree, Get(parentMemory, node.id))
    {
      RecordedInTree(tree, node.id);
      var first :- Parent(node);
      var parent := first;
      var out: seq<Node> := [];
      ghost var whole := Up(tree, first);
      while parent.Some?
        invariant parent.Some? ==> parent.value in Preorder(tree)
        invariant whole == out + Up(tree, parent)
        decreases |Up(tree, parent)|
      {
        ChainStep(tree, whole, out, parent.value);
        out := out + [parent.value];
        parent := Get(parentMemory, parent.value.id);
      }
      return Ok(out);
    }

    /** `ancestors(node, types)`: the ancestors whose class is one of `kinds`, nearest first. */
    method AncestorsOfKind(node: Node, kinds: set<string>) returns (r: Result<seq<Node>, QueryError>)
      requires Valid() && kinds != {}
      ensures r.Ok? <==> node.id in parentMemory
      ensures r.Err? ==> r.error == NotRecorded
      ensures r.Ok? ==> r.value == OfKind(Up(tree, Get(parentMemory, node.id)), kinds)
    {
      RecordedInTree(tree, node.id);
      var parent :- Parent(node);
      var out: seq<Node> := [];
      ghost var whole := OfKind(Up(tree, parent), kinds);
      while parent.Some?
        invariant parent.Some? ==> parent.value in Preorder(tree)
        invariant whole == out + OfKind(Up(tree, parent), kinds)
        decreases |Up(tree, parent)|
      {
        KindStep(tree, whole, out, parent.value, kinds);
        if parent.value.kind in kinds {
          out := out + [parent.value];
        }
        parent := Get(parentMemory, parent.value.id);
      }
      return Ok(out);
    }

    /** `ancestors_or_self(node, types)`: as the typed ancestors, but starting with the node itself and never failing. */
    method AncestorsOrSelf(node: Node, kinds: set<string>) returns (r: seq<Node>)
      requires Valid() && kinds != {}
      ensures r == OfKind([node] + Up(tree, Get(parentMemory, node.id)), kinds)
    {
      RecordedInTree(tree, node.id);
      var out: seq<Node> := [];
      if node.kind in kinds {
        out := [node];
      }
      var parent := Get(parentMemory, node.id);
      OfKindCons(node, Up(tree, parent), kinds);
      ghost var whole := OfKind([node] + Up(tree, parent), kinds);
      while parent.Some?
        invariant parent.Some? ==> parent.value in Preorder(tree)
        invariant whole == out + OfKind(Up(tree, parent), kinds)
        decreases |Up(tree, parent)|
      {
        KindStep(tree, whole, out, parent.value, kinds);
        if parent.value.kind in kinds {
          out := out + [parent.value];
        }
        parent := Get(parentMemory, parent.value.id);
      }
      return out;
    }

    /** `ancestor(node, types)`: the nearest ancestor of one of `kinds`; failing when there is none. */
    method Ancestor(node: Node, kinds: set<string>) returns (r: Result<Node, QueryError>)
      requires Valid() && kinds != {}
      ensures node.id !in parentMemory ==> r == Err(NotRecorded)
      ensures node.id in parentMemory ==>
        var a := OfKind(Up(tree, Get(parentMemory, node.id)), kinds);
        (a == [] ==> r == Err(NoAncestor)) && (a != [] ==> r == Ok(a[0]))
    {
      var all :- AncestorsOfKind(node, kinds);
      if all == [] {
        return Err(NoAncestor);
      }
      return Ok(all[0]);
    }
  }

  // ---------------------------------------------------------------------
  // _Indent

  function Spaces(n: int): (r: string)
    ensures |r| == if n > 0 then n else 0
    ensures forall i :: 0 <= i < |r| ==> r[i] == ' '
  {
    if n <= 0 then [] else Spaces(n - 1) + " "
  }

  /** The indentation shared by nested pretty-printing. */
  class Indent {
    var indent: int

    constructor ()
      ensures indent == 0
    {
      indent := 0;
    }

    /** Entering `with _INDENT() as indent`: one level deeper, giving two spaces per level. */
    method Enter() returns (prefix: string)
      modifies this
      ensures indent == old(indent) + 1 && prefix == Spaces(2 * indent)
    {
      indent := indent + 1;
      prefix := Spaces(indent * 2);
    }

    /** Leaving the `with` block normally: one level back up. */
    method Exit()
      modifies this
      ensures indent == old(indent) - 1
    {
      indent := indent - 1;
    }
  }

  /** Nested blocks indent by two more spaces per level, and leaving both restores the level. */
  method NestedIndent(ind: Indent) returns (outer: string, inner: string)
    requires ind.indent == 0
    modifies ind
    ensures outer == "  " && inner == "    " && ind.indent == 0
  {
    outer := ind.Enter();
    inner := ind.Enter();
    ind.Exit();
    ind.Exit();
  }
}
