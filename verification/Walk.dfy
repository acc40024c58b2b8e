/**
 The delegation graph and its breadth-first subtree walk
 (storage/memory.py, storage/sql.py, revocation.py).

 A back end answers one batched query per level, `children`, in an order of its own choosing.
 `Descendants` is the walk as a function of that answer; the methods are the three loops in the
 source.  `Within` is the independent reference: the nodes at most n edges away.
 */
module Walk {
  import opened Core

  type Edges = map<Jti, seq<Jti>>
  type Children = seq<Jti> -> seq<Jti>

  predicate Edge(e: Edges, p: Jti, c: Jti) {
    p in e && c in e[p]
  }

  function AddEdge(e: Edges, p: Jti, c: Jti): Edges {
    var cs := if p in e then e[p] else [];
    e[p := if c in cs then cs else cs + [c]]
  }

  /** `children` lists exactly the direct children of each level, in any order, repeats allowed. */
  ghost predicate Lists(e: Edges, children: Children) {
    forall level: seq<Jti>, c ::
      c in children(level) <==> exists p :: p in level && Edge(e, p, c)
  }

  function ChildrenOf(e: Edges, level: seq<Jti>): seq<Jti> {
    if level == [] then []
    else
      var p := level[|level| - 1];
      ChildrenOf(e, level[..|level| - 1]) + if p in e then e[p] else []
  }

  function InMemory(e: Edges): Children {
    level => ChildrenOf(e, level)
  }

  lemma {:induction false} ChildrenOfEdges(e: Edges, level: seq<Jti>, c: Jti)
    ensures c in ChildrenOf(e, level) <==> exists p :: p in level && Edge(e, p, c)
  {
    if level == [] {
    } else {
      var p := level[|level| - 1];
      var front := level[..|level| - 1];
      ChildrenOfEdges(e, front, c);
      assert level == front + [p];
      assert c in ChildrenOf(e, level) <==> c in ChildrenOf(e, front) || Edge(e, p, c);
    }
  }

  lemma InMemoryLists(e: Edges)
    ensures Lists(e, InMemory(e))
  {
    forall level: seq<Jti>, c
      ensures c in InMemory(e)(level) <==> exists p :: p in level && Edge(e, p, c)
    {
      ChildrenOfEdges(e, level, c);
    }
  }

  // ------------------------------------------------------------------
  // The walk
  // ------------------------------------------------------------------

  /** The unseen members of `found`, each at its first occurrence. */
  function Unseen(found: seq<Jti>, seen: set<Jti>): (r: seq<Jti>)
    ensures NoDups(r)
    ensures forall x :: x in r <==> x in found && x !in seen
  {
    if found == [] then []
    else
      var r := Unseen(found[..|found| - 1], seen);
      var c := found[|found| - 1];
      assert found == found[..|found| - 1] + [c];
      if c in seen || c in r then r else r + [c]
  }

  function Targets(e: Edges): set<Jti> {
    set p, c | p in e && c in e[p] :: c
  }

  function WalkFrom(e: Edges, children: Children, level: seq<Jti>, seen: set<Jti>): seq<Jti>
    requires Lists(e, children)
    decreases |Targets(e) - seen|, |level|
  {
    if level == [] then []
    else
      var next := Unseen(children(level), seen);
      WalkDecreases(e, children, level, seen);
      next + WalkFrom(e, children, next, seen + Elements(next))
  }

  function Descendants(e: Edges, children: Children, root: Jti): seq<Jti>
    requires Lists(e, children)
  {
    [root] + WalkFrom(e, children, [root], {root})
  }

  lemma WalkDecreases(e: Edges, children: Children, level: seq<Jti>, seen: set<Jti>)
    requires Lists(e, children) && level != []
    ensures var next := Unseen(children(level), seen);
            next == [] || |Targets(e) - (seen + Elements(next))| < |Targets(e) - seen|
    ensures var next := Unseen(children(level), seen);
            next == [] ==> seen + Elements(next) == seen
  {
    var next := Unseen(children(level), seen);
    if next != [] {
      var c := next[0];
      assert c in children(level);
      var p :| p in level && Edge(e, p, c);
      assert c in Targets(e) - seen;
      var after := Targets(e) - (seen + Elements(next));
      assert c !in after;
      assert after <= Targets(e) - seen - {c};
      SubsetSize(after, Targets(e) - seen - {c});
    }
  }

  // ------------------------------------------------------------------
  // The reference: reachability and distance
  // ------------------------------------------------------------------

  ghost function Successors(e: Edges, w: set<Jti>): set<Jti> {
    set p, c | p in w && p in e && c in e[p] :: c
  }

  ghost function Within(e: Edges, root: Jti, n: nat): set<Jti> {
    if n == 0 then {root}
    else Within(e, root, n - 1) + Successors(e, Within(e, root, n - 1))
  }

  ghost predicate Reachable(e: Edges, root: Jti, x: Jti) {
    exists n :: x in Within(e, root, n)
  }

  /** x is at least as near the root as y: every radius that covers y covers x. */
  ghost predicate AsNear(e: Edges, root: Jti, x: Jti, y: Jti) {
    forall n :: y in Within(e, root, n) ==> x in Within(e, root, n)
  }

  lemma {:induction false} WithinGrows(e: Edges, root: Jti, m: nat, n: nat)
    requires m <= n
    ensures Within(e, root, m) <= Within(e, root, n)
    decreases n
  {
    if m < n {
      WithinGrows(e, root, m, n - 1);
    }
  }

  lemma {:induction false} WithinFixpoint(e: Edges, root: Jti, m: nat, n: nat)
    requires m <= n && Within(e, root, m + 1) == Within(e, root, m)
    ensures Within(e, root, n) == Within(e, root, m)
    decreases n
  {
    if m < n {
      WithinFixpoint(e, root, m, n - 1);
    }
  }

  /** What the loop knows when it has visited radius n: `level` is the outermost ring. */
  ghost predicate AtRadius(e: Edges, root: Jti, n: nat, level: seq<Jti>, seen: set<Jti>) {
    && seen == Within(e, root, n)
    && (n == 0 ==> Elements(level) == {root})
    && (n > 0 ==> Elements(level) == seen - Within(e, root, n - 1))
  }

  lemma IsSuccessor(e: Edges, w: set<Jti>, p: Jti, c: Jti)
    requires p in w && Edge(e, p, c)
    ensures c in Successors(e, w)
  {
  }

  lemma ParentOf(e: Edges, w: set<Jti>, c: Jti) returns (p: Jti)
    requires c in Successors(e, w)
    ensures p in w && Edge(e, p, c)
  {
    p :| p in w && p in e && c in e[p];
  }

  lemma NextRing(e: Edges, children: Children, root: Jti, n: nat, level: seq<Jti>, seen: set<Jti>)
    requires Lists(e, children) && AtRadius(e, root, n, level, seen)
    ensures var next := Unseen(children(level), seen);
            AtRadius(e, root, n + 1, next, seen + Elements(next))
  {
    var next := Unseen(children(level), seen);
    forall c | c in Successors(e, seen) && c !in seen
      ensures c in next
    {
      var p :| p in seen && Edge(e, p, c);
      if n > 0 && p in Within(e, root, n - 1) {
        IsSuccessor(e, Within(e, root, n - 1), p, c);
      } else {
        assert p in Elements(level);
      }
    }
    forall c | c in next
      ensures c in Successors(e, seen)
    {
      var p :| p in level && Edge(e, p, c);
      assert p in Elements(level);
      IsSuccessor(e, seen, p, c);
    }
    assert seen + Elements(next) == seen + Successors(e, seen);
    assert Elements(next) == seen + Elements(next) - seen;
  }

  lemma SameIfNoDifference(seen: set<Jti>, inner: set<Jti>)
    requires inner <= seen && seen - inner == {}
    ensures seen == inner
  {
    assert forall y :: y in seen ==> y in inner || y in seen - inner;
  }

  lemma LastRing(e: Edges, root: Jti, n: nat, seen: set<Jti>, x: Jti)
    requires AtRadius(e, root, n, [], seen) && Reachable(e, root, x)
    ensures x in seen
  {
    var m: nat :| x in Within(e, root, m);
    assert Elements<Jti>([]) == {} && root in {root};
    WithinGrows(e, root, n - 1, n);
    SameIfNoDifference(seen, Within(e, root, n - 1));
    if m <= n {
      WithinGrows(e, root, m, n);
    } else {
      WithinFixpoint(e, root, n - 1, m);
    }
  }

  ghost predicate VisitsRest(e: Edges, root: Jti, seen: set<Jti>, r: seq<Jti>) {
    NoDups(r) && forall x :: x in r <==> x !in seen && Reachable(e, root, x)
  }

  lemma RingThenRest(e: Edges, root: Jti, seen: set<Jti>, next: seq<Jti>, rest: seq<Jti>)
    requires NoDups(next) && forall x :: x in next ==> x !in seen && Reachable(e, root, x)
    requires VisitsRest(e, root, seen + Elements(next), rest)
    ensures VisitsRest(e, root, seen, next + rest)
  {
    var r := next + rest;
    assert forall x :: x in r <==> x in next || x in rest;
    forall i, j | 0 <= i < j < |r|
      ensures r[i] != r[j]
    {
      if i < |next| <= j {
        assert r[i] in Elements(next) && r[j] == rest[j - |next|];
        assert r[j] in rest;
      }
    }
  }

  lemma {:induction false} WalkFromReach(e: Edges, children: Children, root: Jti, n: nat,
                                         level: seq<Jti>, seen: set<Jti>)
    requires Lists(e, children) && AtRadius(e, root, n, level, seen)
    ensures VisitsRest(e, root, seen, WalkFrom(e, children, level, seen))
    decreases |Targets(e) - seen|, |level|
  {
    if level == [] {
      forall x | Reachable(e, root, x)
        ensures x in seen
      {
        LastRing(e, root, n, seen, x);
      }
    } else {
      var next := Unseen(children(level), seen);
      WalkDecreases(e, children, level, seen);
      NextRing(e, children, root, n, level, seen);
      WalkFromReach(e, children, root, n + 1, next, seen + Elements(next));
      forall x | x in next
        ensures Reachable(e, root, x)
      {
        assert x in Elements(next) && x in Within(e, root, n + 1);
      }
      RingThenRest(e, root, seen, next, WalkFrom(e, children, next, seen + Elements(next)));
    }
  }

  /** A node of the ring at radius n + 1 is as near as anything that the ring n does not cover. */
  lemma RingIsNearest(e: Edges, root: Jti, n: nat, x: Jti, y: Jti)
    requires x in Within(e, root, n + 1) && y !in Within(e, root, n)
    ensures AsNear(e, root, x, y)
  {
    forall m: nat | y in Within(e, root, m)
      ensures x in Within(e, root, m)
    {
      if m <= n {
        WithinGrows(e, root, m, n);
      } else {
        WithinGrows(e, root, n + 1, m);
      }
    }
  }

  ghost predicate NearestFirst(e: Edges, root: Jti, r: seq<Jti>) {
    forall i, j :: 0 <= i < j < |r| ==> AsNear(e, root, r[i], r[j])
  }

  lemma JoinNearestFirst(e: Edges, root: Jti, next: seq<Jti>, rest: seq<Jti>)
    requires NearestFirst(e, root, rest)
    requires forall x, y :: x in next && (y in next || y in rest) ==> AsNear(e, root, x, y)
    ensures NearestFirst(e, root, next + rest)
  {
    var r := next + rest;
    forall i, j | 0 <= i < j < |r|
      ensures AsNear(e, root, r[i], r[j])
    {
      assert j >= |next| ==> r[j] == rest[j - |next|];
      assert i >= |next| ==> r[i] == rest[i - |next|];
    }
  }

  lemma {:induction false} WalkFromOrder(e: Edges, children: Children, root: Jti, n: nat,
                                         level: seq<Jti>, seen: set<Jti>)
    requires Lists(e, children) && AtRadius(e, root, n, level, seen)
    ensures NearestFirst(e, root, WalkFrom(e, children, level, seen))
    decreases |Targets(e) - seen|, |level|
  {
    if level == [] {
    } else {
      var next := Unseen(children(level), seen);
      var rest := WalkFrom(e, children, next, seen + Elements(next));
      WalkDecreases(e, children, level, seen);
      NextRing(e, children, root, n, level, seen);
      WalkFromOrder(e, children, root, n + 1, next, seen + Elements(next));
      WalkFromReach(e, children, root, n, level, seen);
      forall x, y | x in next && (y in next || y in rest)
        ensures AsNear(e, root, x, y)
      {
        InTheRing(e, root, n, seen, next, x);
        assert y in next + rest;
        RingIsNearest(e, root, n, x, y);
      }
      JoinNearestFirst(e, root, next, rest);
    }
  }

  lemma InTheRing(e: Edges, root: Jti, n: nat, seen: set<Jti>, next: seq<Jti>, x: Jti)
    requires x in next && AtRadius(e, root, n + 1, next, seen + Elements(next))
    ensures x in Within(e, root, n + 1)
  {
    assert x in Elements(next);
  }

  /**
   The contract of the walk, for every finite graph, cycles included, and for every order in which
   a back end lists children: the root first, each reachable node exactly once, nothing else, and
   never a node before one that is strictly nearer.
   */
  lemma DescendantsMeaning(e: Edges, children: Children, root: Jti)
    requires Lists(e, children)
    ensures var r := Descendants(e, children, root);
            && r[0] == root
            && NoDups(r)
            && (forall x :: x in r <==> Reachable(e, root, x))
            && NearestFirst(e, root, r)
  {
    var rest := WalkFrom(e, children, [root], {root});
    assert AtRadius(e, root, 0, [root], {root});
    WalkFromReach(e, children, root, 0, [root], {root});
    WalkFromOrder(e, children, root, 0, [root], {root});
    assert root in Within(e, root, 0);
    forall y
      ensures AsNear(e, root, root, y)
    {
      forall m: nat
        ensures root in Within(e, root, m)
      {
        WithinGrows(e, root, 0, m);
      }
    }
    JoinNearestFirst(e, root, [root], rest);
  }

  /** Two back ends over one graph may order siblings differently but return the same jtis. */
  lemma BackEndsAgree(e: Edges, children: Children, children': Children, root: Jti)
    requires Lists(e, children) && Lists(e, children')
    ensures multiset(Descendants(e, children, root)) == multiset(Descendants(e, children', root))
  {
    var a, b := Descendants(e, children, root), Descendants(e, children', root);
    DescendantsMeaning(e, children, root);
    DescendantsMeaning(e, children', root);
    forall x
      ensures multiset(a)[x] == multiset(b)[x]
    {
      CountOfDistinct(a, x);
      CountOfDistinct(b, x);
    }
  }

  lemma {:induction false} CountOfDistinct<T>(s: seq<T>, x: T)
    requires NoDups(s)
    ensures multiset(s)[x] == if x in s then 1 else 0
  {
    if s != [] {
      var front, last := s[..|s| - 1], s[|s| - 1];
      assert s == front + [last];
      CountOfDistinct(front, x);
    }
  }

  // ------------------------------------------------------------------
  // The loops
  // ------------------------------------------------------------------

  /** The body of either loop: append to `order` what `found` adds to `seen`. */
  method Absorb(found: seq<Jti>, seen: set<Jti>, order: seq<Jti>)
    returns (seen': set<Jti>, order': seq<Jti>, novel: seq<Jti>)
    ensures novel == Unseen(found, seen)
    ensures seen' == seen + Elements(novel) && order' == order + novel
  {
    seen', order', novel := seen, order, [];
    for i := 0 to |found|
      invariant novel == Unseen(found[..i], seen)
      invariant seen' == seen + Elements(novel) && order' == order + novel
    {
      assert found[..i + 1][..i] == found[..i];
      var child := found[i];
      if child !in seen' {
        seen', order', novel := seen' + {child}, order' + [child], novel + [child];
      }
    }
    assert found[..|found|] == found;
  }

  /** storage/memory.py: one queue, drained into `level` at the top of every round. */
  method WalkWithQueue(e: Edges, root: Jti) returns (order: seq<Jti>)
    ensures Lists(e, InMemory(e)) && order == Descendants(e, InMemory(e), root)
  {
    InMemoryLists(e);
    ghost var children := InMemory(e);
    var seen := {root};
    order := [root];
    var queue := [root];
    while queue != []
      invariant order + WalkFrom(e, children, queue, seen) == Descendants(e, children, root)
      decreases |Targets(e) - seen|, |queue|
    {
      var level := queue;
      queue := [];
      WalkDecreases(e, children, level, seen);
      UnfoldWalk(e, children, level, seen, order);
      seen, order, queue := Absorb(ChildrenOf(e, level), seen, order);
    }
    assert order + [] == order;
  }

  /** storage/sql.py: a novel `level` list per round, children in whatever order the query gives. */
  method WalkWithLevels(e: Edges, children: Children, root: Jti) returns (order: seq<Jti>)
    requires Lists(e, children)
    ensures order == Descendants(e, children, root)
  {
    var seen := {root};
    order := [root];
    var level := [root];
    while level != []
      invariant order + WalkFrom(e, children, level, seen) == Descendants(e, children, root)
      decreases |Targets(e) - seen|, |level|
    {
      WalkDecreases(e, children, level, seen);
      UnfoldWalk(e, children, level, seen, order);
      seen, order, level := Absorb(children(level), seen, order);
    }
    assert order + [] == order;
  }

  lemma UnfoldWalk(e: Edges, children: Children, level: seq<Jti>, seen: set<Jti>, order: seq<Jti>)
    requires Lists(e, children) && level != []
    ensures var next := Unseen(children(level), seen);
            order + WalkFrom(e, children, level, seen)
            == order + next + WalkFrom(e, children, next, seen + Elements(next))
  {
  }
}
