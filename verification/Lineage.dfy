/**
 The token map as a forest: what narrowing at one hop gives at every distance, and why the edge
 walk and the signed chain describe the same subtree.
 */
module Lineage {
  import opened Core
  import opened Tokens
  import opened Walk

  type TokenMap = map<Jti, TokenMeta>

  ghost predicate IsRoot(m: TokenMeta, maxTtl: int) {
    && m.parentJti == None && m.chain == [] && m.depth == 0 && m.rootJti == m.jti
    && 1 <= m.maxDepth && m.expiresAt <= m.issuedAt + maxTtl
    && !m.approvalRequired && m.approvedBy == None
  }

  /** One hop of delegation: m was granted by pm. */
  ghost predicate IsChild(pm: TokenMeta, m: TokenMeta) {
    && m.parentJti == Some(pm.jti)
    && |m.chain| == |pm.chain| + 1 && m.chain[..|pm.chain|] == pm.chain
    && EntryFor(m.chain[|pm.chain|], pm) && m.chain[|pm.chain|].ts == m.issuedAt
    && m.depth == pm.depth + 1 <= m.maxDepth && m.maxDepth == pm.maxDepth
    && m.rootJti == pm.rootJti
    && m.scopes <= pm.scopes && m.expiresAt <= pm.expiresAt
  }

  /** The chain entry e is what m looked like when it granted. */
  ghost predicate EntryFor(e: ChainEntry, m: TokenMeta) {
    e.jti == m.jti && e.agentId == m.subjectId && e.scopes == m.scopes
  }

  ghost predicate WellPlaced(tokens: TokenMap, maxTtl: int, j: Jti)
    requires j in tokens
  {
    var m := tokens[j];
    && m.jti == j
    && match m.parentJti
       case None => IsRoot(m, maxTtl)
       case Some(p) => p in tokens && tokens[p].jti == p && IsChild(tokens[p], m)
  }

  ghost predicate Forest(tokens: TokenMap, maxTtl: int) {
    forall j :: j in tokens ==> WellPlaced(tokens, maxTtl, j)
  }

  lemma GrowForest(tokens: TokenMap, maxTtl: int, m: TokenMeta)
    requires Forest(tokens, maxTtl) && m.jti !in tokens
    requires IsRoot(m, maxTtl) || exists p :: p in tokens && IsChild(tokens[p], m)
    ensures Forest(tokens[m.jti := m], maxTtl)
  {
    var tokens' := tokens[m.jti := m];
    forall j | j in tokens'
      ensures WellPlaced(tokens', maxTtl, j)
    {
      if j != m.jti {
        assert WellPlaced(tokens, maxTtl, j);
      } else if !IsRoot(m, maxTtl) {
        var p :| p in tokens && IsChild(tokens[p], m);
        assert WellPlaced(tokens, maxTtl, p);
      }
    }
  }

  // ------------------------------------------------------------------
  // Ancestors at any distance
  // ------------------------------------------------------------------

  /** d lies somewhere below a: it was narrowed at every hop in between. */
  ghost predicate Narrower(d: TokenMeta, a: TokenMeta) {
    && d.scopes <= a.scopes && d.expiresAt <= a.expiresAt
    && d.maxDepth == a.maxDepth && d.rootJti == a.rootJti && a.depth < d.depth <= d.maxDepth
  }

  /**
   The i-th entry of a signed chain names a stored token, records its subject and scopes as they
   are stored, and that token's own chain is the part of this chain before it.
   */
  lemma {:induction false} Ancestor(tokens: TokenMap, maxTtl: int, j: Jti, i: nat)
    requires Forest(tokens, maxTtl) && j in tokens && i < |tokens[j].chain|
    ensures var a := tokens[j].chain[i].jti;
            && a in tokens
            && EntryFor(tokens[j].chain[i], tokens[a])
            && tokens[a].chain == tokens[j].chain[..i]
            && Narrower(tokens[j], tokens[a])
    decreases |tokens[j].chain|
  {
    assert WellPlaced(tokens, maxTtl, j);
    var p := tokens[j].parentJti.value;
    assert WellPlaced(tokens, maxTtl, p);
    var up := tokens[p].chain;
    if i < |up| {
      Ancestor(tokens, maxTtl, p, i);
      assert tokens[j].chain[i] == up[i];
      assert up[..i] == tokens[j].chain[..i];
    } else {
      assert tokens[j].chain[..i] == up;
    }
  }

  lemma {:induction false} DepthIsLength(tokens: TokenMap, maxTtl: int, j: Jti)
    requires Forest(tokens, maxTtl) && j in tokens
    ensures tokens[j].depth == |tokens[j].chain| <= tokens[j].maxDepth
    decreases |tokens[j].chain|
  {
    assert WellPlaced(tokens, maxTtl, j);
    if tokens[j].parentJti.Some? {
      DepthIsLength(tokens, maxTtl, tokens[j].parentJti.value);
    }
  }

  /** Every token hangs below a stored depth-0 root, the first of its chain, and expires by it. */
  lemma RootOf(tokens: TokenMap, maxTtl: int, j: Jti)
    requires Forest(tokens, maxTtl) && j in tokens
    ensures var r := tokens[j].rootJti;
            && r in tokens && IsRoot(tokens[r], maxTtl)
            && (tokens[j].chain == [] ==> r == j)
            && (tokens[j].chain != [] ==> r == tokens[j].chain[0].jti)
            && tokens[j].scopes <= tokens[r].scopes
            && tokens[j].expiresAt <= tokens[r].expiresAt <= tokens[r].issuedAt + maxTtl
            && tokens[j].maxDepth == tokens[r].maxDepth
  {
    assert WellPlaced(tokens, maxTtl, j);
    if tokens[j].chain != [] {
      Ancestor(tokens, maxTtl, j, 0);
      var r := tokens[j].chain[0].jti;
      assert WellPlaced(tokens, maxTtl, r);
    }
  }

  /** A chain never repeats a jti and never contains its own token, so a parent walk cannot cycle. */
  lemma ChainIsSimple(tokens: TokenMap, maxTtl: int, j: Jti)
    requires Forest(tokens, maxTtl) && j in tokens
    ensures NoDups(Jtis(tokens[j].chain) + [j])
  {
    var path := Jtis(tokens[j].chain) + [j];
    forall i, k | 0 <= i < k < |path|
      ensures path[i] != path[k]
    {
      Ancestor(tokens, maxTtl, j, i);
      if k < |tokens[j].chain| {
        Ancestor(tokens, maxTtl, j, k);
      }
    }
  }

  // ------------------------------------------------------------------
  // Subtrees: edges against signed chains
  // ------------------------------------------------------------------

  ghost predicate ParentLink(tokens: TokenMap, p: Jti, c: Jti) {
    c in tokens && tokens[c].parentJti == Some(p)
  }

  ghost predicate EdgesSound(tokens: TokenMap, e: Edges) {
    forall p, c :: Edge(e, p, c) ==> ParentLink(tokens, p, c)
  }

  /** The edge table holds exactly the parent links of the stored tokens. */
  ghost predicate EdgesMatch(tokens: TokenMap, e: Edges) {
    EdgesSound(tokens, e) && forall p, c :: ParentLink(tokens, p, c) ==> Edge(e, p, c)
  }

  /** t is j itself or was delegated, at any distance, from j. */
  ghost predicate InSubtree(tokens: TokenMap, j: Jti, t: Jti) {
    t == j || (t in tokens && j in Jtis(tokens[t].chain))
  }

  lemma ChainThroughParent(tokens: TokenMap, maxTtl: int, t: Jti, j: Jti)
    requires Forest(tokens, maxTtl) && t in tokens && tokens[t].parentJti.Some?
    ensures var p := tokens[t].parentJti.value;
            && p in tokens && |tokens[p].chain| < |tokens[t].chain|
            && (j in Jtis(tokens[t].chain) <==> j == p || j in Jtis(tokens[p].chain))
  {
    assert WellPlaced(tokens, maxTtl, t);
    var p := tokens[t].parentJti.value;
    JtisOfExtended(tokens[p].chain, tokens[t].chain);
    assert j in Jtis(tokens[p].chain) + [p] <==> j == p || j in Jtis(tokens[p].chain);
  }

  lemma JtisOfExtended(up: seq<ChainEntry>, c: seq<ChainEntry>)
    requires |c| == |up| + 1 && c[..|up|] == up
    ensures Jtis(c) == Jtis(up) + [c[|up|].jti]
  {
    forall i | 0 <= i < |up|
      ensures c[i] == up[i]
    {
      assert c[i] == c[..|up|][i];
    }
  }

  lemma BelowTheParent(tokens: TokenMap, maxTtl: int, j: Jti, p: Jti, t: Jti)
    requires Forest(tokens, maxTtl) && ParentLink(tokens, p, t)
    ensures t != j ==> (InSubtree(tokens, j, t) <==> InSubtree(tokens, j, p))
  {
    ChainThroughParent(tokens, maxTtl, t, j);
  }

  lemma LastHop(e: Edges, j: Jti, t: Jti, n: nat) returns (p: Jti)
    requires n > 0 && t in Within(e, j, n) && t !in Within(e, j, n - 1)
    ensures p in Within(e, j, n - 1) && Edge(e, p, t)
  {
    p := ParentOf(e, Within(e, j, n - 1), t);
  }

  lemma EdgeStaysBelow(tokens: TokenMap, maxTtl: int, e: Edges, j: Jti, p: Jti, t: Jti)
    requires Forest(tokens, maxTtl) && EdgesSound(tokens, e) && Edge(e, p, t) && InSubtree(tokens, j, p)
    ensures InSubtree(tokens, j, t)
  {
    BelowTheParent(tokens, maxTtl, j, p, t);
  }

  /** A walk stays inside any set that is closed under edges. */
  lemma {:induction false} ReachedInside(e: Edges, j: Jti, t: Jti, n: nat, inside: set<Jti>)
    requires j in inside && (forall p, c :: p in inside && Edge(e, p, c) ==> c in inside)
    requires t in Within(e, j, n)
    ensures t in inside
    decreases n
  {
    if n > 0 {
      if t in Within(e, j, n - 1) {
        ReachedInside(e, j, t, n - 1, inside);
      } else {
        var p := LastHop(e, j, t, n);
        ReachedInside(e, j, p, n - 1, inside);
      }
    }
  }

  lemma ReachedIsBelow(tokens: TokenMap, maxTtl: int, e: Edges, j: Jti, t: Jti, n: nat)
    requires Forest(tokens, maxTtl) && EdgesSound(tokens, e)
    requires t in Within(e, j, n)
    ensures InSubtree(tokens, j, t)
  {
    var inside := {j} + set x | x in tokens && InSubtree(tokens, j, x);
    forall p, c | p in inside && Edge(e, p, c)
      ensures c in inside
    {
      EdgeStaysBelow(tokens, maxTtl, e, j, p, c);
    }
    ReachedInside(e, j, t, n, inside);
  }

  /** No parent link strictly below j is missing from the edge table. */
  ghost predicate EdgesBelow(tokens: TokenMap, e: Edges, j: Jti) {
    forall p, c :: ParentLink(tokens, p, c) && c != j && InSubtree(tokens, j, c) ==> Edge(e, p, c)
  }

  lemma {:induction false} BelowIsReached(tokens: TokenMap, maxTtl: int, e: Edges, j: Jti, t: Jti)
    requires Forest(tokens, maxTtl) && EdgesBelow(tokens, e, j)
    requires InSubtree(tokens, j, t)
    ensures Reachable(e, j, t)
    decreases if t in tokens then |tokens[t].chain| else 0
  {
    if t == j {
      assert t in Within(e, j, 0);
    } else {
      assert WellPlaced(tokens, maxTtl, t);
      ChainThroughParent(tokens, maxTtl, t, j);
      var p := tokens[t].parentJti.value;
      assert ParentLink(tokens, p, t);
      BelowIsReached(tokens, maxTtl, e, j, p);
      var n: nat :| p in Within(e, j, n);
      IsSuccessor(e, Within(e, j, n), p, t);
      assert t in Within(e, j, n + 1);
    }
  }

  /** Whatever a walk reaches beyond its start, it reaches over an edge. */
  lemma {:induction false} ReachedOverAnEdge(e: Edges, j: Jti, c: Jti, n: nat) returns (p: Jti)
    requires c in Within(e, j, n) && c != j
    ensures Edge(e, p, c)
  {
    if c in Within(e, j, n - 1) {
      p := ReachedOverAnEdge(e, j, c, n - 1);
    } else {
      p := LastHop(e, j, c, n);
    }
  }

  /**
   The edge walk from j returns exactly j and the tokens whose signed chain contains j, if and only
   if no edge below j is missing; and this for every order in which the back end lists children.
   */
  lemma WalkIsSubtreeIff(tokens: TokenMap, maxTtl: int, e: Edges, children: Children, j: Jti)
    requires Forest(tokens, maxTtl) && EdgesSound(tokens, e) && Lists(e, children)
    ensures (forall t :: t in Descendants(e, children, j) <==> InSubtree(tokens, j, t)) <==> EdgesBelow(tokens, e, j)
  {
    DescendantsMeaning(e, children, j);
    if EdgesBelow(tokens, e, j) {
      forall t
        ensures Reachable(e, j, t) <==> InSubtree(tokens, j, t)
      {
        if InSubtree(tokens, j, t) {
          BelowIsReached(tokens, maxTtl, e, j, t);
        }
        if Reachable(e, j, t) {
          var n: nat :| t in Within(e, j, n);
          ReachedIsBelow(tokens, maxTtl, e, j, t, n);
        }
      }
    }
    if forall t :: t in Descendants(e, children, j) <==> InSubtree(tokens, j, t) {
      forall p, c | ParentLink(tokens, p, c) && c != j && InSubtree(tokens, j, c)
        ensures Edge(e, p, c)
      {
        assert Reachable(e, j, c);
        var n: nat :| c in Within(e, j, n);
        var q := ReachedOverAnEdge(e, j, c, n);
      }
    }
  }

  /** With every parent link in the edge table, the walk is the subtree. */
  lemma WalkIsSubtree(tokens: TokenMap, maxTtl: int, e: Edges, children: Children, j: Jti)
    requires Forest(tokens, maxTtl) && EdgesMatch(tokens, e) && Lists(e, children)
    ensures forall t :: t in Descendants(e, children, j) <==> InSubtree(tokens, j, t)
  {
    WalkIsSubtreeIff(tokens, maxTtl, e, children, j);
  }

  // ------------------------------------------------------------------
  // A revoked set that is closed under edges
  // ------------------------------------------------------------------

  ghost predicate DownwardClosed(tokens: TokenMap, revoked: set<Jti>) {
    forall c :: c in tokens && tokens[c].parentJti.Some? && tokens[c].parentJti.value in revoked
                ==> c in revoked
  }

  /** With a closed revoked set the ancestor lookups add nothing to the lookup of the own jti. */
  lemma {:induction false} AncestorsRedundant(tokens: TokenMap, maxTtl: int, revoked: set<Jti>, j: Jti)
    requires Forest(tokens, maxTtl) && DownwardClosed(tokens, revoked) && j in tokens
    ensures (exists a :: a in Jtis(tokens[j].chain) && a in revoked) ==> j in revoked
    decreases |tokens[j].chain|
  {
    assert WellPlaced(tokens, maxTtl, j);
    if tokens[j].parentJti.Some? {
      var p := tokens[j].parentJti.value;
      AncestorsRedundant(tokens, maxTtl, revoked, p);
      forall a | a in Jtis(tokens[j].chain) && a in revoked
        ensures j in revoked
      {
        ChainThroughParent(tokens, maxTtl, j, a);
      }
    }
  }

  /** Adding a whole subtree keeps a revoked set closed. */
  lemma {:induction false} SubtreeKeepsClosed(tokens: TokenMap, maxTtl: int, revoked: set<Jti>, j: Jti, targets: set<Jti>)
    requires Forest(tokens, maxTtl) && DownwardClosed(tokens, revoked)
    requires forall t :: t in targets <==> InSubtree(tokens, j, t)
    ensures DownwardClosed(tokens, revoked + targets)
  {
    forall c | c in tokens && tokens[c].parentJti.Some? && tokens[c].parentJti.value in revoked + targets
      ensures c in revoked + targets
    {
      ChainThroughParent(tokens, maxTtl, c, j);
    }
  }
}
