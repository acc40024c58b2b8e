/** Rebuilding the token map, the edge set and the revoked set from the audit log alone. */
module AuditReplay {
  import opened Core
  import opened Walk
  import opened Tokens
  import opened Records
  import opened Storage

  datatype Node = Node(parent: Option<Jti>, root: Jti, depth: int, scopes: set<Scope>)

  datatype View = View(tokens: map<Jti, Node>, edges: set<(Jti, Jti)>, revoked: set<Jti>)

  function Apply(v: View, e: Event): View {
    match e
    case RootMinted(j, scopes, _, _) => v.(tokens := v.tokens[j := Node(None, j, 0, scopes)])
    case Delegated(j, p, root, scopes, depth, _) => Grow(v, j, p, root, scopes, depth)
    case ApprovalGranted(j, p, root, scopes, depth, _, _) => Grow(v, j, p, root, scopes, depth)
    case RevokedTree(_, targets, _, _) => v.(revoked := v.revoked + Elements(targets))
    case _ => v
  }

  function Grow(v: View, j: Jti, p: Jti, root: Jti, scopes: set<Scope>, depth: int): View {
    v.(tokens := v.tokens[j := Node(Some(p), root, depth, scopes)], edges := v.edges + {(p, j)})
  }

  function Replay(log: seq<Event>): View {
    if log == [] then View(map[], {}, {})
    else Apply(Replay(log[..|log| - 1]), log[|log| - 1])
  }

  lemma ReplaySnoc(log: seq<Event>, e: Event)
    ensures Replay(log + [e]) == Apply(Replay(log), e)
  {
    assert (log + [e])[..|log|] == log;
  }

  predicate Neutral(e: Event) {
    !e.RootMinted? && !e.Delegated? && !e.ApprovalGranted? && !e.RevokedTree?
  }

  // ------------------------------------------------------------------
  // The same view of the store
  // ------------------------------------------------------------------

  function NodeOf(m: TokenMeta): Node {
    Node(m.parentJti, m.rootJti, m.depth, m.scopes)
  }

  function EdgePairs(e: Edges): set<(Jti, Jti)> {
    set p, c | p in e && c in e[p] :: (p, c)
  }

  function ViewOf(st: Store): View {
    View(map j | j in st.tokens :: NodeOf(st.tokens[j]), EdgePairs(st.edges), st.revoked.Keys)
  }

  lemma ViewOfPut(st: Store, m: TokenMeta)
    ensures ViewOf(PutToken(st, m)) == ViewOf(st).(tokens := ViewOf(st).tokens[m.jti := NodeOf(m)])
  {
  }

  lemma EdgePairsAdd(e: Edges, p: Jti, c: Jti)
    ensures EdgePairs(AddEdge(e, p, c)) == EdgePairs(e) + {(p, c)}
  {
    var e' := AddEdge(e, p, c);
    forall x, y
      ensures Edge(e', x, y) <==> Edge(e, x, y) || (x, y) == (p, c)
    {
    }
    forall q
      ensures q in EdgePairs(e') <==> q in EdgePairs(e) + {(p, c)}
    {
      assert q in EdgePairs(e') <==> Edge(e', q.0, q.1);
      assert q in EdgePairs(e) <==> Edge(e, q.0, q.1);
    }
  }

  lemma ViewOfLink(st: Store, p: Jti, c: Jti)
    ensures ViewOf(LinkTokens(st, p, c)) == ViewOf(st).(edges := ViewOf(st).edges + {(p, c)})
  {
    EdgePairsAdd(st.edges, p, c);
  }

  lemma ViewOfRevoke(st: Store, targets: seq<Jti>, root: Jti, now: Time)
    ensures ViewOf(RevokeMany(st, targets, root, now))
            == ViewOf(st).(revoked := ViewOf(st).revoked + Elements(targets))
  {
    assert RevokeMany(st, targets, root, now).revoked.Keys == st.revoked.Keys + Elements(targets);
  }
}
