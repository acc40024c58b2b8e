/** The promises of the authority, for every state that any run of calls can reach. */
module AuthorityTheorems {
  import opened Core
  import opened Tokens
  import opened Lineage
  import opened Records
  import opened Storage
  import opened Walk
  import opened AuditReplay
  import opened Authority
  import opened AuthorityInvariant
  import Guardrails

  // ------------------------------------------------------------------
  // Narrowing
  // ------------------------------------------------------------------

  /**
   Whatever mix of `delegate` and `approve` built a chain: each entry names a stored ancestor as it
   was, and against every ancestor the token's scopes are a subset, its expiry no later, its depth
   ceiling and root the same, its depth larger and within the ceiling.
   */
  lemma NarrowAtEveryDistance(cfg: Config, s: State, j: Jti, i: nat)
    requires ValidConfig(cfg) && ReachableState(cfg, s)
    requires j in s.store.tokens && i < |s.store.tokens[j].chain|
    ensures var d := s.store.tokens[j]; var a := d.chain[i].jti;
            && a in s.store.tokens && EntryFor(d.chain[i], s.store.tokens[a])
            && s.store.tokens[a].chain == d.chain[..i]
            && Narrower(d, s.store.tokens[a])
  {
    ReachableInv(cfg, s);
    Ancestor(s.store.tokens, cfg.maxTtl, j, i);
  }

  /** No token outlives the ceiling on its root, depth is chain length, and the root is stored. */
  lemma BoundedByRoot(cfg: Config, s: State, j: Jti)
    requires ValidConfig(cfg) && ReachableState(cfg, s) && j in s.store.tokens
    ensures var d := s.store.tokens[j];
            && d.depth == |d.chain| <= d.maxDepth
            && d.rootJti in s.store.tokens && IsRoot(s.store.tokens[d.rootJti], cfg.maxTtl)
            && d.expiresAt <= s.store.tokens[d.rootJti].issuedAt + cfg.maxTtl
  {
    ReachableInv(cfg, s);
    DepthIsLength(s.store.tokens, cfg.maxTtl, j);
    RootOf(s.store.tokens, cfg.maxTtl, j);
  }

  /** Durable records rebuild exactly the signed claims, and nothing that was not signed. */
  lemma RecordsRebuildSignedClaims(cfg: Config, s: State, c: Claims)
    requires ValidConfig(cfg) && ReachableState(cfg, s)
    ensures c in s.signed <==> c.jti in s.store.tokens && ClaimsOf(cfg.issuer, s.store.tokens[c.jti]) == c
  {
    ReachableInv(cfg, s);
  }

  // ------------------------------------------------------------------
  // Subtrees and revocation
  // ------------------------------------------------------------------

  /** The edge walk returns j and exactly the tokens whose signed chain contains j. */
  lemma EdgeWalkIsSubtree(cfg: Config, s: State, j: Jti)
    requires ValidConfig(cfg) && ReachableState(cfg, s)
    ensures forall t :: t in DescendantsOf(s.store, j) <==> InSubtree(s.store.tokens, j, t)
  {
    ReachableInv(cfg, s);
    InMemoryLists(s.store.edges);
    WalkIsSubtree(s.store.tokens, cfg.maxTtl, s.store.edges, InMemory(s.store.edges), j);
  }

  /** Looking up the ancestors never changes the answer of looking up the token itself. */
  lemma AncestorLookupsAgree(cfg: Config, s: State, c: Claims)
    requires ValidConfig(cfg) && ReachableState(cfg, s) && c in s.signed
    ensures AnyRevoked(s.store, c) <==> c.jti in s.store.revoked
  {
    ReachableInv(cfg, s);
    AncestorLookupsAgreeUnder(cfg, s, c);
  }

  lemma AncestorLookupsAgreeUnder(cfg: Config, s: State, c: Claims)
    requires StoreInv(cfg, s.store, s.signed) && c in s.signed
    ensures AnyRevoked(s.store, c) <==> c.jti in s.store.revoked
  {
    AncestorsRedundant(s.store.tokens, cfg.maxTtl, s.store.revoked.Keys, c.jti);
    if a :| a in c.chain && a.jti in s.store.revoked {
      var i :| 0 <= i < |c.chain| && c.chain[i] == a;
      assert Jtis(c.chain)[i] == a.jti;
    }
  }

  /** What makes a check succeed, exactly: no clause about ancestors or the root is needed. */
  lemma VerifySucceedsIff(cfg: Config, s: State, now: Time, token: Token, scope: Scope)
    requires ValidConfig(cfg) && ReachableState(cfg, s)
    ensures Verify(cfg, s, now, token, scope).1.Valid?
            <==> && s.breaker.opening.None? && token.Encoded? && token.claims in s.signed
                 && RateCheck(cfg, s, now, token.claims.sub, OpVerify).1
                 && now <= token.claims.exp && !s.store.closed
                 && token.claims.jti !in s.store.revoked && scope in token.claims.scopes
  {
    if token.Encoded? && token.claims in s.signed {
      AncestorLookupsAgree(cfg, s, token.claims);
    }
  }

  // ------------------------------------------------------------------
  // Minting
  // ------------------------------------------------------------------

  /** A token that decodes live hangs below a live root: the separate root check cannot fail. */
  lemma LiveImpliesRootAlive(cfg: Config, s: State, now: Time, token: Token)
    requires ValidConfig(cfg) && ReachableState(cfg, s) && DecodeLive(s, now, token).Live?
    ensures RootAlive(s, now, DecodeLive(s, now, token).claims)
  {
    ReachableInv(cfg, s);
    var c := DecodeLive(s, now, token).claims;
    LiveParent(cfg, s, now, token);
    RootUnrevoked(cfg, s, c);
  }

  lemma RootUnrevoked(cfg: Config, s: State, c: Claims)
    requires StoreInv(cfg, s.store, s.signed) && c in s.signed && c.jti !in s.store.revoked
    ensures c.rootJti in s.store.tokens && c.rootJti !in s.store.revoked
    ensures s.store.tokens[c.rootJti].depth == 0 && c.exp <= s.store.tokens[c.rootJti].expiresAt
  {
    RootOf(s.store.tokens, cfg.maxTtl, c.jti);
    if c.chain != [] {
      assert c.chain[0] in c.chain;
      AncestorLookupsAgreeUnder(cfg, s, c);
    }
  }

  /** When exactly `delegate` mints. */
  lemma DelegateMintsIff(cfg: Config, s: State, now: Time, r: Request)
    requires ValidConfig(cfg) && ReachableState(cfg, s) && Legal(s, CallDelegate(r))
    ensures Delegate(cfg, s, now, r).1.Minted?
            <==> && s.breaker.opening.None? && !s.store.closed
                 && r.token.Encoded? && r.token.claims in s.signed
                 && now <= r.token.claims.exp && r.token.claims.jti !in s.store.revoked
                 && RateCheck(cfg, s, now, r.token.claims.sub, OpDelegate).1
                 && {} != r.scopes <= r.token.claims.scopes && r.scopes * cfg.sensitive == {}
                 && r.token.claims.depth < r.token.claims.maxDepth
  {
    if DecodeLive(s, now, r.token).Live? {
      LiveImpliesRootAlive(cfg, s, now, r.token);
      EmptyDifference(r.scopes, r.token.claims.scopes);
    }
    if r.token.Encoded? && r.token.claims in s.signed {
      AncestorLookupsAgree(cfg, s, r.token.claims);
    }
  }

  lemma RecordFrame(cfg: Config, s: State, now: Time, error: bool, subject: string, policyDenial: bool)
    ensures var s' := Record(cfg, s, now, error, subject, policyDenial);
            s'.store == s.store && s'.signed == s.signed
  {
  }

  lemma GrantMints(cfg: Config, s: State, now: Time, parent: Claims, r: Request)
    requires Grant(cfg, s, now, parent, r).1.Minted?
    ensures var (s', o) := Grant(cfg, s, now, parent, r);
            && o.claims == GrantedChild(cfg, now, parent, r)
            && s'.store == Issue(s, o.claims, Some(parent.jti)).store && s'.signed == s.signed + {o.claims}
            && r.scopes <= parent.scopes && parent.depth + 1 <= parent.maxDepth
  {
    EmptyDifference(r.scopes, parent.scopes);
    var s1 := if r.anomalous then Log(s, AnomalyFlagged(parent.jti, r.scopes)) else s;
    RecordFrame(cfg, MintGranted(cfg, s1, now, parent, r), now, false, parent.sub, false);
  }

  lemma MintedByGrant(cfg: Config, s: State, now: Time, r: Request)
    requires Delegate(cfg, s, now, r).1.Minted?
    ensures DecodeLive(s, now, r.token) == Live(r.token.claims)
    ensures Delegate(cfg, s, now, r) == Grant(cfg, RateCheck(cfg, s, now, r.token.claims.sub, OpDelegate).0,
                                              now, r.token.claims, r)
  {
  }

  /** A lifetime ends at the end of its term or at the bound, whichever comes first. */
  predicate LivesFor(end: Time, now: Time, term: int, bound: Time) {
    end <= bound && end <= now + term && (end == bound || end == now + term)
  }

  /** What it mints: one hop below the presented token, recorded, linked and signed. */
  lemma DelegateMints(cfg: Config, s: State, now: Time, r: Request)
    requires ValidConfig(cfg) && ReachableState(cfg, s) && Legal(s, CallDelegate(r))
    requires Delegate(cfg, s, now, r).1.Minted?
    ensures var (s', o) := Delegate(cfg, s, now, r); var p := r.token.claims.jti;
            && s'.signed == s.signed + {o.claims} && o.claims.jti == r.freshJti
            && s'.store.tokens.Keys == s.store.tokens.Keys + {r.freshJti}
            && p in s.store.tokens && IsChild(s.store.tokens[p], s'.store.tokens[r.freshJti])
            && Edge(s'.store.edges, p, r.freshJti)
            && o.claims.scopes == r.scopes && o.claims.sub == r.childSubject && o.claims.iat == now
            && LivesFor(o.claims.exp, now, if r.ttl == 0 then cfg.defaultTtl else r.ttl, r.token.claims.exp)
  {
    MintedByGrant(cfg, s, now, r);
    PresentedIsStored(cfg, s, now, r.token);
    DelegateMintsChild(cfg, s, now, r, s.store.tokens[r.token.claims.jti]);
  }

  lemma PresentedIsStored(cfg: Config, s: State, now: Time, token: Token)
    requires ValidConfig(cfg) && ReachableState(cfg, s) && DecodeLive(s, now, token).Live?
    ensures var c := token.claims;
            && c.jti in s.store.tokens && ClaimsOf(cfg.issuer, s.store.tokens[c.jti]) == c
            && s.store.tokens[c.jti].jti == c.jti
  {
    ReachableInv(cfg, s);
    LiveParent(cfg, s, now, token);
  }

  lemma DelegateMintsChild(cfg: Config, s: State, now: Time, r: Request, pm: TokenMeta)
    requires Delegate(cfg, s, now, r).1.Minted? && ClaimsOf(cfg.issuer, pm) == r.token.claims
    ensures var (s', o) := Delegate(cfg, s, now, r);
            && s'.signed == s.signed + {o.claims} && o.claims == GrantedChild(cfg, now, r.token.claims, r)
            && s'.store.tokens == s.store.tokens[r.freshJti := MetaOf(o.claims, Some(pm.jti))]
            && IsChild(pm, MetaOf(o.claims, Some(pm.jti)))
            && Edge(s'.store.edges, pm.jti, r.freshJti)
  {
    MintedByGrant(cfg, s, now, r);
    var s1 := RateCheck(cfg, s, now, r.token.claims.sub, OpDelegate).0;
    RateQuiet(cfg, s, now, r.token.claims.sub, OpDelegate);
    GrantMintsChild(cfg, s1, now, pm, r);
  }

  lemma IssueMeans(s: State, c: Claims, p: Jti)
    ensures var s' := Issue(s, c, Some(p));
            && s'.store.tokens == s.store.tokens[c.jti := MetaOf(c, Some(p))]
            && Edge(s'.store.edges, p, c.jti)
  {
  }

  lemma GrantMintsChild(cfg: Config, s: State, now: Time, pm: TokenMeta, r: Request)
    requires Grant(cfg, s, now, ClaimsOf(cfg.issuer, pm), r).1.Minted?
    ensures var parent := ClaimsOf(cfg.issuer, pm); var (s', o) := Grant(cfg, s, now, parent, r);
            && s'.signed == s.signed + {o.claims} && o.claims == GrantedChild(cfg, now, parent, r)
            && s'.store.tokens == s.store.tokens[r.freshJti := MetaOf(o.claims, Some(pm.jti))]
            && IsChild(pm, MetaOf(o.claims, Some(pm.jti)))
            && Edge(s'.store.edges, pm.jti, r.freshJti)
  {
    var parent := ClaimsOf(cfg.issuer, pm);
    var child := GrantedChild(cfg, now, parent, r);
    GrantMints(cfg, s, now, parent, r);
    IssueMeans(s, child, pm.jti);
    MintedIsChild(cfg.issuer, pm, r.freshJti, r.childSubject, r.scopes, child.exp, false, None, now);
  }

  /** The checks that `delegate` makes on a grant by a parent. */
  ghost predicate DelegateWouldGrant(s: State, now: Time, parent: Claims, scopes: set<Scope>) {
    && parent in s.signed && now <= parent.exp && !AnyRevoked(s.store, parent)
    && RootAlive(s, now, parent)
    && scopes <= parent.scopes && parent.depth + 1 <= parent.maxDepth
  }

  /**
   `approve` looks only at its record and at the parent's revocation and expiry, yet when it mints,
   every check of `delegate` holds of the grant at that moment.
   */
  lemma ApproveMeetsDelegateChecks(cfg: Config, s: State, now: Time, id: string, approver: string, jti: Jti)
    requires ValidConfig(cfg) && ReachableState(cfg, s) && FreshJti(s, jti)
    requires Approve(cfg, s, now, id, approver, jti).1.Minted?
    ensures id in s.store.approvals && s.store.approvals[id].parentJti in s.store.tokens
    ensures var a := s.store.approvals[id]; var (s', o) := Approve(cfg, s, now, id, approver, jti);
            var parent := ClaimsOf(cfg.issuer, s.store.tokens[a.parentJti]);
            && DelegateWouldGrant(s, now, parent, a.requested)
            && o.claims.scopes == a.requested && o.claims.exp <= parent.exp
            && IsChild(s.store.tokens[a.parentJti], s'.store.tokens[jti])
            && Edge(s'.store.edges, a.parentJti, jti)
            && GrantedFor(s'.store.approvals, jti, id)
  {
    MintedByApprove(cfg, s, now, id, approver, jti);
    var a := s.store.approvals[id];
    StoredIsGrantable(cfg, s, id);
    ParentWouldGrant(cfg, s, now, a);
    ApprovedChildIsChild(cfg, s, now, a, approver, jti);
    IssueMeans(s, ApprovedChild(cfg, s, now, a, approver, jti), a.parentJti);
  }

  lemma MintedByApprove(cfg: Config, s: State, now: Time, id: string, approver: string, jti: Jti)
    requires Approve(cfg, s, now, id, approver, jti).1.Minted?
    ensures id in s.store.approvals && s.store.approvals[id].parentJti in s.store.tokens
    ensures var a := s.store.approvals[id]; var (s', o) := Approve(cfg, s, now, id, approver, jti);
            && a.parentJti !in s.store.revoked && now <= a.parentExp
            && o.claims == ApprovedChild(cfg, s, now, a, approver, jti)
            && s'.store == SetApproval(Issue(s, o.claims, Some(a.parentJti)).store,
                                       ApprovedRecord(a, now, approver, o.claims))
  {
  }

  lemma StoredIsGrantable(cfg: Config, s: State, id: string)
    requires ValidConfig(cfg) && ReachableState(cfg, s) && id in s.store.approvals
    ensures Forest(s.store.tokens, cfg.maxTtl)
    ensures Grantable(cfg, s.store.tokens, s.store.approvals[id]) && s.store.approvals[id].approvalId == id
  {
    ReachableInv(cfg, s);
  }

  lemma ParentWouldGrant(cfg: Config, s: State, now: Time, a: Approval)
    requires ValidConfig(cfg) && ReachableState(cfg, s) && Grantable(cfg, s.store.tokens, a)
    requires a.parentJti !in s.store.revoked && now <= a.parentExp
    ensures DelegateWouldGrant(s, now, ClaimsOf(cfg.issuer, s.store.tokens[a.parentJti]), a.requested)
  {
    var parent := ClaimsOf(cfg.issuer, s.store.tokens[a.parentJti]);
    ReachableInv(cfg, s);
    assert WellPlaced(s.store.tokens, cfg.maxTtl, a.parentJti);
    assert parent in s.signed;
    AncestorLookupsAgree(cfg, s, parent);
    RootUnrevoked(cfg, s, parent);
  }

  /** When exactly `approve` mints. */
  lemma ApproveMintsIff(cfg: Config, s: State, now: Time, id: string, approver: string, jti: Jti)
    requires ValidConfig(cfg) && ReachableState(cfg, s) && FreshJti(s, jti)
    ensures Approve(cfg, s, now, id, approver, jti).1.Minted?
            <==> && !s.store.closed && id in s.store.approvals && s.store.approvals[id].status == Pending
                 && now <= s.store.approvals[id].expiresAt
                 && s.store.approvals[id].parentJti !in s.store.revoked
  {
    if id in s.store.approvals {
      StoredIsGrantable(cfg, s, id);
    }
  }

  // ------------------------------------------------------------------
  // The approval gate
  // ------------------------------------------------------------------

  /** Beyond the root, holding a sensitive scope and carrying a named approval are the same thing. */
  lemma SensitiveMeansApproved(cfg: Config, s: State, j: Jti)
    requires ValidConfig(cfg) && ReachableState(cfg, s)
    requires j in s.store.tokens && s.store.tokens[j].parentJti.Some?
    ensures var m := s.store.tokens[j];
            && (m.scopes * cfg.sensitive != {} <==> m.approvalRequired)
            && (m.approvalRequired <==> m.approvedBy.Some?)
            && (m.approvalRequired <==> exists id :: GrantedFor(s.store.approvals, j, id))
  {
    ReachableInv(cfg, s);
    assert Gated(cfg, s.store.tokens[j]);
    if id :| GrantedFor(s.store.approvals, j, id) {
      assert Fulfilled(cfg, s.store.tokens, s.store.approvals[id]);
    }
  }

  /** A request has a token exactly when it is approved, then exactly one, shared with no other. */
  lemma OneTokenPerApproval(cfg: Config, s: State, id: string)
    requires ValidConfig(cfg) && ReachableState(cfg, s) && id in s.store.approvals
    ensures var a := s.store.approvals[id];
            && (a.status == Approved <==> exists j :: GrantedFor(s.store.approvals, j, id))
            && (forall j :: GrantedFor(s.store.approvals, j, id) ==>
                  && j in s.store.tokens && s.store.tokens[j].scopes == a.requested
                  && s.store.tokens[j].approvedBy == a.approvedBy)
            && (forall j, k, other :: (GrantedFor(s.store.approvals, j, id) && GrantedFor(s.store.approvals, k, other))
                  ==> (j == k <==> id == other))
  {
    ReachableInv(cfg, s);
    var a := s.store.approvals[id];
    assert Fulfilled(cfg, s.store.tokens, a);
    if a.status == Approved {
      assert GrantedFor(s.store.approvals, a.childJti.value, id);
    }
  }

  /** Collecting hands out exactly the claims of the token minted for the request. */
  lemma CollectReturnsTheToken(cfg: Config, s: State, id: string)
    requires ValidConfig(cfg) && ReachableState(cfg, s)
    ensures var o := Collect(s, id);
            && (o.Minted? <==> id in s.store.approvals && s.store.approvals[id].status == Approved)
            && (o.Minted? ==> && GrantedFor(s.store.approvals, o.claims.jti, id)
                              && o.claims.jti in s.store.tokens
                              && ClaimsOf(cfg.issuer, s.store.tokens[o.claims.jti]) == o.claims)
            && (o == NotYet <==> id in s.store.approvals && s.store.approvals[id].status == Pending)
            && (id !in s.store.approvals ==> o == Raised(UnknownId))
            && (id in s.store.approvals && s.store.approvals[id].status == Denied ==> o == Raised(AccessDenied("approval_denied")))
            && (id in s.store.approvals && s.store.approvals[id].status == Expired ==> o == Raised(AccessDenied("approval_expired")))
  {
    if id in s.store.approvals {
      StoredIsFulfilled(cfg, s, id);
    }
  }

  lemma StoredIsFulfilled(cfg: Config, s: State, id: string)
    requires ValidConfig(cfg) && ReachableState(cfg, s) && id in s.store.approvals
    ensures var a := s.store.approvals[id];
            && Fulfilled(cfg, s.store.tokens, a)
            && (a.childJti.Some? ==> && s.store.tokens[a.childJti.value].jti == a.childJti.value
                                     && ClaimsOf(cfg.issuer, s.store.tokens[a.childJti.value]) in s.signed)
  {
    ReachableInv(cfg, s);
    assert Fulfilled(cfg, s.store.tokens, s.store.approvals[id]);
    if s.store.approvals[id].childJti.Some? {
      assert WellPlaced(s.store.tokens, cfg.maxTtl, s.store.approvals[id].childJti.value);
    }
  }

  // ------------------------------------------------------------------
  // Actions and reviews
  // ------------------------------------------------------------------

  /** An action of a revoked token ended cleanly or has a review; a review is never of a clean state;
      no action has two. */
  lemma RevokedActionsAreAccountedFor(cfg: Config, s: State)
    requires ValidConfig(cfg) && ReachableState(cfg, s)
    ensures forall id :: id in s.store.actions && s.store.actions[id].jti in s.store.revoked ==>
              s.store.actions[id].state == Some(Clean) || HasReview(s.store.reviews, id)
    ensures forall r :: r in s.store.reviews ==>
              s.store.reviews[r].classification != Clean && s.store.reviews[r].actionId in s.store.actions
    ensures forall q, r :: (q in s.store.reviews && r in s.store.reviews
                            && s.store.reviews[q].actionId == s.store.reviews[r].actionId) ==> q == r
  {
    ReachableInv(cfg, s);
    forall id | id in s.store.actions && s.store.actions[id].jti in s.store.revoked
      ensures s.store.actions[id].state == Some(Clean) || HasReview(s.store.reviews, id)
    {
      assert ActionSound(s.store.tokens, s.store.actions[id]);
    }
  }

  ghost predicate ReviewFor(queued: seq<Review>, id: string) {
    exists r :: r in queued && r.actionId == id
  }

  /** A revoke queues a review for each action below j that is not known clean and has none yet. */
  lemma RevokeQueuesExactly(cfg: Config, s: State, now: Time, j: Jti, ids: seq<string>)
    requires ValidConfig(cfg) && ReachableState(cfg, s) && FreshReviews(s, j, ids)
    ensures var queued := Revoke(s, now, j, ids).1.reviews;
            && (forall r :: r in queued ==>
                  && r.actionId in s.store.actions
                  && r.classification == ClassifyAction(s.store.actions[r.actionId]) && r.root == j)
            && (forall id :: ReviewFor(queued, id)
                  <==> && id in s.store.actions && !HasReview(s.store.reviews, id)
                       && InSubtree(s.store.tokens, j, s.store.actions[id].jti)
                       && ClassifyAction(s.store.actions[id]) != Clean)
  {
    ReachableInv(cfg, s);
    var candidates, already := Candidates(s.store, j), Reviewed(s.store);
    var s1 := s.(store := RevokeMany(s.store, DescendantsOf(s.store, j), j, now));
    TargetsAndCandidates(cfg, s.store, s.signed, j);
    QueueMeaning(cfg, s1, already, candidates, ids, now, j);
    var queued := NewReviews(already, candidates, ids, now, j);
    NewReviewsMeaning(already, candidates, ids, now, j);
    forall id | id in s.store.actions
      ensures s.store.actions[id].actionId == id
      ensures Questionable(s.store.actions[id]) <==> ClassifyAction(s.store.actions[id]) != Clean
      ensures id in already <==> HasReview(s.store.reviews, id)
    {
      QuestionableNeedsReview(s.store.tokens, s.store.actions[id]);
    }
    forall id
      ensures ReviewFor(queued, id) <==> exists a :: a in candidates && NeedsReview(already, a) && a.actionId == id
    {
      if a :| a in candidates && NeedsReview(already, a) && a.actionId == id {
        var r :| r in queued && Matches(r, a, now, j);
      }
    }
    forall id | && id in s.store.actions && !HasReview(s.store.reviews, id)
                && InSubtree(s.store.tokens, j, s.store.actions[id].jti)
                && ClassifyAction(s.store.actions[id]) != Clean
      ensures ReviewFor(queued, id)
    {
      assert s.store.actions[id] in candidates && NeedsReview(already, s.store.actions[id]);
    }
  }

  ghost predicate Matches(r: Review, a: Action, now: Time, root: Jti) {
    r == ReviewOf(a, r.reviewId, now, root)
  }

  lemma {:induction false} NewReviewsNeeded(already: set<string>, candidates: seq<Action>, ids: seq<string>,
                                            now: Time, root: Jti, r: Review)
    requires |ids| == |candidates| && r in NewReviews(already, candidates, ids, now, root)
    ensures exists a :: a in candidates && NeedsReview(already, a) && Matches(r, a, now, root)
    decreases |ids|
  {
    var n := |candidates| - 1;
    var front := NewReviews(already, candidates[..n], ids[..n], now, root);
    assert candidates == candidates[..n] + [candidates[n]];
    if r in front {
      NewReviewsNeeded(already, candidates[..n], ids[..n], now, root, r);
      var a :| a in candidates[..n] && NeedsReview(already, a) && Matches(r, a, now, root);
      assert a in candidates;
    } else {
      assert Matches(r, candidates[n], now, root) && candidates[n] in candidates;
    }
  }

  lemma {:induction false} NeededAreQueued(already: set<string>, candidates: seq<Action>, ids: seq<string>,
                                           now: Time, root: Jti, a: Action)
    requires |ids| == |candidates| && a in candidates && NeedsReview(already, a)
    ensures exists r :: r in NewReviews(already, candidates, ids, now, root) && Matches(r, a, now, root)
    decreases |ids|
  {
    var n := |candidates| - 1;
    var front, queued := NewReviews(already, candidates[..n], ids[..n], now, root), NewReviews(already, candidates, ids, now, root);
    assert candidates == candidates[..n] + [candidates[n]];
    if a in candidates[..n] {
      NeededAreQueued(already, candidates[..n], ids[..n], now, root, a);
      var r :| r in front && Matches(r, a, now, root);
      assert r in queued;
    } else {
      var r := ReviewOf(a, ids[n], now, root);
      assert r in queued && Matches(r, a, now, root);
    }
  }

  lemma NewReviewsMeaning(already: set<string>, candidates: seq<Action>, ids: seq<string>, now: Time, root: Jti)
    requires |ids| == |candidates|
    ensures var queued := NewReviews(already, candidates, ids, now, root);
            && (forall r :: r in queued ==> exists a :: a in candidates && NeedsReview(already, a) && Matches(r, a, now, root))
            && (forall a :: a in candidates && NeedsReview(already, a) ==> exists r :: r in queued && Matches(r, a, now, root))
  {
    var queued := NewReviews(already, candidates, ids, now, root);
    forall r | r in queued
      ensures exists a :: a in candidates && NeedsReview(already, a) && Matches(r, a, now, root)
    {
      NewReviewsNeeded(already, candidates, ids, now, root, r);
    }
    forall a | a in candidates && NeedsReview(already, a)
      ensures exists r :: r in queued && Matches(r, a, now, root)
    {
      NeededAreQueued(already, candidates, ids, now, root, a);
    }
  }

  lemma {:induction false} NothingToQueue(s: State, already: set<string>, candidates: seq<Action>,
                                          ids: seq<string>, now: Time, root: Jti)
    requires |ids| == |candidates| && forall a :: a in candidates ==> !NeedsReview(already, a)
    ensures QueueReviews(s, already, candidates, ids, now, root) == (s, [])
    decreases |candidates|
  {
    if candidates != [] {
      var n := |candidates| - 1;
      assert candidates[n] in candidates;
      NothingToQueue(s, already, candidates[..n], ids[..n], now, root);
    }
  }

  lemma RevokedSubtree(cfg: Config, s: State, j: Jti, t: Jti)
    requires StoreInv(cfg, s.store, s.signed) && j in s.store.revoked && InSubtree(s.store.tokens, j, t)
    ensures t in s.store.revoked
  {
    if t != j {
      AncestorsRedundant(s.store.tokens, cfg.maxTtl, s.store.revoked.Keys, t);
    }
  }

  /** Revoking what is already revoked, at any later time, changes no record and queues nothing. */
  lemma RepeatRevokeQueuesNothing(cfg: Config, s: State, now: Time, j: Jti, ids: seq<string>)
    requires ValidConfig(cfg) && ReachableState(cfg, s) && FreshReviews(s, j, ids) && j in s.store.revoked
    ensures Revoke(s, now, j, ids).1.reviews == []
    ensures Revoke(s, now, j, ids).0.store == s.store
  {
    ReachableInv(cfg, s);
    var targets, candidates := DescendantsOf(s.store, j), Candidates(s.store, j);
    TargetsAndCandidates(cfg, s.store, s.signed, j);
    forall t | t in targets
      ensures t in s.store.revoked
    {
      RevokedSubtree(cfg, s, j, t);
    }
    var s1 := s.(store := RevokeMany(s.store, targets, j, now));
    assert s1.store.revoked == s.store.revoked;
    forall a | a in candidates
      ensures !NeedsReview(Reviewed(s.store), a)
    {
      var id :| id in s.store.reviews && s.store.reviews[id].actionId == a.actionId;
    }
    NothingToQueue(s1, Reviewed(s.store), candidates, ids, now, j);
  }

  // ------------------------------------------------------------------
  // The log and the breaker
  // ------------------------------------------------------------------

  /** Replaying the log from genesis rebuilds the token map, the edge set and the revoked set. */
  lemma LogRebuildsStore(cfg: Config, s: State)
    requires ValidConfig(cfg) && ReachableState(cfg, s)
    ensures Replay(s.log) == ViewOf(s.store)
  {
    ReachableInv(cfg, s);
  }

  /** While policy denials do not count, nothing that callers do opens the breaker but volume. */
  lemma OnlyVolumeOpensBreaker(cfg: Config, s: State)
    requires ValidConfig(cfg) && ReachableState(cfg, s) && !cfg.breaker.countPolicyDenials
    ensures s.breaker.opening.Some? ==> s.breaker.opening.value.reason == Guardrails.Volume
    ensures Guardrails.Errors(s.breaker.events) == 0
  {
    ReachableInv(cfg, s);
    Guardrails.ErrorFreeCount(s.breaker.events);
  }
}
