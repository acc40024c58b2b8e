/** What every operation of the authority keeps. */
module AuthorityInvariant {
  import opened Core
  import opened Tokens
  import opened Lineage
  import opened Records
  import opened Storage
  import opened Walk
  import opened AuditReplay
  import opened Authority
  import Guardrails

  // ------------------------------------------------------------------
  // The invariant
  // ------------------------------------------------------------------

  /** The signed claim sets are exactly those that the stored records rebuild. */
  ghost predicate SignedMatch(issuer: string, tokens: TokenMap, signed: set<Claims>) {
    forall c :: c in signed <==> c.jti in tokens && ClaimsOf(issuer, tokens[c.jti]) == c
  }

  /** A delegated token holds a sensitive scope exactly if a named human approved it. */
  ghost predicate Gated(cfg: Config, m: TokenMeta) {
    m.parentJti.Some? ==>
      && (m.approvalRequired <==> m.scopes * cfg.sensitive != {})
      && (m.approvalRequired <==> m.approvedBy.Some?)
  }

  ghost predicate AllGated(cfg: Config, tokens: TokenMap) {
    forall j :: j in tokens ==> Gated(cfg, tokens[j])
  }

  /** A parked request still describes a grant that its parent could make. */
  ghost predicate Grantable(cfg: Config, tokens: TokenMap, a: Approval) {
    && a.parentJti in tokens
    && a.requested <= tokens[a.parentJti].scopes
    && a.sensitive == a.requested * cfg.sensitive != {}
    && a.parentExp == tokens[a.parentJti].expiresAt && a.expiresAt <= a.parentExp
    && tokens[a.parentJti].depth + 1 <= tokens[a.parentJti].maxDepth
  }

  /** An approved request points at the one token minted for it; no other request has one. */
  ghost predicate Fulfilled(cfg: Config, tokens: TokenMap, a: Approval) {
    && (a.status == Approved <==> a.childJti.Some?)
    && (a.childJti.None? ==> a.childToken.None?)
    && (a.childJti.Some? ==>
          && a.childJti.value in tokens
          && var m := tokens[a.childJti.value];
             && m.approvalRequired && m.parentJti == Some(a.parentJti) && m.scopes == a.requested
             && m.approvedBy == a.approvedBy && m.subjectId == a.childSubject
             && a.childToken == Some(Encoded(ClaimsOf(cfg.issuer, m))))
  }

  ghost predicate ApprovalsSound(cfg: Config, tokens: TokenMap, approvals: map<string, Approval>) {
    forall id :: id in approvals ==>
      approvals[id].approvalId == id && Grantable(cfg, tokens, approvals[id]) && Fulfilled(cfg, tokens, approvals[id])
  }

  ghost predicate OneChildEach(approvals: map<string, Approval>) {
    forall i, k :: (i in approvals && k in approvals && approvals[i].childJti.Some?
                    && approvals[i].childJti == approvals[k].childJti) ==> i == k
  }

  ghost predicate GrantedFor(approvals: map<string, Approval>, j: Jti, id: string) {
    id in approvals && approvals[id].childJti == Some(j)
  }

  ghost predicate ChildrenKnown(tokens: TokenMap, approvals: map<string, Approval>) {
    forall j :: j in tokens && tokens[j].approvalRequired ==> exists id :: GrantedFor(approvals, j, id)
  }

  ghost predicate ActionsSound(tokens: TokenMap, actions: map<string, Action>, byJti: map<Jti, seq<string>>) {
    && Indexed(actions, byJti)
    && forall id :: id in actions ==> ActionSound(tokens, actions[id])
  }

  ghost predicate ActionSound(tokens: TokenMap, a: Action) {
    a.jti in tokens && (a.finishedAt.None? <==> a.state.None?) && a.state != Some(Unknown)
  }

  ghost predicate ReviewsSound(revoked: set<Jti>, actions: map<string, Action>, reviews: map<string, Review>) {
    && (forall id :: id in reviews ==>
          && reviews[id].reviewId == id && reviews[id].classification != Clean
          && reviews[id].actionId in actions && reviews[id].jti == actions[reviews[id].actionId].jti
          && reviews[id].jti in revoked)
    && (forall i, k :: i in reviews && k in reviews && reviews[i].actionId == reviews[k].actionId ==> i == k)
  }

  ghost predicate HasReview(reviews: map<string, Review>, action: string) {
    exists id :: id in reviews && reviews[id].actionId == action
  }

  /** Every action of a revoked token ended cleanly or is under review. */
  ghost predicate Covered(revoked: set<Jti>, actions: map<string, Action>, reviews: map<string, Review>) {
    forall id :: id in actions && actions[id].jti in revoked && Questionable(actions[id]) ==> HasReview(reviews, id)
  }

  ghost predicate StoreInv(cfg: Config, st: Store, signed: set<Claims>) {
    && Forest(st.tokens, cfg.maxTtl)
    && SignedMatch(cfg.issuer, st.tokens, signed)
    && EdgesMatch(st.tokens, st.edges)
    && DownwardClosed(st.tokens, st.revoked.Keys)
    && AllGated(cfg, st.tokens)
    && ApprovalsSound(cfg, st.tokens, st.approvals)
    && OneChildEach(st.approvals)
    && ChildrenKnown(st.tokens, st.approvals)
    && ActionsSound(st.tokens, st.actions, st.actionsByJti)
    && ReviewsSound(st.revoked.Keys, st.actions, st.reviews)
    && Covered(st.revoked.Keys, st.actions, st.reviews)
  }

  /** Unless policy denials count, no sample is an error and only volume can have opened the breaker. */
  ghost predicate VolumeOnly(cfg: Config, b: Guardrails.Breaker) {
    !cfg.breaker.countPolicyDenials ==>
      Guardrails.ErrorFree(b.events) && (b.opening.Some? ==> b.opening.value.reason == Guardrails.Volume)
  }

  ghost predicate Inv(cfg: Config, s: State) {
    StoreInv(cfg, s.store, s.signed) && Replay(s.log) == ViewOf(s.store) && VolumeOnly(cfg, s.breaker)
  }

  // ------------------------------------------------------------------
  // Steps that touch only the log, the rate buckets and the breaker
  // ------------------------------------------------------------------

  ghost predicate Quiet(cfg: Config, s: State, s': State) {
    && s'.store == s.store && s'.signed == s.signed
    && Replay(s'.log) == Replay(s.log)
    && (VolumeOnly(cfg, s.breaker) ==> VolumeOnly(cfg, s'.breaker))
  }

  lemma LogQuiet(cfg: Config, s: State, e: Event)
    requires Neutral(e)
    ensures Quiet(cfg, s, Log(s, e))
  {
    ReplaySnoc(s.log, e);
  }

  lemma RecordReplays(cfg: Config, s: State, now: Time, error: bool, subject: string, policyDenial: bool)
    ensures var s' := Record(cfg, s, now, error, subject, policyDenial);
            s'.store == s.store && s'.signed == s.signed && Replay(s'.log) == Replay(s.log)
  {
    if !Exempt(cfg, subject) {
      var tripped := Guardrails.Trips(cfg.breaker, s.breaker, OutcomeSample(cfg, now, error, policyDenial));
      if tripped.Some? {
        ReplaySnoc(s.log, BreakerOpened(tripped.value));
      }
    }
  }

  /** The firewall never records an error that is not a policy denial. */
  lemma RecordQuiet(cfg: Config, s: State, now: Time, error: bool, subject: string, policyDenial: bool)
    requires ValidConfig(cfg) && (error ==> policyDenial)
    ensures Quiet(cfg, s, Record(cfg, s, now, error, subject, policyDenial))
  {
    RecordReplays(cfg, s, now, error, subject, policyDenial);
    if !Exempt(cfg, subject) && !cfg.breaker.countPolicyDenials && VolumeOnly(cfg, s.breaker) {
      assert OutcomeSample(cfg, now, error, policyDenial) == Guardrails.Sample(now as real, false);
      Guardrails.OnlyVolumeTrips(cfg.breaker, s.breaker, now as real);
    }
  }

  lemma RecordAndLogQuiet(cfg: Config, s: State, now: Time, error: bool, subject: string, e: Event)
    requires ValidConfig(cfg) && Neutral(e)
    ensures Quiet(cfg, s, Log(Record(cfg, s, now, error, subject, error), e))
  {
    RecordQuiet(cfg, s, now, error, subject, error);
    LogQuiet(cfg, Record(cfg, s, now, error, subject, error), e);
  }

  lemma VerifyQuiet(cfg: Config, s: State, now: Time, token: Token, scope: Scope)
    requires ValidConfig(cfg)
    ensures Quiet(cfg, s, Verify(cfg, s, now, token, scope).0)
  {
    var d := Decode(s, token);
    if s.breaker.opening.Some? || token.Missing? {
    } else if d.Dead? {
      RecordAndLogQuiet(cfg, s, now, true, "", VerifyDenied(None, scope, d.error.reason));
    } else {
      VerifyKnownQuiet(cfg, s, now, token, scope, d.claims);
    }
  }

  lemma VerifyKnownQuiet(cfg: Config, s: State, now: Time, token: Token, scope: Scope, c: Claims)
    requires ValidConfig(cfg) && Decode(s, token) == Live(c)
    ensures Quiet(cfg, s, Verify(cfg, s, now, token, scope).0)
  {
    var (s1, within) := RateCheck(cfg, s, now, c.sub, OpVerify);
    assert Quiet(cfg, s, s1);
    if !within {
    } else if c.exp < now {
      DenyQuiet(cfg, s1, now, c, scope, REASON_EXPIRED);
    } else if s.store.closed {
    } else if AnyRevoked(s.store, c) {
      DenyQuiet(cfg, s1, now, c, scope, REASON_REVOKED);
    } else if scope !in c.scopes {
      DenyQuiet(cfg, s1, now, c, scope, REASON_SCOPE);
    } else {
      RecordAndLogQuiet(cfg, s1, now, false, c.sub, VerifyAllowed(c.jti, scope));
    }
  }

  lemma DenyQuiet(cfg: Config, s: State, now: Time, c: Claims, scope: Scope, reason: string)
    requires ValidConfig(cfg)
    ensures Quiet(cfg, s, DenyVerify(cfg, s, now, c, scope, reason).0)
  {
    RecordAndLogQuiet(cfg, s, now, true, c.sub, VerifyDenied(Some(c.jti), scope, reason));
  }

  // ------------------------------------------------------------------
  // Minting
  // ------------------------------------------------------------------

  /** A record rebuilds the claims it was made from, whichever way they were minted. */
  lemma RecordRebuildsClaims(issuer: string, c: Claims, parent: Option<Jti>)
    requires c.iss == issuer
    requires c.issuedFor == match parent case None => c.sub case Some(p) => "agent:" + p
    ensures ClaimsOf(issuer, MetaOf(c, parent)) == c
  {
  }

  lemma SignNew(issuer: string, tokens: TokenMap, signed: set<Claims>, c: Claims, parent: Option<Jti>)
    requires SignedMatch(issuer, tokens, signed) && c.jti !in tokens
    requires ClaimsOf(issuer, MetaOf(c, parent)) == c
    ensures SignedMatch(issuer, tokens[c.jti := MetaOf(c, parent)], signed + {c})
  {
    var tokens', signed' := tokens[c.jti := MetaOf(c, parent)], signed + {c};
    forall d: Claims
      ensures d in signed' <==> d.jti in tokens' && ClaimsOf(issuer, tokens'[d.jti]) == d
    {
    }
  }

  lemma NewTokenKeepsOthers(cfg: Config, st: Store, m: TokenMeta)
    requires Forest(st.tokens, cfg.maxTtl) && m.jti !in st.tokens && m.jti !in st.revoked
    requires m.parentJti.Some? ==> m.parentJti.value !in st.revoked
    requires DownwardClosed(st.tokens, st.revoked.Keys)
    requires ApprovalsSound(cfg, st.tokens, st.approvals)
    requires ActionsSound(st.tokens, st.actions, st.actionsByJti)
    ensures var tokens' := st.tokens[m.jti := m];
            && DownwardClosed(tokens', st.revoked.Keys)
            && ApprovalsSound(cfg, tokens', st.approvals)
            && ActionsSound(tokens', st.actions, st.actionsByJti)
  {
    var tokens' := st.tokens[m.jti := m];
    forall id | id in st.approvals
      ensures Grantable(cfg, tokens', st.approvals[id]) && Fulfilled(cfg, tokens', st.approvals[id])
    {
      assert Grantable(cfg, st.tokens, st.approvals[id]);
    }
    forall id | id in st.actions
      ensures ActionSound(tokens', st.actions[id])
    {
      assert ActionSound(st.tokens, st.actions[id]);
    }
  }

  lemma NewEdge(tokens: TokenMap, maxTtl: int, e: Edges, m: TokenMeta, p: Jti)
    requires Forest(tokens, maxTtl) && EdgesMatch(tokens, e) && m.jti !in tokens && m.parentJti == Some(p)
    ensures EdgesMatch(tokens[m.jti := m], AddEdge(e, p, m.jti))
  {
    var tokens', e' := tokens[m.jti := m], AddEdge(e, p, m.jti);
    forall x, c
      ensures Edge(e', x, c) <==> ParentLink(tokens', x, c)
    {
      assert Edge(e', x, c) <==> Edge(e, x, c) || (x == p && c == m.jti);
      assert Edge(e, x, c) <==> ParentLink(tokens, x, c);
    }
  }

  lemma MintRootKeeps(cfg: Config, s: State, now: Time, sub: string, scopes: set<Scope>,
                      ttl: int, maxDepth: int, jti: Jti)
    requires ValidConfig(cfg) && Inv(cfg, s) && FreshJti(s, jti)
    ensures Inv(cfg, MintRootToken(cfg, s, now, sub, scopes, ttl, maxDepth, jti).0)
  {
    var s' := MintRootToken(cfg, s, now, sub, scopes, ttl, maxDepth, jti).0;
    if s' != s {
      var life := Min(OrDefault(ttl, cfg.defaultTtl), cfg.maxTtl);
      var ceiling := OrDefault(maxDepth, cfg.maxDelegationDepth);
      var c := MintRoot(cfg.issuer, jti, sub, scopes, life, ceiling, now);
      var m := MetaOf(c, None);
      RecordRebuildsClaims(cfg.issuer, c, None);
      SignNew(cfg.issuer, s.store.tokens, s.signed, c, None);
      GrowForest(s.store.tokens, cfg.maxTtl, m);
      NewTokenKeepsOthers(cfg, s.store, m);
      assert s'.store == PutToken(s.store, m);
      assert EdgesMatch(s'.store.tokens, s'.store.edges) by {
        forall x, y
          ensures ParentLink(s'.store.tokens, x, y) <==> ParentLink(s.store.tokens, x, y)
        {
        }
      }
      ReplaySnoc(s.log, RootMinted(jti, scopes, life, ceiling));
      ViewOfPut(s.store, m);
    }
  }

  /** The child of a stored token, with narrowed scopes, a clamped expiry and depth to spare. */
  lemma MintedIsChild(issuer: string, pm: TokenMeta, jti: Jti, sub: string, scopes: set<Scope>, exp: Time,
                      required: bool, approver: Option<string>, now: Time)
    requires scopes <= pm.scopes && exp <= pm.expiresAt && pm.depth + 1 <= pm.maxDepth
    ensures var c := MintChild(issuer, jti, ClaimsOf(issuer, pm), sub, scopes, exp, required, approver, now);
            IsChild(pm, MetaOf(c, Some(pm.jti))) && ClaimsOf(issuer, MetaOf(c, Some(pm.jti))) == c
  {
    var c := MintChild(issuer, jti, ClaimsOf(issuer, pm), sub, scopes, exp, required, approver, now);
    assert c.chain[..|pm.chain|] == pm.chain;
    RecordRebuildsClaims(issuer, c, Some(pm.jti));
  }

  /** Everything about a child mint except the approval bookkeeping. */
  lemma ChildMintKeeps(cfg: Config, s: State, c: Claims, p: Jti)
    requires StoreInv(cfg, s.store, s.signed)
    requires p in s.store.tokens && p !in s.store.revoked && c.jti !in s.store.tokens && c.jti !in s.store.revoked
    requires IsChild(s.store.tokens[p], MetaOf(c, Some(p))) && ClaimsOf(cfg.issuer, MetaOf(c, Some(p))) == c
    requires Gated(cfg, MetaOf(c, Some(p)))
    ensures var s' := Issue(s, c, Some(p)); var st' := s'.store;
            && st' == s.store.(tokens := st'.tokens, edges := st'.edges)
            && st'.tokens == s.store.tokens[c.jti := MetaOf(c, Some(p))]
            && Forest(st'.tokens, cfg.maxTtl)
            && SignedMatch(cfg.issuer, st'.tokens, s'.signed)
            && EdgesMatch(st'.tokens, st'.edges)
            && DownwardClosed(st'.tokens, st'.revoked.Keys)
            && AllGated(cfg, st'.tokens)
            && ApprovalsSound(cfg, st'.tokens, st'.approvals)
            && ActionsSound(st'.tokens, st'.actions, st'.actionsByJti)
  {
    var m := MetaOf(c, Some(p));
    GrowForest(s.store.tokens, cfg.maxTtl, m);
    SignNew(cfg.issuer, s.store.tokens, s.signed, c, Some(p));
    NewEdge(s.store.tokens, cfg.maxTtl, s.store.edges, m, p);
    NewTokenKeepsOthers(cfg, s.store, m);
  }

  lemma ChildMintView(s: State, c: Claims, p: Jti, e: Event)
    requires Replay(s.log) == ViewOf(s.store)
    requires || e == Delegated(c.jti, p, c.rootJti, c.scopes, c.depth, c.exp)
             || (e.ApprovalGranted? && e == ApprovalGranted(c.jti, p, c.rootJti, c.scopes, c.depth, e.approvalId, e.approver))
    ensures Replay(s.log + [e]) == ViewOf(Issue(s, c, Some(p)).store)
  {
    ReplaySnoc(s.log, e);
    ViewOfPut(s.store, MetaOf(c, Some(p)));
    ViewOfLink(PutToken(s.store, MetaOf(c, Some(p))), p, c.jti);
  }

  // ------------------------------------------------------------------
  // Delegation
  // ------------------------------------------------------------------

  /** What a live decode tells about the parent. */
  lemma LiveParent(cfg: Config, s: State, now: Time, token: Token)
    requires StoreInv(cfg, s.store, s.signed) && DecodeLive(s, now, token).Live?
    ensures var c := DecodeLive(s, now, token).claims;
            && c.jti in s.store.tokens && ClaimsOf(cfg.issuer, s.store.tokens[c.jti]) == c
            && s.store.tokens[c.jti].jti == c.jti && c.jti !in s.store.revoked && now <= c.exp
  {
    var c := DecodeLive(s, now, token).claims;
    assert WellPlaced(s.store.tokens, cfg.maxTtl, c.jti);
  }

  lemma QuietKeeps(cfg: Config, s: State, s': State)
    requires Inv(cfg, s) && Quiet(cfg, s, s')
    ensures Inv(cfg, s')
  {
  }

  lemma SetApprovalKeeps(cfg: Config, s: State, a: Approval)
    requires StoreInv(cfg, s.store, s.signed)
    requires Grantable(cfg, s.store.tokens, a) && Fulfilled(cfg, s.store.tokens, a) && a.childJti.None?
    requires a.approvalId in s.store.approvals ==> s.store.approvals[a.approvalId].childJti.None?
    ensures StoreInv(cfg, SetApproval(s.store, a), s.signed)
  {
    ChildrenStayKnown(s.store.tokens, s.store.approvals, a);
  }

  lemma ChildrenStayKnown(tokens: TokenMap, approvals: map<string, Approval>, a: Approval)
    requires ChildrenKnown(tokens, approvals)
    requires a.approvalId in approvals ==> approvals[a.approvalId].childJti.None?
    ensures ChildrenKnown(tokens, approvals[a.approvalId := a])
  {
    var approvals' := approvals[a.approvalId := a];
    forall j | j in tokens && tokens[j].approvalRequired
      ensures exists id :: GrantedFor(approvals', j, id)
    {
      var id :| GrantedFor(approvals, j, id);
      assert GrantedFor(approvals', j, id);
    }
  }

  lemma ParkKeeps(cfg: Config, s: State, now: Time, pm: TokenMeta, r: Request)
    requires Inv(cfg, s) && pm.jti in s.store.tokens && s.store.tokens[pm.jti] == pm
    requires r.scopes <= pm.scopes && pm.depth + 1 <= pm.maxDepth && r.scopes * cfg.sensitive != {}
    requires r.freshApproval !in s.store.approvals
    ensures Inv(cfg, Park(cfg, s, now, ClaimsOf(cfg.issuer, pm), r))
  {
    var parent := ClaimsOf(cfg.issuer, pm);
    var a := ParkedApproval(cfg, now, parent, r);
    ParkedIsSound(cfg, s, now, pm, r);
    SetApprovalKeeps(cfg, s, a);
    SetApprovalQuiet(cfg, s, a, ApprovalPending(r.freshApproval, parent.jti, r.scopes, parent.depth + 1));
  }

  lemma ParkedIsSound(cfg: Config, s: State, now: Time, pm: TokenMeta, r: Request)
    requires pm.jti in s.store.tokens && s.store.tokens[pm.jti] == pm
    requires r.scopes <= pm.scopes && pm.depth + 1 <= pm.maxDepth && r.scopes * cfg.sensitive != {}
    ensures var a := ParkedApproval(cfg, now, ClaimsOf(cfg.issuer, pm), r);
            && Grantable(cfg, s.store.tokens, a) && Fulfilled(cfg, s.store.tokens, a)
            && a.childJti.None? && a.approvalId == r.freshApproval
  {
  }

  /** Writing an approval and a row about it leaves log and store in step. */
  lemma SetApprovalQuiet(cfg: Config, s: State, a: Approval, e: Event)
    requires StoreInv(cfg, SetApproval(s.store, a), s.signed) && Neutral(e)
    requires Replay(s.log) == ViewOf(s.store) && VolumeOnly(cfg, s.breaker)
    ensures Inv(cfg, Log(s.(store := SetApproval(s.store, a)), e))
  {
    ReplaySnoc(s.log, e);
    assert ViewOf(SetApproval(s.store, a)) == ViewOf(s.store);
  }

  lemma LogKeeps(cfg: Config, s: State, e: Event)
    requires Inv(cfg, s) && Neutral(e)
    ensures Inv(cfg, Log(s, e))
  {
    LogQuiet(cfg, s, e);
  }

  lemma RecordKeeps(cfg: Config, s: State, now: Time, error: bool, subject: string, policyDenial: bool)
    requires ValidConfig(cfg) && Inv(cfg, s) && (error ==> policyDenial)
    ensures Inv(cfg, Record(cfg, s, now, error, subject, policyDenial))
  {
    RecordQuiet(cfg, s, now, error, subject, policyDenial);
  }

  lemma RefusalQuiet(cfg: Config, s: State, now: Time, subject: string, e: Event)
    requires ValidConfig(cfg) && Neutral(e)
    ensures Quiet(cfg, s, Record(cfg, Log(s, e), now, true, subject, true))
  {
    LogQuiet(cfg, s, e);
    RecordQuiet(cfg, Log(s, e), now, true, subject, true);
  }

  lemma EmptyDifference<T>(a: set<T>, b: set<T>)
    ensures a - b == {} <==> a <= b
  {
    assert a - b == {} ==> forall x :: x in a ==> x in b || x in a - b;
  }

  lemma GrantKeeps(cfg: Config, s: State, now: Time, pm: TokenMeta, r: Request)
    requires ValidConfig(cfg) && Inv(cfg, s)
    requires pm.jti in s.store.tokens && s.store.tokens[pm.jti] == pm && pm.jti !in s.store.revoked
    requires Legal(s, CallDelegate(r))
    ensures Inv(cfg, Grant(cfg, s, now, ClaimsOf(cfg.issuer, pm), r).0)
  {
    var parent := ClaimsOf(cfg.issuer, pm);
    if r.scopes - parent.scopes != {} {
      EscalationQuiet(cfg, s, now, parent, r);
      QuietKeeps(cfg, s, Grant(cfg, s, now, parent, r).0);
    } else if parent.depth + 1 > parent.maxDepth {
      DepthLimitQuiet(cfg, s, now, parent, r);
      QuietKeeps(cfg, s, Grant(cfg, s, now, parent, r).0);
    } else {
      EmptyDifference(r.scopes, parent.scopes);
      GrantAllowedKeeps(cfg, s, now, pm, r);
    }
  }

  lemma EscalationQuiet(cfg: Config, s: State, now: Time, parent: Claims, r: Request)
    requires ValidConfig(cfg) && r.scopes - parent.scopes != {}
    ensures Quiet(cfg, s, Grant(cfg, s, now, parent, r).0)
  {
    var e := EscalationDenied(parent.jti, r.scopes, r.scopes - parent.scopes, parent.depth + 1);
    EscalationIs(cfg, s, now, parent, r, e);
    RefusalQuiet(cfg, s, now, parent.sub, e);
  }

  lemma EscalationIs(cfg: Config, s: State, now: Time, parent: Claims, r: Request, e: Event)
    requires r.scopes - parent.scopes != {}
    requires e == EscalationDenied(parent.jti, r.scopes, r.scopes - parent.scopes, parent.depth + 1)
    ensures Grant(cfg, s, now, parent, r).0 == Record(cfg, Log(s, e), now, true, parent.sub, true)
  {
  }

  lemma DepthLimitQuiet(cfg: Config, s: State, now: Time, parent: Claims, r: Request)
    requires ValidConfig(cfg) && r.scopes - parent.scopes == {} && parent.depth + 1 > parent.maxDepth
    ensures Quiet(cfg, s, Grant(cfg, s, now, parent, r).0)
  {
    RefusalQuiet(cfg, s, now, parent.sub, DepthLimitExceeded(parent.jti, r.scopes, parent.depth + 1));
  }

  lemma GrantAllowedKeeps(cfg: Config, s: State, now: Time, pm: TokenMeta, r: Request)
    requires ValidConfig(cfg) && Inv(cfg, s)
    requires pm.jti in s.store.tokens && s.store.tokens[pm.jti] == pm && pm.jti !in s.store.revoked
    requires Legal(s, CallDelegate(r))
    requires r.scopes - pm.scopes == {} && r.scopes <= pm.scopes && pm.depth + 1 <= pm.maxDepth
    ensures Inv(cfg, Grant(cfg, s, now, ClaimsOf(cfg.issuer, pm), r).0)
  {
    LogKeeps(cfg, s, AnomalyFlagged(pm.jti, r.scopes));
    AllowedKeeps(cfg, if r.anomalous then Log(s, AnomalyFlagged(pm.jti, r.scopes)) else s, now, pm, r);
  }

  lemma AllowedKeeps(cfg: Config, s: State, now: Time, pm: TokenMeta, r: Request)
    requires ValidConfig(cfg) && Inv(cfg, s)
    requires pm.jti in s.store.tokens && s.store.tokens[pm.jti] == pm && pm.jti !in s.store.revoked
    requires FreshJti(s, r.freshJti) && r.freshApproval !in s.store.approvals
    requires r.scopes <= pm.scopes && pm.depth + 1 <= pm.maxDepth
    ensures Inv(cfg, Allow(cfg, s, now, ClaimsOf(cfg.issuer, pm), r).0)
  {
    var parent := ClaimsOf(cfg.issuer, pm);
    if r.scopes * cfg.sensitive != {} {
      ParkKeeps(cfg, s, now, pm, r);
      RecordKeeps(cfg, Park(cfg, s, now, parent, r), now, false, parent.sub, false);
    } else {
      MintGrantedKeeps(cfg, s, now, pm, r);
      RecordKeeps(cfg, MintGranted(cfg, s, now, parent, r), now, false, parent.sub, false);
    }
  }

  lemma MintGrantedKeeps(cfg: Config, s: State, now: Time, pm: TokenMeta, r: Request)
    requires Inv(cfg, s) && pm.jti in s.store.tokens && s.store.tokens[pm.jti] == pm
    requires pm.jti !in s.store.revoked && FreshJti(s, r.freshJti)
    requires r.scopes <= pm.scopes && pm.depth + 1 <= pm.maxDepth && r.scopes * cfg.sensitive == {}
    ensures Inv(cfg, MintGranted(cfg, s, now, ClaimsOf(cfg.issuer, pm), r))
  {
    var c := GrantedChild(cfg, now, ClaimsOf(cfg.issuer, pm), r);
    var e := Delegated(c.jti, pm.jti, c.rootJti, c.scopes, c.depth, c.exp);
    MintedIsChild(cfg.issuer, pm, r.freshJti, r.childSubject, r.scopes, c.exp, false, None, now);
    ChildMintKeeps(cfg, s, c, pm.jti);
    ChildMintView(s, c, pm.jti, e);
    var st' := Issue(s, c, Some(pm.jti)).store;
    forall j | j in st'.tokens && st'.tokens[j].approvalRequired
      ensures exists id :: GrantedFor(st'.approvals, j, id)
    {
      assert j in s.store.tokens;
    }
  }

  lemma DelegateCases(cfg: Config, s: State, now: Time, r: Request)
    ensures var d := DecodeLive(s, now, r.token);
            var s' := Delegate(cfg, s, now, r).0;
            || s' == s
            || (d.Live? && (var s1 := RateCheck(cfg, s, now, d.claims.sub, OpDelegate).0;
                            s' == s1 || s' == Grant(cfg, s1, now, d.claims, r).0))
  {
  }

  lemma RateQuiet(cfg: Config, s: State, now: Time, subject: string, op: Operation)
    ensures var s1 := RateCheck(cfg, s, now, subject, op).0;
            Quiet(cfg, s, s1) && s1.store == s.store
  {
  }

  lemma DelegateKeeps(cfg: Config, s: State, now: Time, r: Request)
    requires ValidConfig(cfg) && Inv(cfg, s) && Legal(s, CallDelegate(r))
    ensures Inv(cfg, Delegate(cfg, s, now, r).0)
  {
    DelegateCases(cfg, s, now, r);
    var d := DecodeLive(s, now, r.token);
    if d.Live? {
      LiveParent(cfg, s, now, r.token);
      DelegateLiveKeeps(cfg, s, now, r, s.store.tokens[d.claims.jti]);
    }
  }

  lemma DelegateLiveKeeps(cfg: Config, s: State, now: Time, r: Request, pm: TokenMeta)
    requires ValidConfig(cfg) && Inv(cfg, s) && Legal(s, CallDelegate(r))
    requires pm.jti in s.store.tokens && s.store.tokens[pm.jti] == pm && pm.jti !in s.store.revoked
    ensures var c := ClaimsOf(cfg.issuer, pm);
            var s1 := RateCheck(cfg, s, now, c.sub, OpDelegate).0;
            Inv(cfg, s1) && Inv(cfg, Grant(cfg, s1, now, c, r).0)
  {
    var s1 := RateCheck(cfg, s, now, ClaimsOf(cfg.issuer, pm).sub, OpDelegate).0;
    RateQuiet(cfg, s, now, ClaimsOf(cfg.issuer, pm).sub, OpDelegate);
    QuietKeeps(cfg, s, s1);
    GrantKeeps(cfg, s1, now, pm, r);
  }

  // ------------------------------------------------------------------
  // The approval gate
  // ------------------------------------------------------------------

  /** Closing a pending request without minting. */
  lemma RefuseKeeps(cfg: Config, s: State, id: string, now: Time, status: Status, approver: Option<string>)
    requires Inv(cfg, s) && id in s.store.approvals && s.store.approvals[id].status == Pending
    requires status == Denied || status == Expired
    ensures Inv(cfg, Decide(s, s.store.approvals[id], now, status, approver, None))
  {
    var a := s.store.approvals[id];
    assert Grantable(cfg, s.store.tokens, a) && Fulfilled(cfg, s.store.tokens, a);
    SetApprovalKeeps(cfg, s, a.(status := status, decidedAt := Some(now), approvedBy := approver,
                                childJti := None, childToken := None));
  }

  lemma LoadPendingKeeps(cfg: Config, s: State, now: Time, id: string)
    requires Inv(cfg, s)
    ensures Inv(cfg, LoadPending(s, now, id).0)
  {
    if TimedOut(s.store, now, id) {
      RefuseKeeps(cfg, s, id, now, Expired, None);
    }
  }

  function ApprovedRecord(a: Approval, now: Time, approver: string, c: Claims): Approval {
    a.(status := Approved, decidedAt := Some(now), approvedBy := Some(approver),
       childJti := Some(c.jti), childToken := Some(Encoded(c)))
  }

  /** The child of an approved request is a well-formed grant of its parent. */
  lemma ApprovedChildIsChild(cfg: Config, s: State, now: Time, a: Approval, approver: string, jti: Jti)
    requires Forest(s.store.tokens, cfg.maxTtl) && Grantable(cfg, s.store.tokens, a)
    ensures var c := ApprovedChild(cfg, s, now, a, approver, jti);
            && IsChild(s.store.tokens[a.parentJti], MetaOf(c, Some(a.parentJti)))
            && ClaimsOf(cfg.issuer, MetaOf(c, Some(a.parentJti))) == c
            && Gated(cfg, MetaOf(c, Some(a.parentJti)))
  {
    assert WellPlaced(s.store.tokens, cfg.maxTtl, a.parentJti);
    MintedIsChild(cfg.issuer, s.store.tokens[a.parentJti], jti, a.childSubject, a.requested,
                  Min(now + a.ttl, a.parentExp), true, Some(approver), now);
  }

  /** Nothing has been minted for this request, and its parent may still grant. */
  ghost predicate Approvable(cfg: Config, s: State, a: Approval) {
    && a.approvalId in s.store.approvals && s.store.approvals[a.approvalId] == a && a.childJti.None?
    && Grantable(cfg, s.store.tokens, a) && a.parentJti !in s.store.revoked
  }

  lemma FulfilApprovals(cfg: Config, s: State, now: Time, a: Approval, approver: string, jti: Jti)
    requires StoreInv(cfg, s.store, s.signed) && FreshJti(s, jti) && Approvable(cfg, s, a)
    ensures var c := ApprovedChild(cfg, s, now, a, approver, jti);
            var tokens' := s.store.tokens[jti := MetaOf(c, Some(a.parentJti))];
            var approvals' := s.store.approvals[a.approvalId := ApprovedRecord(a, now, approver, c)];
            ApprovalsSound(cfg, tokens', approvals') && OneChildEach(approvals') && ChildrenKnown(tokens', approvals')
  {
    var c := ApprovedChild(cfg, s, now, a, approver, jti);
    ApprovedChildIsChild(cfg, s, now, a, approver, jti);
    var tokens' := s.store.tokens[jti := MetaOf(c, Some(a.parentJti))];
    NewTokenKeepsOthers(cfg, s.store, MetaOf(c, Some(a.parentJti)));
    assert Grantable(cfg, tokens', a);
    FulfilledApprovals(cfg, s, tokens', a.approvalId, ApprovedRecord(a, now, approver, c));
  }

  /** Minting for an approved request and pointing the request at the token. */
  lemma FulfilStore(cfg: Config, s: State, now: Time, a: Approval, approver: string, jti: Jti)
    requires StoreInv(cfg, s.store, s.signed) && FreshJti(s, jti) && Approvable(cfg, s, a)
    ensures var c := ApprovedChild(cfg, s, now, a, approver, jti);
            var s1 := Issue(s, c, Some(a.parentJti));
            StoreInv(cfg, SetApproval(s1.store, ApprovedRecord(a, now, approver, c)), s1.signed)
  {
    ApprovedChildIsChild(cfg, s, now, a, approver, jti);
    ChildMintKeeps(cfg, s, ApprovedChild(cfg, s, now, a, approver, jti), a.parentJti);
    FulfilApprovals(cfg, s, now, a, approver, jti);
  }

  lemma FulfilKeeps(cfg: Config, s: State, now: Time, id: string, approver: string, jti: Jti)
    requires Inv(cfg, s) && FreshJti(s, jti)
    requires id in s.store.approvals && s.store.approvals[id].status == Pending
    requires s.store.approvals[id].parentJti in s.store.tokens
    requires s.store.approvals[id].parentJti !in s.store.revoked
    ensures var a := s.store.approvals[id];
            var c := ApprovedChild(cfg, s, now, a, approver, jti);
            Inv(cfg, Log(Decide(Issue(s, c, Some(a.parentJti)), a, now, Approved, Some(approver), Some(c)),
                         ApprovalGranted(c.jti, a.parentJti, c.rootJti, c.scopes, c.depth, id, approver)))
  {
    var a := s.store.approvals[id];
    var c := ApprovedChild(cfg, s, now, a, approver, jti);
    assert a.approvalId == id && Grantable(cfg, s.store.tokens, a) && Fulfilled(cfg, s.store.tokens, a);
    FulfilStore(cfg, s, now, a, approver, jti);
    ChildMintView(s, c, a.parentJti,
                  ApprovalGranted(c.jti, a.parentJti, c.rootJti, c.scopes, c.depth, id, approver));
    var st1 := Issue(s, c, Some(a.parentJti)).store;
    assert ViewOf(SetApproval(st1, ApprovedRecord(a, now, approver, c))) == ViewOf(st1);
  }

  lemma FulfilledApprovals(cfg: Config, s: State, tokens': TokenMap, id: string, a': Approval)
    requires StoreInv(cfg, s.store, s.signed)
    requires id in s.store.approvals && s.store.approvals[id].childJti.None? && a'.approvalId == id
    requires a'.childJti.Some? && a'.childJti.value !in s.store.tokens
    requires ApprovalsSound(cfg, tokens', s.store.approvals)
    requires Grantable(cfg, tokens', a') && Fulfilled(cfg, tokens', a')
    requires forall j :: j in tokens' <==> j in s.store.tokens || j == a'.childJti.value
    requires forall j :: j in s.store.tokens ==> tokens'[j] == s.store.tokens[j]
    ensures var approvals' := s.store.approvals[id := a'];
            ApprovalsSound(cfg, tokens', approvals') && OneChildEach(approvals') && ChildrenKnown(tokens', approvals')
  {
    var approvals' := s.store.approvals[id := a'];
    forall i | i in s.store.approvals
      ensures s.store.approvals[i].childJti != a'.childJti
    {
      assert Fulfilled(cfg, s.store.tokens, s.store.approvals[i]);
    }
    forall j | j in tokens' && tokens'[j].approvalRequired
      ensures exists k :: GrantedFor(approvals', j, k)
    {
      if j == a'.childJti.value {
        assert GrantedFor(approvals', j, id);
      } else {
        var k :| GrantedFor(s.store.approvals, j, k);
        assert GrantedFor(approvals', j, k);
      }
    }
  }

  lemma RefuseAndLogKeeps(cfg: Config, s: State, id: string, now: Time, status: Status, approver: Option<string>, e: Event)
    requires Inv(cfg, s) && id in s.store.approvals && s.store.approvals[id].status == Pending
    requires (status == Denied || status == Expired) && Neutral(e)
    ensures Inv(cfg, Log(Decide(s, s.store.approvals[id], now, status, approver, None), e))
  {
    RefuseKeeps(cfg, s, id, now, status, approver);
    LogKeeps(cfg, Decide(s, s.store.approvals[id], now, status, approver, None), e);
  }

  lemma ApproveKeeps(cfg: Config, s: State, now: Time, id: string, approver: string, jti: Jti)
    requires Inv(cfg, s) && FreshJti(s, jti)
    ensures Inv(cfg, Approve(cfg, s, now, id, approver, jti).0)
  {
    LoadPendingKeeps(cfg, s, now, id);
    if LoadPending(s, now, id).1.None? {
      ApproveLoadedKeeps(cfg, s, now, id, approver, jti, s.store.approvals[id]);
    }
  }

  lemma ApproveLoadedKeeps(cfg: Config, s: State, now: Time, id: string, approver: string, jti: Jti, a: Approval)
    requires Inv(cfg, s) && FreshJti(s, jti) && LoadPending(s, now, id) == (s, None)
    requires id in s.store.approvals && s.store.approvals[id] == a && a.status == Pending
    ensures Inv(cfg, Approve(cfg, s, now, id, approver, jti).0)
  {
    if a.parentJti !in s.store.tokens || s.store.closed {
    } else if a.parentJti in s.store.revoked {
      RefuseAndLogKeeps(cfg, s, id, now, Denied, Some(approver), ApprovalRejected(id, a.parentJti, approver));
    } else if a.parentExp < now {
      RefuseKeeps(cfg, s, id, now, Expired, Some(approver));
    } else {
      ApproveMintKeeps(cfg, s, now, id, approver, jti, a);
    }
  }

  lemma ApproveMintKeeps(cfg: Config, s: State, now: Time, id: string, approver: string, jti: Jti, a: Approval)
    requires Inv(cfg, s) && FreshJti(s, jti) && LoadPending(s, now, id) == (s, None)
    requires id in s.store.approvals && s.store.approvals[id] == a && a.status == Pending && !s.store.closed
    requires a.parentJti in s.store.tokens && a.parentJti !in s.store.revoked && now <= a.parentExp
    ensures Inv(cfg, Approve(cfg, s, now, id, approver, jti).0)
  {
    FulfilKeeps(cfg, s, now, id, approver, jti);
  }

  lemma DenyKeeps(cfg: Config, s: State, now: Time, id: string, approver: string)
    requires Inv(cfg, s)
    ensures Inv(cfg, Deny(s, now, id, approver).0)
  {
    LoadPendingKeeps(cfg, s, now, id);
    if LoadPending(s, now, id).1.None? {
      var a := s.store.approvals[id];
      RefuseAndLogKeeps(cfg, s, id, now, Denied, Some(approver), ApprovalDenied(id, a.parentJti, a.requested, approver));
    }
  }

  lemma {:induction false} ExpireStaleKeeps(cfg: Config, s: State, now: Time, ids: seq<string>)
    requires Inv(cfg, s)
    ensures Inv(cfg, ExpireStale(s, now, ids))
    decreases |ids|
  {
    if ids != [] {
      var n := |ids| - 1;
      ExpireStaleKeeps(cfg, s, now, ids[..n]);
      var s1 := ExpireStale(s, now, ids[..n]);
      if TimedOut(s1.store, now, ids[n]) {
        var a := s1.store.approvals[ids[n]];
        RefuseAndLogKeeps(cfg, s1, ids[n], now, Expired, None, ApprovalExpired(ids[n], a.parentJti, a.requested));
      }
    }
  }

  // ------------------------------------------------------------------
  // Actions
  // ------------------------------------------------------------------

  lemma IndexedPut(st: Store, a: Action)
    requires Indexed(st.actions, st.actionsByJti) && a.actionId !in st.actions
    ensures Indexed(PutAction(st, a).actions, PutAction(st, a).actionsByJti)
  {
    var st' := PutAction(st, a);
    assert a.actionId !in ActionsOn(st.actionsByJti, a.jti);
    forall j, id
      ensures id in ActionsOn(st'.actionsByJti, j) <==> id in st'.actions && st'.actions[id].jti == j
    {
      assert id in ActionsOn(st'.actionsByJti, j)
        <==> id in ActionsOn(st.actionsByJti, j) || (j == a.jti && id == a.actionId);
    }
    forall j
      ensures NoDups(ActionsOn(st'.actionsByJti, j))
    {
      assert NoDups(ActionsOn(st.actionsByJti, j));
    }
  }

  lemma PutActionKeeps(cfg: Config, s: State, a: Action)
    requires StoreInv(cfg, s.store, s.signed)
    requires a.actionId !in s.store.actions && a.jti in s.store.tokens && a.jti !in s.store.revoked
    requires a.finishedAt.None? && a.state.None?
    ensures StoreInv(cfg, PutAction(s.store, a), s.signed)
  {
    IndexedPut(s.store, a);
    var st' := PutAction(s.store, a);
    forall id | id in st'.actions
      ensures ActionSound(st'.tokens, st'.actions[id])
    {
      assert id in s.store.actions ==> ActionSound(s.store.tokens, s.store.actions[id]);
    }
  }

  lemma OpenActionKeeps(cfg: Config, s: State, now: Time, token: Token, scope: Scope, name: string,
                        rev: Reversibility, id: string)
    requires ValidConfig(cfg) && Inv(cfg, s)
    ensures Inv(cfg, OpenAction(cfg, s, now, token, scope, name, rev, id).0)
  {
    var (s1, v) := Verify(cfg, s, now, token, scope);
    VerifyKeeps(cfg, s, now, token, scope);
    if v.Valid? {
      VerifiedIsStored(cfg, s, now, token, scope);
      StartKeeps(cfg, s1, now, v.claims, scope, name, rev, id);
    }
  }

  lemma VerifyKeeps(cfg: Config, s: State, now: Time, token: Token, scope: Scope)
    requires ValidConfig(cfg) && Inv(cfg, s)
    ensures Inv(cfg, Verify(cfg, s, now, token, scope).0)
  {
    VerifyQuiet(cfg, s, now, token, scope);
  }

  lemma VerifiedIsSigned(cfg: Config, s: State, now: Time, token: Token, scope: Scope)
    ensures var (s1, v) := Verify(cfg, s, now, token, scope);
            v.Valid? ==> s1.store == s.store && v.claims in s.signed && v.claims.jti !in s.store.revoked
  {
  }

  lemma VerifiedIsStored(cfg: Config, s: State, now: Time, token: Token, scope: Scope)
    requires SignedMatch(cfg.issuer, s.store.tokens, s.signed)
    ensures var (s1, v) := Verify(cfg, s, now, token, scope);
            v.Valid? ==> s1.store == s.store && v.claims.jti in s.store.tokens && v.claims.jti !in s.store.revoked
  {
    VerifiedIsSigned(cfg, s, now, token, scope);
  }

  /** The part of opening an action that follows a successful check of the scope. */
  lemma StartKeeps(cfg: Config, s: State, now: Time, c: Claims, scope: Scope, name: string,
                   rev: Reversibility, id: string)
    requires Inv(cfg, s) && c.jti in s.store.tokens && c.jti !in s.store.revoked
    ensures var (s2, within) := RateCheck(cfg, s, now, c.sub, OpAction);
            var a := Action(id, c.jti, c.sub, name, scope, now, None, None, rev);
            && Inv(cfg, s2)
            && (id !in s.store.actions ==>
                  Inv(cfg, Log(s2.(store := PutAction(s2.store, a)), ActionStarted(id, c.jti, scope, rev))))
  {
    var s2 := RateCheck(cfg, s, now, c.sub, OpAction).0;
    if id !in s.store.actions {
      var a := Action(id, c.jti, c.sub, name, scope, now, None, None, rev);
      PutActionKeeps(cfg, s2, a);
      assert ViewOf(PutAction(s2.store, a)) == ViewOf(s2.store);
      LogKeeps(cfg, s2.(store := PutAction(s2.store, a)), ActionStarted(id, c.jti, scope, rev));
    }
  }

  lemma CloseRowKeeps(cfg: Config, s: State, id: string, state: Completion, now: Time)
    requires StoreInv(cfg, s.store, s.signed) && state != Unknown
    requires id in s.store.actions && s.store.actions[id].finishedAt.None?
    ensures StoreInv(cfg, CloseActionRow(s.store, id, state, now), s.signed)
  {
    var st' := CloseActionRow(s.store, id, state, now);
    forall k | k in st'.actions
      ensures ActionSound(st'.tokens, st'.actions[k]) && st'.actions[k].jti == s.store.actions[k].jti
      ensures Questionable(st'.actions[k]) ==> Questionable(s.store.actions[k])
    {
      assert ActionSound(s.store.tokens, s.store.actions[k]);
    }
    assert Indexed(st'.actions, st'.actionsByJti);
  }

  lemma CloseActionKeeps(cfg: Config, s: State, now: Time, id: string, clean: bool)
    requires Inv(cfg, s) && Legal(s, CallCloseAction(id, clean))
    ensures Inv(cfg, CloseAction(s, now, id, clean))
  {
    var state := if clean then Clean else Partial;
    CloseRowKeeps(cfg, s, id, state, now);
    LogKeeps(cfg, s.(store := CloseActionRow(s.store, id, state, now)),
             ActionClosed(id, s.store.actions[id].jti, state));
  }

  // ------------------------------------------------------------------
  // Revocation and reviews
  // ------------------------------------------------------------------

  /** The reviews map after queueing: what was there, and one new review per candidate that needs it. */
  ghost predicate Queued(reviews: map<string, Review>, reviews': map<string, Review>, already: set<string>,
                         candidates: seq<Action>, ids: seq<string>, now: Time, root: Jti)
    requires |ids| == |candidates|
  {
    && (forall id :: id in reviews ==> id in reviews' && reviews'[id] == reviews[id])
    && (forall i :: 0 <= i < |candidates| && NeedsReview(already, candidates[i]) ==>
          ids[i] in reviews' && reviews'[ids[i]] == ReviewOf(candidates[i], ids[i], now, root))
    && (forall id :: id in reviews' && id !in reviews ==>
          exists i :: 0 <= i < |candidates| && ids[i] == id && NeedsReview(already, candidates[i]))
  }

  /** The list returned: a review for each candidate that needs one, in order. */
  function NewReviews(already: set<string>, candidates: seq<Action>, ids: seq<string>, now: Time, root: Jti): seq<Review>
    requires |ids| == |candidates|
  {
    if candidates == [] then []
    else
      var n := |candidates| - 1;
      NewReviews(already, candidates[..n], ids[..n], now, root)
      + if NeedsReview(already, candidates[n]) then [ReviewOf(candidates[n], ids[n], now, root)] else []
  }

  lemma {:induction false} QueueMeaning(cfg: Config, s: State, already: set<string>, candidates: seq<Action>,
                                        ids: seq<string>, now: Time, root: Jti)
    requires |ids| == |candidates| && NoDups(ids) && forall id :: id in ids ==> id !in s.store.reviews
    ensures var (s', queued) := QueueReviews(s, already, candidates, ids, now, root);
            && s' == s.(store := s.store.(reviews := s'.store.reviews), log := s'.log)
            && Replay(s'.log) == Replay(s.log)
            && Queued(s.store.reviews, s'.store.reviews, already, candidates, ids, now, root)
            && queued == NewReviews(already, candidates, ids, now, root)
    decreases |candidates|
  {
    if candidates != [] {
      var n := |candidates| - 1;
      var a := candidates[n];
      assert forall i :: 0 <= i < n ==> ids[..n][i] == ids[i];
      QueueMeaning(cfg, s, already, candidates[..n], ids[..n], now, root);
      var (s1, queued) := QueueReviews(s, already, candidates[..n], ids[..n], now, root);
      var (s2, _) := QueueReviews(s, already, candidates, ids, now, root);
      if NeedsReview(already, a) {
        var r := ReviewOf(a, ids[n], now, root);
        assert ids[n] in ids;
        QueuedSnoc(s.store.reviews, s1.store.reviews, already, candidates, ids, now, root);
        ReplaySnoc(s1.log, ReviewQueued(r.reviewId, a.actionId, a.jti, r.classification, ReviewPriority(a)));
      } else {
        QueuedSkip(s.store.reviews, s1.store.reviews, already, candidates, ids, now, root);
      }
    }
  }

  lemma QueuedSnoc(reviews: map<string, Review>, reviews1: map<string, Review>, already: set<string>,
                   candidates: seq<Action>, ids: seq<string>, now: Time, root: Jti)
    requires |ids| == |candidates| && candidates != [] && NoDups(ids)
    requires ids[|ids| - 1] !in reviews && NeedsReview(already, candidates[|ids| - 1])
    requires Queued(reviews, reviews1, already, candidates[..|ids| - 1], ids[..|ids| - 1], now, root)
    ensures var n := |ids| - 1;
            Queued(reviews, reviews1[ids[n] := ReviewOf(candidates[n], ids[n], now, root)],
                   already, candidates, ids, now, root)
  {
    var n := |ids| - 1;
    var reviews2 := reviews1[ids[n] := ReviewOf(candidates[n], ids[n], now, root)];
    forall i | 0 <= i < |candidates| && NeedsReview(already, candidates[i])
      ensures ids[i] in reviews2 && reviews2[ids[i]] == ReviewOf(candidates[i], ids[i], now, root)
    {
      if i < n {
        assert candidates[..n][i] == candidates[i] && ids[..n][i] == ids[i];
      }
    }
    forall id | id in reviews2 && id !in reviews
      ensures exists i :: 0 <= i < |candidates| && ids[i] == id && NeedsReview(already, candidates[i])
    {
      if id == ids[n] {
        assert NeedsReview(already, candidates[n]);
      } else {
        var i :| 0 <= i < n && ids[..n][i] == id && NeedsReview(already, candidates[..n][i]);
        assert ids[i] == id && NeedsReview(already, candidates[i]);
      }
    }
  }

  lemma QueuedSkip(reviews: map<string, Review>, reviews1: map<string, Review>, already: set<string>,
                   candidates: seq<Action>, ids: seq<string>, now: Time, root: Jti)
    requires |ids| == |candidates| && candidates != [] && !NeedsReview(already, candidates[|ids| - 1])
    requires Queued(reviews, reviews1, already, candidates[..|ids| - 1], ids[..|ids| - 1], now, root)
    ensures Queued(reviews, reviews1, already, candidates, ids, now, root)
  {
    var n := |ids| - 1;
    forall i | 0 <= i < |candidates| && NeedsReview(already, candidates[i])
      ensures ids[i] in reviews1 && reviews1[ids[i]] == ReviewOf(candidates[i], ids[i], now, root)
    {
      assert candidates[..n][i] == candidates[i] && ids[..n][i] == ids[i];
    }
    forall id | id in reviews1 && id !in reviews
      ensures exists i :: 0 <= i < |candidates| && ids[i] == id && NeedsReview(already, candidates[i])
    {
      var i :| 0 <= i < n && ids[..n][i] == id && NeedsReview(already, candidates[..n][i]);
      assert ids[i] == id && NeedsReview(already, candidates[i]);
    }
  }

  /** The targets of a revoke are the subtree of j, and its candidates their questionable actions. */
  lemma TargetsAndCandidates(cfg: Config, st: Store, signed: set<Claims>, j: Jti)
    requires StoreInv(cfg, st, signed)
    ensures var targets, candidates := DescendantsOf(st, j), Candidates(st, j);
            && NoDups(targets) && (forall t :: t in targets <==> InSubtree(st.tokens, j, t))
            && DistinctIds(candidates)
            && (forall a :: a in candidates <==> a.actionId in st.actions && a == st.actions[a.actionId]
                                                 && a.jti in targets && Questionable(a))
  {
    InMemoryLists(st.edges);
    DescendantsMeaning(st.edges, InMemory(st.edges), j);
    WalkIsSubtree(st.tokens, cfg.maxTtl, st.edges, InMemory(st.edges), j);
    CandidatesMeaning(st, DescendantsOf(st, j));
  }

  lemma QuestionableNeedsReview(tokens: TokenMap, a: Action)
    requires ActionSound(tokens, a)
    ensures Questionable(a) <==> ClassifyAction(a) != Clean
  {
  }

  /** A new review belongs to one candidate. */
  lemma NewReviewOf(st: Store, reviews': map<string, Review>, candidates: seq<Action>, ids: seq<string>,
                    now: Time, j: Jti, id: string) returns (i: nat)
    requires |ids| == |candidates| && Queued(st.reviews, reviews', Reviewed(st), candidates, ids, now, j)
    requires id in reviews' && id !in st.reviews
    ensures i < |candidates| && ids[i] == id && NeedsReview(Reviewed(st), candidates[i])
    ensures candidates[i] in candidates && reviews'[id] == ReviewOf(candidates[i], id, now, j)
  {
    i :| 0 <= i < |candidates| && ids[i] == id && NeedsReview(Reviewed(st), candidates[i]);
  }

  lemma ReviewsSoundAfter(cfg: Config, st: Store, signed: set<Claims>, j: Jti, ids: seq<string>,
                          revoked': set<Jti>, reviews': map<string, Review>, now: Time)
    requires StoreInv(cfg, st, signed) && |ids| == |Candidates(st, j)|
    requires revoked' == st.revoked.Keys + Elements(DescendantsOf(st, j))
    requires Queued(st.reviews, reviews', Reviewed(st), Candidates(st, j), ids, now, j)
    ensures ReviewsSound(revoked', st.actions, reviews')
  {
    var targets, candidates := DescendantsOf(st, j), Candidates(st, j);
    TargetsAndCandidates(cfg, st, signed, j);
    forall id | id in reviews'
      ensures && reviews'[id].reviewId == id && reviews'[id].classification != Clean
              && reviews'[id].actionId in st.actions
              && reviews'[id].jti == st.actions[reviews'[id].actionId].jti && reviews'[id].jti in revoked'
    {
      if id !in st.reviews {
        var i := NewReviewOf(st, reviews', candidates, ids, now, j, id);
        assert candidates[i].jti in Elements(targets);
      }
    }
    OneReviewEach(st, reviews', candidates, ids, now, j);
  }

  lemma CoveredAfter(cfg: Config, st: Store, signed: set<Claims>, j: Jti, ids: seq<string>,
                     revoked': set<Jti>, reviews': map<string, Review>, now: Time)
    requires StoreInv(cfg, st, signed) && |ids| == |Candidates(st, j)|
    requires revoked' == st.revoked.Keys + Elements(DescendantsOf(st, j))
    requires Queued(st.reviews, reviews', Reviewed(st), Candidates(st, j), ids, now, j)
    ensures Covered(revoked', st.actions, reviews')
  {
    TargetsAndCandidates(cfg, st, signed, j);
    forall id | id in st.actions && st.actions[id].jti in revoked' && Questionable(st.actions[id])
      ensures HasReview(reviews', id)
    {
      if id in Reviewed(st) {
        var k :| k in st.reviews && st.reviews[k].actionId == id;
        assert reviews'[k].actionId == id;
      } else {
        NewlyCovered(cfg, st, signed, j, ids, reviews', now, id);
      }
    }
  }

  lemma NewlyCovered(cfg: Config, st: Store, signed: set<Claims>, j: Jti, ids: seq<string>,
                     reviews': map<string, Review>, now: Time, id: string)
    requires StoreInv(cfg, st, signed) && |ids| == |Candidates(st, j)|
    requires Queued(st.reviews, reviews', Reviewed(st), Candidates(st, j), ids, now, j)
    requires id in st.actions && Questionable(st.actions[id]) && id !in Reviewed(st)
    requires st.actions[id].jti in st.revoked || st.actions[id].jti in Elements(DescendantsOf(st, j))
    ensures HasReview(reviews', id)
  {
    var a, candidates := st.actions[id], Candidates(st, j);
    assert ActionSound(st.tokens, a) && a.actionId == id;
    assert HasReview(st.reviews, id) ==> id in Reviewed(st);
    TargetsAndCandidates(cfg, st, signed, j);
    QuestionableNeedsReview(st.tokens, a);
    var i :| 0 <= i < |candidates| && candidates[i] == a;
    assert NeedsReview(Reviewed(st), candidates[i]);
    assert ids[i] in reviews' && reviews'[ids[i]].actionId == id;
  }

  lemma OneReviewEach(st: Store, reviews': map<string, Review>, candidates: seq<Action>, ids: seq<string>,
                      now: Time, j: Jti)
    requires |ids| == |candidates| && DistinctIds(candidates)
    requires forall i, k :: i in st.reviews && k in st.reviews && st.reviews[i].actionId == st.reviews[k].actionId ==> i == k
    requires Queued(st.reviews, reviews', Reviewed(st), candidates, ids, now, j)
    ensures forall x, y :: x in reviews' && y in reviews' && reviews'[x].actionId == reviews'[y].actionId ==> x == y
  {
    forall id | id in reviews'
      ensures id in st.reviews <==> reviews'[id].actionId in Reviewed(st)
    {
      if id !in st.reviews {
        var i := NewReviewOf(st, reviews', candidates, ids, now, j, id);
      }
    }
    forall x, y | x in reviews' && y in reviews' && reviews'[x].actionId == reviews'[y].actionId
      ensures x == y
    {
      if x !in st.reviews {
        var i := NewReviewOf(st, reviews', candidates, ids, now, j, x);
        var k := NewReviewOf(st, reviews', candidates, ids, now, j, y);
      }
    }
  }

  lemma RevokeKeeps(cfg: Config, s: State, now: Time, j: Jti, ids: seq<string>)
    requires Inv(cfg, s) && FreshReviews(s, j, ids)
    ensures Inv(cfg, Revoke(s, now, j, ids).0)
  {
    var targets, candidates := DescendantsOf(s.store, j), Candidates(s.store, j);
    var s1 := s.(store := RevokeMany(s.store, targets, j, now));
    var (s2, queued) := QueueReviews(s1, Reviewed(s.store), candidates, ids, now, j);
    var e := RevokedTree(j, targets, |candidates|, IdsOf(queued));
    TargetsAndCandidates(cfg, s.store, s.signed, j);
    QueueMeaning(cfg, s1, Reviewed(s.store), candidates, ids, now, j);
    var revoked' := s.store.revoked.Keys + Elements(targets);
    assert s2.store.revoked.Keys == revoked';
    SubtreeKeepsClosed(s.store.tokens, cfg.maxTtl, s.store.revoked.Keys, j, Elements(targets));
    ReviewsSoundAfter(cfg, s.store, s.signed, j, ids, revoked', s2.store.reviews, now);
    CoveredAfter(cfg, s.store, s.signed, j, ids, revoked', s2.store.reviews, now);
    ReplaySnoc(s2.log, e);
    ViewOfRevoke(s.store, targets, j, now);
    assert ViewOf(s2.store) == ViewOf(RevokeMany(s.store, targets, j, now));
  }

  lemma SetReviewKeeps(cfg: Config, s: State, r: Review)
    requires Inv(cfg, s) && r.reviewId in s.store.reviews
    requires s.store.reviews[r.reviewId] == r.(reviewed := s.store.reviews[r.reviewId].reviewed,
               reviewedBy := s.store.reviews[r.reviewId].reviewedBy, reviewedAt := s.store.reviews[r.reviewId].reviewedAt)
    ensures Inv(cfg, s.(store := SetReview(s.store, r)))
  {
    ReviewStays(s.store.reviews, r);
    assert ViewOf(SetReview(s.store, r)) == ViewOf(s.store);
  }

  lemma ReviewStays(reviews: map<string, Review>, r: Review)
    requires r.reviewId in reviews && reviews[r.reviewId].actionId == r.actionId
    ensures forall k :: HasReview(reviews, k) ==> HasReview(reviews[r.reviewId := r], k)
  {
    forall k | HasReview(reviews, k)
      ensures HasReview(reviews[r.reviewId := r], k)
    {
      var i :| i in reviews && reviews[i].actionId == k;
      assert reviews[r.reviewId := r][i].actionId == k;
    }
  }

  lemma ResolveReviewKeeps(cfg: Config, s: State, now: Time, id: string, blank: bool, reviewer: string)
    requires Inv(cfg, s)
    ensures Inv(cfg, ResolveReview(s, now, id, blank, reviewer).0)
  {
    if !blank && id in s.store.reviews && !s.store.reviews[id].reviewed {
      var r := s.store.reviews[id].(reviewed := true, reviewedBy := Some(reviewer), reviewedAt := Some(now));
      assert r.reviewId == id;
      SetReviewKeeps(cfg, s, r);
      LogKeeps(cfg, s.(store := SetReview(s.store, r)), ReviewResolved(id, r.actionId, reviewer));
    }
  }

  // ------------------------------------------------------------------
  // Every operation, every run
  // ------------------------------------------------------------------

  lemma StepKeeps(cfg: Config, s: State, t: Timed)
    requires ValidConfig(cfg) && Inv(cfg, s) && Legal(s, t.call)
    ensures Inv(cfg, Step(cfg, s, t).0)
  {
    var now := t.now;
    match t.call {
      case CallMintRoot(sub, scopes, ttl, maxDepth, jti) => MintRootKeeps(cfg, s, now, sub, scopes, ttl, maxDepth, jti);
      case CallDelegate(r) => DelegateKeeps(cfg, s, now, r);
      case CallVerify(token, scope) => VerifyKeeps(cfg, s, now, token, scope);
      case CallOpenAction(token, scope, name, rev, id) => OpenActionKeeps(cfg, s, now, token, scope, name, rev, id);
      case CallCloseAction(id, clean) => CloseActionKeeps(cfg, s, now, id, clean);
      case CallRevoke(j, ids) => RevokeKeeps(cfg, s, now, j, ids);
      case CallResolveReview(id, blank, reviewer) => ResolveReviewKeeps(cfg, s, now, id, blank, reviewer);
      case CallApprove(id, approver, jti) => ApproveKeeps(cfg, s, now, id, approver, jti);
      case CallDeny(id, approver) => DenyKeeps(cfg, s, now, id, approver);
      case CallCollect(id) =>
      case CallExpireStale(listing) => ExpireStaleKeeps(cfg, s, now, listing);
      case CallResetCircuit => LogKeeps(cfg, s.(breaker := Guardrails.Breaker([], None)), BreakerReset(s.breaker.opening.Some?));
      case CallClose =>
    }
  }

  lemma {:induction false} RunKeeps(cfg: Config, s: State, calls: seq<Timed>, s': State)
    requires ValidConfig(cfg) && Inv(cfg, s) && Reaches(cfg, s, calls, s')
    ensures Inv(cfg, s')
    decreases |calls|
  {
    if calls != [] {
      StepKeeps(cfg, s, calls[0]);
      RunKeeps(cfg, Step(cfg, s, calls[0]).0, calls[1..], s');
    }
  }

  lemma InitiallyInv(cfg: Config)
    ensures Inv(cfg, INITIAL)
  {
    assert EdgePairs(map[]) == {};
  }

  lemma ReachableInv(cfg: Config, s: State)
    requires ValidConfig(cfg) && ReachableState(cfg, s)
    ensures Inv(cfg, s)
  {
    var calls :| Reaches(cfg, INITIAL, calls, s);
    InitiallyInv(cfg);
    RunKeeps(cfg, INITIAL, calls, s);
  }
}
