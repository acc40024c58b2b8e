/** How a state relates to every later one: what no operation ever takes back. */
module AuthorityHistory {
  import opened Core
  import opened Tokens
  import opened Lineage
  import opened Records
  import opened Storage
  import opened Authority
  import opened AuthorityInvariant
  import opened AuthorityTheorems

  ghost predicate TokensKept(a: TokenMap, b: TokenMap) {
    forall j :: j in a ==> j in b && b[j] == a[j]
  }

  ghost predicate RevocationsKept(a: map<Jti, Revocation>, b: map<Jti, Revocation>) {
    forall j :: j in a ==> j in b && b[j] == a[j]
  }

  /** A request never changes what it asks for; once decided it never changes at all. */
  ghost predicate SameRequest(a: Approval, b: Approval) {
    && b == a.(status := b.status, decidedAt := b.decidedAt, approvedBy := b.approvedBy,
               childJti := b.childJti, childToken := b.childToken)
    && (a.status != Pending ==> b == a)
  }

  ghost predicate ApprovalsKept(a: map<string, Approval>, b: map<string, Approval>) {
    forall id :: id in a ==> id in b && SameRequest(a[id], b[id])
  }

  /** An action only ever gains its ending, a review only its resolution, each once. */
  ghost predicate ActionsKept(a: map<string, Action>, b: map<string, Action>) {
    forall id :: id in a ==>
      && id in b && b[id] == a[id].(finishedAt := b[id].finishedAt, state := b[id].state)
      && (a[id].finishedAt.Some? ==> b[id] == a[id])
  }

  ghost predicate ReviewsKept(a: map<string, Review>, b: map<string, Review>) {
    forall id :: id in a ==>
      && id in b
      && b[id] == a[id].(reviewed := b[id].reviewed, reviewedBy := b[id].reviewedBy, reviewedAt := b[id].reviewedAt)
      && (a[id].reviewed ==> b[id] == a[id])
  }

  ghost predicate StoreKept(a: Store, b: Store) {
    && TokensKept(a.tokens, b.tokens) && RevocationsKept(a.revoked, b.revoked)
    && ApprovalsKept(a.approvals, b.approvals) && ActionsKept(a.actions, b.actions)
    && ReviewsKept(a.reviews, b.reviews) && (a.closed ==> b.closed)
  }

  ghost predicate Kept(s: State, s': State) {
    StoreKept(s.store, s'.store) && s.signed <= s'.signed && s.log <= s'.log
  }

  lemma KeptTransitively(a: State, b: State, c: State)
    requires Kept(a, b) && Kept(b, c)
    ensures Kept(a, c)
  {
    forall id | id in a.store.approvals
      ensures id in c.store.approvals && SameRequest(a.store.approvals[id], c.store.approvals[id])
    {
      assert SameRequest(a.store.approvals[id], b.store.approvals[id]);
      assert SameRequest(b.store.approvals[id], c.store.approvals[id]);
    }
  }

  // ------------------------------------------------------------------
  // Operation by operation
  // ------------------------------------------------------------------

  lemma RecordKept(cfg: Config, s: State, now: Time, error: bool, subject: string, policyDenial: bool)
    ensures var s' := Record(cfg, s, now, error, subject, policyDenial);
            s'.store == s.store && s'.signed == s.signed && s.log <= s'.log
  {
  }

  lemma RecordAndLogKept(cfg: Config, s: State, now: Time, error: bool, subject: string, e: Event)
    ensures var s' := Log(Record(cfg, s, now, error, subject, error), e);
            s'.store == s.store && s'.signed == s.signed && s.log <= s'.log
  {
    RecordKept(cfg, s, now, error, subject, error);
  }

  lemma VerifyKept(cfg: Config, s: State, now: Time, token: Token, scope: Scope)
    ensures var s' := Verify(cfg, s, now, token, scope).0;
            s'.store == s.store && s'.signed == s.signed && s.log <= s'.log
  {
    var d := Decode(s, token);
    if d.Dead? {
      RecordAndLogKept(cfg, s, now, true, "", VerifyDenied(None, scope, d.error.reason));
    } else {
      var c := d.claims;
      var s1 := RateCheck(cfg, s, now, c.sub, OpVerify).0;
      RecordAndLogKept(cfg, s1, now, false, c.sub, VerifyAllowed(c.jti, scope));
      RecordAndLogKept(cfg, s1, now, true, c.sub, VerifyDenied(Some(c.jti), scope, REASON_EXPIRED));
      RecordAndLogKept(cfg, s1, now, true, c.sub, VerifyDenied(Some(c.jti), scope, REASON_REVOKED));
      RecordAndLogKept(cfg, s1, now, true, c.sub, VerifyDenied(Some(c.jti), scope, REASON_SCOPE));
    }
  }

  lemma KeptItself(s: State)
    ensures Kept(s, s)
  {
  }

  lemma ThenLog(s0: State, s: State, e: Event)
    requires Kept(s0, s)
    ensures Kept(s0, Log(s, e))
  {
  }

  lemma ThenRecord(cfg: Config, s0: State, s: State, now: Time, error: bool, subject: string, policyDenial: bool)
    requires Kept(s0, s)
    ensures Kept(s0, Record(cfg, s, now, error, subject, policyDenial))
  {
    RecordKept(cfg, s, now, error, subject, policyDenial);
  }

  lemma ThenLogAndRecord(cfg: Config, s0: State, s: State, e: Event, now: Time, error: bool, subject: string, policyDenial: bool)
    requires Kept(s0, s)
    ensures Kept(s0, Record(cfg, Log(s, e), now, error, subject, policyDenial))
  {
    ThenLog(s0, s, e);
    ThenRecord(cfg, s0, Log(s, e), now, error, subject, policyDenial);
  }

  lemma IssueKept(s0: State, s: State, c: Claims, parent: Option<Jti>)
    requires Kept(s0, s) && s.store == s0.store && c.jti !in s.store.tokens
    ensures Kept(s0, Issue(s, c, parent))
  {
  }

  lemma ParkKept(cfg: Config, s0: State, s: State, now: Time, parent: Claims, r: Request)
    requires Kept(s0, s) && s.store == s0.store && r.freshApproval !in s.store.approvals
    ensures Kept(s0, Park(cfg, s, now, parent, r))
  {
    ThenLog(s0, s.(store := SetApproval(s.store, ParkedApproval(cfg, now, parent, r))),
            ApprovalPending(r.freshApproval, parent.jti, r.scopes, parent.depth + 1));
  }

  lemma AllowedKept(cfg: Config, s0: State, s: State, now: Time, parent: Claims, r: Request)
    requires Kept(s0, s) && s.store == s0.store
    requires r.freshJti !in s.store.tokens && r.freshApproval !in s.store.approvals
    ensures Kept(s0, Allow(cfg, s, now, parent, r).0)
  {
    if r.scopes * cfg.sensitive != {} {
      ParkKept(cfg, s0, s, now, parent, r);
      ThenRecord(cfg, s0, Park(cfg, s, now, parent, r), now, false, parent.sub, false);
    } else {
      var c := GrantedChild(cfg, now, parent, r);
      IssueKept(s0, s, c, Some(parent.jti));
      ThenLogAndRecord(cfg, s0, Issue(s, c, Some(parent.jti)),
                       Delegated(c.jti, parent.jti, c.rootJti, c.scopes, c.depth, c.exp),
                       now, false, parent.sub, false);
    }
  }

  lemma GrantKept(cfg: Config, s0: State, s: State, now: Time, parent: Claims, r: Request)
    requires Kept(s0, s) && s.store == s0.store
    requires r.freshJti !in s.store.tokens && r.freshApproval !in s.store.approvals
    ensures Kept(s0, Grant(cfg, s, now, parent, r).0)
  {
    var denied := r.scopes - parent.scopes;
    if denied != {} {
      ThenLogAndRecord(cfg, s0, s, EscalationDenied(parent.jti, r.scopes, denied, parent.depth + 1), now, true, parent.sub, true);
    } else if parent.depth + 1 > parent.maxDepth {
      ThenLogAndRecord(cfg, s0, s, DepthLimitExceeded(parent.jti, r.scopes, parent.depth + 1), now, true, parent.sub, true);
    } else {
      ThenLog(s0, s, AnomalyFlagged(parent.jti, r.scopes));
      AllowedKept(cfg, s0, if r.anomalous then Log(s, AnomalyFlagged(parent.jti, r.scopes)) else s, now, parent, r);
    }
  }

  lemma DelegateKept(cfg: Config, s: State, now: Time, r: Request)
    requires r.freshJti !in s.store.tokens && r.freshApproval !in s.store.approvals
    ensures Kept(s, Delegate(cfg, s, now, r).0)
  {
    KeptItself(s);
    var d := DecodeLive(s, now, r.token);
    if d.Live? {
      var s1 := RateCheck(cfg, s, now, d.claims.sub, OpDelegate).0;
      assert Kept(s, s1);
      GrantKept(cfg, s, s1, now, d.claims, r);
    }
  }

  ghost predicate OwnIds(approvals: map<string, Approval>) {
    forall id :: id in approvals ==> approvals[id].approvalId == id
  }

  /** Every decision goes through a pending record, under its own id. */
  lemma DecideKept(s: State, id: string, now: Time, status: Status, approver: Option<string>, child: Option<Claims>)
    requires id in s.store.approvals && s.store.approvals[id].status == Pending
    requires s.store.approvals[id].approvalId == id
    ensures Kept(s, Decide(s, s.store.approvals[id], now, status, approver, child))
  {
  }

  lemma LoadPendingKept(s: State, now: Time, id: string)
    requires OwnIds(s.store.approvals)
    ensures Kept(s, LoadPending(s, now, id).0)
  {
    KeptItself(s);
    if TimedOut(s.store, now, id) {
      DecideKept(s, id, now, Expired, None, None);
    }
  }

  lemma RefuseKept(s: State, id: string, now: Time, status: Status, approver: Option<string>, e: Event)
    requires id in s.store.approvals && s.store.approvals[id].status == Pending && OwnIds(s.store.approvals)
    ensures Kept(s, Log(Decide(s, s.store.approvals[id], now, status, approver, None), e))
  {
    DecideKept(s, id, now, status, approver, None);
    ThenLog(s, Decide(s, s.store.approvals[id], now, status, approver, None), e);
  }

  lemma FulfilKept(s: State, id: string, now: Time, approver: string, c: Claims, e: Event)
    requires id in s.store.approvals && s.store.approvals[id].status == Pending && OwnIds(s.store.approvals)
    requires c.jti !in s.store.tokens
    ensures var a := s.store.approvals[id];
            Kept(s, Log(Decide(Issue(s, c, Some(a.parentJti)), a, now, Approved, Some(approver), Some(c)), e))
  {
    var a := s.store.approvals[id];
    var s1 := Issue(s, c, Some(a.parentJti));
    KeptItself(s);
    IssueKept(s, s, c, Some(a.parentJti));
    DecideKept(s1, id, now, Approved, Some(approver), Some(c));
    var s2 := Decide(s1, a, now, Approved, Some(approver), Some(c));
    KeptTransitively(s, s1, s2);
    ThenLog(s, s2, e);
  }

  lemma ApproveKept(cfg: Config, s: State, now: Time, id: string, approver: string, jti: Jti)
    requires OwnIds(s.store.approvals)
    ensures Kept(s, Approve(cfg, s, now, id, approver, jti).0)
  {
    KeptItself(s);
    LoadPendingKept(s, now, id);
    if LoadPending(s, now, id).1.None? {
      var a := s.store.approvals[id];
      if a.parentJti !in s.store.tokens || s.store.closed {
      } else if a.parentJti in s.store.revoked {
        RefuseKept(s, id, now, Denied, Some(approver), ApprovalRejected(id, a.parentJti, approver));
      } else if a.parentExp < now {
        DecideKept(s, id, now, Expired, Some(approver), None);
      } else if jti !in s.store.tokens {
        var c := ApprovedChild(cfg, s, now, a, approver, jti);
        FulfilKept(s, id, now, approver, c,
                   ApprovalGranted(c.jti, a.parentJti, c.rootJti, c.scopes, c.depth, id, approver));
      }
    }
  }

  lemma {:induction false} ExpireStaleKept(s: State, now: Time, ids: seq<string>)
    requires OwnIds(s.store.approvals)
    ensures Kept(s, ExpireStale(s, now, ids)) && OwnIds(ExpireStale(s, now, ids).store.approvals)
    decreases |ids|
  {
    KeptItself(s);
    if ids != [] {
      var n := |ids| - 1;
      ExpireStaleKept(s, now, ids[..n]);
      var s1 := ExpireStale(s, now, ids[..n]);
      if TimedOut(s1.store, now, ids[n]) {
        var a := s1.store.approvals[ids[n]];
        RefuseKept(s1, ids[n], now, Expired, None, ApprovalExpired(ids[n], a.parentJti, a.requested));
        KeptTransitively(s, s1, ExpireStale(s, now, ids));
      }
    }
  }

  lemma {:induction false} QueueKept(s: State, already: set<string>, candidates: seq<Action>, ids: seq<string>,
                                     now: Time, root: Jti)
    requires |ids| == |candidates|
    ensures s.log <= QueueReviews(s, already, candidates, ids, now, root).0.log
    decreases |ids|
  {
    if candidates != [] {
      var n := |candidates| - 1;
      QueueKept(s, already, candidates[..n], ids[..n], now, root);
    }
  }

  lemma RevokeKept(cfg: Config, s: State, now: Time, j: Jti, ids: seq<string>)
    requires FreshReviews(s, j, ids)
    ensures Kept(s, Revoke(s, now, j, ids).0)
  {
    var s1 := s.(store := RevokeMany(s.store, DescendantsOf(s.store, j), j, now));
    QueueMeaning(cfg, s1, Reviewed(s.store), Candidates(s.store, j), ids, now, j);
    QueueKept(s1, Reviewed(s.store), Candidates(s.store, j), ids, now, j);
  }

  lemma ResolveKept(s: State, now: Time, id: string, blank: bool, reviewer: string)
    requires id in s.store.reviews ==> s.store.reviews[id].reviewId == id
    ensures Kept(s, ResolveReview(s, now, id, blank, reviewer).0)
  {
    KeptItself(s);
    if !blank && id in s.store.reviews && !s.store.reviews[id].reviewed {
      var r := s.store.reviews[id].(reviewed := true, reviewedBy := Some(reviewer), reviewedAt := Some(now));
      assert Kept(s, s.(store := SetReview(s.store, r)));
      ThenLog(s, s.(store := SetReview(s.store, r)), ReviewResolved(id, r.actionId, reviewer));
    }
  }

  lemma OpenActionKept(cfg: Config, s: State, now: Time, token: Token, scope: Scope, name: string,
                       rev: Reversibility, id: string)
    requires id !in s.store.actions
    ensures Kept(s, OpenAction(cfg, s, now, token, scope, name, rev, id).0)
  {
    KeptItself(s);
    VerifyKept(cfg, s, now, token, scope);
    var (s1, v) := Verify(cfg, s, now, token, scope);
    assert Kept(s, s1);
    if v.Valid? {
      var s2 := RateCheck(cfg, s1, now, v.claims.sub, OpAction).0;
      assert Kept(s, s2);
      var a := Action(id, v.claims.jti, v.claims.sub, name, scope, now, None, None, rev);
      assert Kept(s, s2.(store := PutAction(s2.store, a)));
      ThenLog(s, s2.(store := PutAction(s2.store, a)), ActionStarted(id, v.claims.jti, scope, rev));
    }
  }

  lemma MintRootKept(cfg: Config, s: State, now: Time, sub: string, scopes: set<Scope>, ttl: int, maxDepth: int, jti: Jti)
    requires jti !in s.store.tokens
    ensures Kept(s, MintRootToken(cfg, s, now, sub, scopes, ttl, maxDepth, jti).0)
  {
    KeptItself(s);
    var life := Min(OrDefault(ttl, cfg.defaultTtl), cfg.maxTtl);
    var ceiling := OrDefault(maxDepth, cfg.maxDelegationDepth);
    var c := MintRoot(cfg.issuer, jti, sub, scopes, life, ceiling, now);
    IssueKept(s, s, c, None);
    ThenLog(s, Issue(s, c, None), RootMinted(jti, scopes, life, ceiling));
  }

  lemma DenyKept(s: State, now: Time, id: string, approver: string)
    requires OwnIds(s.store.approvals)
    ensures Kept(s, Deny(s, now, id, approver).0)
  {
    LoadPendingKept(s, now, id);
    if LoadPending(s, now, id).1.None? {
      var a := s.store.approvals[id];
      RefuseKept(s, id, now, Denied, Some(approver), ApprovalDenied(id, a.parentJti, a.requested, approver));
    }
  }

  lemma CloseActionKept(s: State, now: Time, id: string, clean: bool)
    requires Legal(s, CallCloseAction(id, clean))
    ensures Kept(s, CloseAction(s, now, id, clean))
  {
    var state := if clean then Clean else Partial;
    var s1 := s.(store := CloseActionRow(s.store, id, state, now));
    assert Kept(s, s1);
    ThenLog(s, s1, ActionClosed(id, s.store.actions[id].jti, state));
  }

  lemma StepKept(cfg: Config, s: State, t: Timed)
    requires Inv(cfg, s) && Legal(s, t.call)
    ensures Kept(s, Step(cfg, s, t).0)
  {
    assert OwnIds(s.store.approvals);
    IndexedStepKept(cfg, s, t);
  }

  lemma IndexedStepKept(cfg: Config, s: State, t: Timed)
    requires OwnIds(s.store.approvals) && Legal(s, t.call)
    requires forall id :: id in s.store.reviews ==> s.store.reviews[id].reviewId == id
    ensures Kept(s, Step(cfg, s, t).0)
  {
    var now := t.now;
    match t.call {
      case CallMintRoot(sub, scopes, ttl, maxDepth, jti) => MintRootKept(cfg, s, now, sub, scopes, ttl, maxDepth, jti);
      case CallDelegate(r) => DelegateKept(cfg, s, now, r);
      case CallRevoke(j, ids) => RevokeKept(cfg, s, now, j, ids);
      case CallApprove(id, approver, jti) => ApproveKept(cfg, s, now, id, approver, jti);
      case CallDeny(id, approver) => DenyKept(s, now, id, approver);
      case CallExpireStale(listing) => ExpireStaleKept(s, now, listing);
      case CallResolveReview(id, blank, reviewer) => ResolveKept(s, now, id, blank, reviewer);
      case _ => UseKept(cfg, s, t);
    }
  }

  lemma UseKept(cfg: Config, s: State, t: Timed)
    requires Legal(s, t.call)
    requires || t.call.CallVerify? || t.call.CallOpenAction? || t.call.CallCloseAction?
             || t.call.CallCollect? || t.call.CallResetCircuit? || t.call.CallClose?
    ensures Kept(s, Step(cfg, s, t).0)
  {
    KeptItself(s);
    match t.call {
      case CallVerify(token, scope) => VerifyKept(cfg, s, t.now, token, scope);
      case CallOpenAction(token, scope, name, rev, id) => OpenActionKept(cfg, s, t.now, token, scope, name, rev, id);
      case CallCloseAction(id, clean) => CloseActionKept(s, t.now, id, clean);
      case CallResetCircuit => ThenLog(s, s.(breaker := ResetCircuit(s).breaker), BreakerReset(s.breaker.opening.Some?));
      case _ =>
    }
  }

  /** Tokens, revocations, decisions, endings, resolutions and log rows survive every run. */
  lemma {:induction false} RunKept(cfg: Config, s: State, calls: seq<Timed>, s': State)
    requires ValidConfig(cfg) && Inv(cfg, s) && Reaches(cfg, s, calls, s')
    ensures Inv(cfg, s') && Kept(s, s')
    decreases |calls|
  {
    if calls != [] {
      var next := Step(cfg, s, calls[0]).0;
      StepKeeps(cfg, s, calls[0]);
      StepKept(cfg, s, calls[0]);
      RunKept(cfg, next, calls[1..], s');
      KeptTransitively(s, next, s');
    }
  }

  // ------------------------------------------------------------------
  // What callers may rely on for ever
  // ------------------------------------------------------------------

  /** Once j is revoked, no later check ever accepts j or a token delegated from it at any distance. */
  lemma RevokedForever(cfg: Config, s: State, calls: seq<Timed>, s': State, j: Jti, c: Claims, scope: Scope, now: Time)
    requires ValidConfig(cfg) && ReachableState(cfg, s) && Reaches(cfg, s, calls, s')
    requires j in s.store.revoked && (c.jti == j || j in Jtis(c.chain))
    ensures !Verify(cfg, s', now, Encoded(c), scope).1.Valid?
    ensures DecodeLive(s', now, Encoded(c)).Dead?
  {
    ReachableInv(cfg, s);
    RunKept(cfg, s, calls, s');
    RevokedIsRefused(cfg, s', j, c, scope, now);
  }

  lemma RevokedIsRefused(cfg: Config, s: State, j: Jti, c: Claims, scope: Scope, now: Time)
    requires j in s.store.revoked && (c.jti == j || j in Jtis(c.chain))
    ensures !Verify(cfg, s, now, Encoded(c), scope).1.Valid?
    ensures DecodeLive(s, now, Encoded(c)).Dead?
  {
    if c.jti != j {
      var i :| 0 <= i < |c.chain| && Jtis(c.chain)[i] == j;
      assert c.chain[i] in c.chain && c.chain[i].jti == j;
    }
    assert AnyRevoked(s.store, c);
  }

  /** A decided request is never decided again, and keeps its token if it has one. */
  lemma DecidedIsFinal(cfg: Config, s: State, calls: seq<Timed>, s': State, id: string)
    requires ValidConfig(cfg) && ReachableState(cfg, s) && Reaches(cfg, s, calls, s')
    requires id in s.store.approvals && s.store.approvals[id].status != Pending
    ensures id in s'.store.approvals && s'.store.approvals[id] == s.store.approvals[id]
  {
    ReachableInv(cfg, s);
    RunKept(cfg, s, calls, s');
    assert SameRequest(s.store.approvals[id], s'.store.approvals[id]);
  }

  /**
   A closed store never again lets `verify`, `delegate`, `approve` or the opening of an action succeed:
   it cannot answer whether a token is revoked, so they refuse.  Calls that do not ask are not affected
   (`AuthorityOutcomes.ClosingAffectsOnlyLookups`).
   */
  lemma ClosedFailsClosed(cfg: Config, s: State, calls: seq<Timed>, s': State, t: Timed)
    requires ValidConfig(cfg) && ReachableState(cfg, s) && Reaches(cfg, s, calls, s')
    requires s.store.closed && Legal(s', t.call)
    ensures t.call.CallVerify? ==> !Step(cfg, s', t).1.result.Valid?
    ensures t.call.CallDelegate? || t.call.CallApprove? ==> Step(cfg, s', t).1.Raised?
    ensures t.call.CallOpenAction? ==> Step(cfg, s', t).1.Raised?
  {
    ReachableInv(cfg, s);
    RunKept(cfg, s, calls, s');
    ClosedRefuses(cfg, s', t);
  }

  lemma ClosedRefuses(cfg: Config, s: State, t: Timed)
    requires s.store.closed && Legal(s, t.call)
    ensures t.call.CallVerify? ==> !Step(cfg, s, t).1.result.Valid?
    ensures t.call.CallDelegate? || t.call.CallApprove? ==> Step(cfg, s, t).1.Raised?
    ensures t.call.CallOpenAction? ==> Step(cfg, s, t).1.Raised?
  {
  }
}
