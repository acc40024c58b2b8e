/**
 The audit log against the outcomes: apart from the rows of the breaker, it says call by call what the
 callers were told, and nothing else.
 */
module AuthorityTrail {
  import opened Core
  import opened Tokens
  import opened Records
  import opened Storage
  import opened Walk
  import opened Authority
  import opened AuthorityInvariant
  import opened AuthorityBudgets
  import opened AuthorityBreaker
  import Admission = AuthorityAdmission
  import Outcomes = AuthorityOutcomes
  import History = AuthorityHistory
  import Guardrails

  // ------------------------------------------------------------------
  // What an outcome says
  // ------------------------------------------------------------------

  /** A check is logged with its answer, unless the breaker is open, no token came with it, or it raised. */
  function CheckRows(s: State, token: Token, scope: Scope, v: VerifyResult): seq<Event> {
    match v
    case Valid(c) => [VerifyAllowed(c.jti, scope)]
    case Invalid(reason) =>
      if s.breaker.opening.Some? || token.Missing? then []
      else [VerifyDenied(if token.Encoded? && token.claims in s.signed then Some(token.claims.jti) else None, scope, reason)]
    case VerifyRaised(_) => []
  }

  /** A delegation is logged with what came of it, after the anomaly if a grant was one. */
  function DelegateRows(r: Request, parent: Claims, o: Outcome): seq<Event> {
    (if r.anomalous && (o.Minted? || o.ParkedAs?) then [AnomalyFlagged(parent.jti, r.scopes)] else [])
    + ResultRows(r, parent, o)
  }

  function ResultRows(r: Request, parent: Claims, o: Outcome): seq<Event> {
    match o
    case Minted(c) => [Delegated(c.jti, parent.jti, c.rootJti, c.scopes, c.depth, c.exp)]
    case ParkedAs(id) => [ApprovalPending(id, parent.jti, r.scopes, parent.depth + 1)]
    case Raised(ScopeEscalation(denied)) => [EscalationDenied(parent.jti, r.scopes, denied, parent.depth + 1)]
    case Raised(DepthLimit) => [DepthLimitExceeded(parent.jti, r.scopes, parent.depth + 1)]
    case _ => []
  }

  /** A revoke is logged with each review that it queued, and then as a whole. */
  function RevokeRows(st: Store, j: Jti, targets: seq<Jti>, reviews: seq<Review>): seq<Event> {
    QueuedRows(st, reviews) + [RevokedTree(j, targets, |Candidates(st, j)|, IdsOf(reviews))]
  }

  function QueuedRows(st: Store, reviews: seq<Review>): seq<Event> {
    if reviews == [] then []
    else
      var r := reviews[|reviews| - 1];
      QueuedRows(st, reviews[..|reviews| - 1])
      + if r.actionId !in st.actions then []
        else [ReviewQueued(r.reviewId, r.actionId, r.jti, r.classification, ReviewPriority(st.actions[r.actionId]))]
  }

  /** An approval is logged as granted, or as rejected because the parent was revoked in the meantime. */
  function ApproveRows(id: string, approver: string, parent: Jti, o: Outcome): seq<Event> {
    match o
    case Minted(c) => [ApprovalGranted(c.jti, parent, c.rootJti, c.scopes, c.depth, id, approver)]
    case Raised(ParentInvalid(reason)) => if reason == "revoked" then [ApprovalRejected(id, parent, approver)] else []
    case _ => []
  }

  /** A sweep is logged with each request that it expired, in the order of the listing. */
  function SweepRows(st: Store, now: Time, listing: seq<string>): seq<Event> {
    if listing == [] then []
    else
      var n := |listing| - 1;
      SweepRows(st, now, listing[..n])
      + if listing[n] in listing[..n] || !TimedOut(st, now, listing[n]) then []
        else [ApprovalExpired(listing[n], st.approvals[listing[n]].parentJti, st.approvals[listing[n]].requested)]
  }

  /** What the log has to say about a call, given its outcome. */
  ghost function Rows(cfg: Config, s: State, t: Timed): seq<Event>
    requires Legal(s, t.call)
  {
    var o := Step(cfg, s, t).1;
    match t.call
    case CallMintRoot(_, _, _, _, _) =>
      if o.Minted? then [RootMinted(o.claims.jti, o.claims.scopes, o.claims.exp - o.claims.iat, o.claims.maxDepth)] else []
    case CallDelegate(r) => if r.token.Encoded? then DelegateRows(r, r.token.claims, o) else []
    case CallVerify(token, scope) => CheckRows(s, token, scope, o.result)
    case CallOpenAction(token, scope, _, rev, _) =>
      CheckRows(s, token, scope, Verify(cfg, s, t.now, token, scope).1)
      + if o.Opened? && token.Encoded? then [ActionStarted(o.actionId, token.claims.jti, scope, rev)] else []
    case CallCloseAction(id, clean) => [ActionClosed(id, s.store.actions[id].jti, if clean then Clean else Partial)]
    case CallRevoke(j, _) => if o.Swept? then RevokeRows(s.store, j, o.targets, o.reviews) else []
    case CallResolveReview(id, _, reviewer) =>
      if o == Done && id in s.store.reviews then [ReviewResolved(id, s.store.reviews[id].actionId, reviewer)] else []
    case CallApprove(id, approver, _) =>
      if id in s.store.approvals then ApproveRows(id, approver, s.store.approvals[id].parentJti, o) else []
    case CallDeny(id, approver) =>
      if o == Done && id in s.store.approvals
      then [ApprovalDenied(id, s.store.approvals[id].parentJti, s.store.approvals[id].requested, approver)] else []
    case CallExpireStale(listing) => SweepRows(s.store, t.now, listing)
    case _ => []
  }

  // ------------------------------------------------------------------
  // The log without the breaker
  // ------------------------------------------------------------------

  function Trail(log: seq<Event>): seq<Event> {
    if log == [] then []
    else Trail(log[..|log| - 1]) + if BreakerRow(log[|log| - 1]) then [] else [log[|log| - 1]]
  }

  lemma TrailSnoc(log: seq<Event>, e: Event)
    ensures Trail(log + [e]) == Trail(log) + if BreakerRow(e) then [] else [e]
  {
    assert (log + [e])[..|log|] == log;
  }

  lemma Logged(s: State, e: Event)
    ensures Trail(Log(s, e).log) == Trail(s.log) + if BreakerRow(e) then [] else [e]
  {
    TrailSnoc(s.log, e);
  }

  lemma RecordAside(cfg: Config, s: State, now: Time, error: bool, subject: string, policyDenial: bool)
    ensures Trail(Record(cfg, s, now, error, subject, policyDenial).log) == Trail(s.log)
  {
    if !Exempt(cfg, subject) {
      var x := OutcomeSample(cfg, now, error, policyDenial);
      var tripped := Guardrails.Trips(cfg.breaker, s.breaker, x);
      if tripped.Some? {
        TrailSnoc(s.log, BreakerOpened(tripped.value));
      }
    }
  }

  // ------------------------------------------------------------------
  // Call by call
  // ------------------------------------------------------------------

  lemma RecordedThenLogged(cfg: Config, s: State, now: Time, error: bool, subject: string, e: Event)
    ensures Trail(Log(Record(cfg, s, now, error, subject, error), e).log)
            == Trail(s.log) + if BreakerRow(e) then [] else [e]
  {
    RecordAside(cfg, s, now, error, subject, error);
    Logged(Record(cfg, s, now, error, subject, error), e);
  }

  lemma VerifyTrail(cfg: Config, s: State, now: Time, token: Token, scope: Scope)
    ensures var (s', v) := Verify(cfg, s, now, token, scope);
            Trail(s'.log) == Trail(s.log) + CheckRows(s, token, scope, v)
  {
    var d := Decode(s, token);
    if s.breaker.opening.Some? || token.Missing? {
    } else if d.Dead? {
      RecordedThenLogged(cfg, s, now, true, "", VerifyDenied(None, scope, d.error.reason));
    } else {
      KnownTrail(cfg, s, now, token, scope, d.claims);
    }
  }

  lemma KnownTrail(cfg: Config, s: State, now: Time, token: Token, scope: Scope, c: Claims)
    requires s.breaker.opening.None? && Decode(s, token) == Live(c)
    ensures var (s', v) := Verify(cfg, s, now, token, scope);
            Trail(s'.log) == Trail(s.log) + CheckRows(s, token, scope, v)
  {
    var (s1, within) := RateCheck(cfg, s, now, c.sub, OpVerify);
    var result := Verify(cfg, s, now, token, scope);
    if !within || (now <= c.exp && s.store.closed) {
      assert result.0.log == s.log && result.1.VerifyRaised?;
    } else if now <= c.exp && !AnyRevoked(s.store, c) && scope in c.scopes {
      RecordedThenLogged(cfg, s1, now, false, c.sub, VerifyAllowed(c.jti, scope));
    } else {
      var reason := if c.exp < now then REASON_EXPIRED else if AnyRevoked(s.store, c) then REASON_REVOKED else REASON_SCOPE;
      assert result == DenyVerify(cfg, s1, now, c, scope, reason);
      DeniedTrail(cfg, s1, now, c, scope, reason);
    }
  }

  lemma DeniedTrail(cfg: Config, s: State, now: Time, c: Claims, scope: Scope, reason: string)
    ensures Trail(DenyVerify(cfg, s, now, c, scope, reason).0.log)
            == Trail(s.log) + [VerifyDenied(Some(c.jti), scope, reason)]
  {
    RecordedThenLogged(cfg, s, now, true, c.sub, VerifyDenied(Some(c.jti), scope, reason));
  }

  lemma LoggedThenRecorded(cfg: Config, s: State, now: Time, error: bool, subject: string, e: Event)
    ensures Trail(Record(cfg, Log(s, e), now, error, subject, error).log)
            == Trail(s.log) + if BreakerRow(e) then [] else [e]
  {
    Logged(s, e);
    RecordAside(cfg, Log(s, e), now, error, subject, error);
  }

  lemma ParkTrail(cfg: Config, s: State, now: Time, parent: Claims, r: Request)
    ensures Trail(Record(cfg, Park(cfg, s, now, parent, r), now, false, parent.sub, false).log)
            == Trail(s.log) + [ApprovalPending(r.freshApproval, parent.jti, r.scopes, parent.depth + 1)]
  {
    var s1 := s.(store := SetApproval(s.store, ParkedApproval(cfg, now, parent, r)));
    var e := ApprovalPending(r.freshApproval, parent.jti, r.scopes, parent.depth + 1);
    assert Park(cfg, s, now, parent, r) == Log(s1, e) && s1.log == s.log;
    LoggedThenRecorded(cfg, s1, now, false, parent.sub, e);
  }

  lemma MintTrail(cfg: Config, s: State, now: Time, parent: Claims, r: Request, c: Claims)
    requires c == GrantedChild(cfg, now, parent, r)
    ensures Trail(Record(cfg, MintGranted(cfg, s, now, parent, r), now, false, parent.sub, false).log)
            == Trail(s.log) + [Delegated(c.jti, parent.jti, c.rootJti, c.scopes, c.depth, c.exp)]
  {
    var s1, e := Issue(s, c, Some(parent.jti)), Delegated(c.jti, parent.jti, c.rootJti, c.scopes, c.depth, c.exp);
    assert MintGranted(cfg, s, now, parent, r) == Log(s1, e) && s1.log == s.log;
    LoggedThenRecorded(cfg, s1, now, false, parent.sub, e);
  }

  lemma AllowTrail(cfg: Config, s: State, now: Time, parent: Claims, r: Request)
    requires r.freshJti !in s.store.tokens
    ensures var (s', o) := Allow(cfg, s, now, parent, r);
            (o.Minted? || o.ParkedAs?) && Trail(s'.log) == Trail(s.log) + ResultRows(r, parent, o)
  {
    var result := Allow(cfg, s, now, parent, r);
    if r.scopes * cfg.sensitive != {} {
      assert result == (Record(cfg, Park(cfg, s, now, parent, r), now, false, parent.sub, false), ParkedAs(r.freshApproval));
      ParkTrail(cfg, s, now, parent, r);
    } else {
      var c := GrantedChild(cfg, now, parent, r);
      assert result == (Record(cfg, MintGranted(cfg, s, now, parent, r), now, false, parent.sub, false), Minted(c));
      MintTrail(cfg, s, now, parent, r, c);
    }
  }

  lemma AllowedTrail(cfg: Config, s: State, now: Time, parent: Claims, r: Request, s1: State)
    requires r.freshJti !in s.store.tokens
    requires s1 == if r.anomalous then Log(s, AnomalyFlagged(parent.jti, r.scopes)) else s
    ensures var (s', o) := Allow(cfg, s1, now, parent, r); Trail(s'.log) == Trail(s.log) + DelegateRows(r, parent, o)
  {
    Logged(s, AnomalyFlagged(parent.jti, r.scopes));
    AllowTrail(cfg, s1, now, parent, r);
    FlagFirst(s, s1, parent, r, Allow(cfg, s1, now, parent, r).0, Allow(cfg, s1, now, parent, r).1);
  }

  lemma FlagFirst(s: State, s1: State, parent: Claims, r: Request, s2: State, o: Outcome)
    requires Trail(s1.log) == Trail(s.log) + if r.anomalous then [AnomalyFlagged(parent.jti, r.scopes)] else []
    requires (o.Minted? || o.ParkedAs?) && Trail(s2.log) == Trail(s1.log) + ResultRows(r, parent, o)
    ensures Trail(s2.log) == Trail(s.log) + DelegateRows(r, parent, o)
  {
  }

  lemma RefusedTrail(cfg: Config, s: State, now: Time, parent: Claims, r: Request, error: Error, e: Event)
    requires Grant(cfg, s, now, parent, r) == (Record(cfg, Log(s, e), now, true, parent.sub, true), Raised(error))
    requires !BreakerRow(e) && ResultRows(r, parent, Raised(error)) == [e]
    ensures var (s', o) := Grant(cfg, s, now, parent, r); Trail(s'.log) == Trail(s.log) + DelegateRows(r, parent, o)
  {
    LoggedThenRecorded(cfg, s, now, true, parent.sub, e);
    assert DelegateRows(r, parent, Raised(error)) == [e];
  }

  lemma GrantTrail(cfg: Config, s: State, now: Time, parent: Claims, r: Request)
    requires r.freshJti !in s.store.tokens
    ensures var (s', o) := Grant(cfg, s, now, parent, r); Trail(s'.log) == Trail(s.log) + DelegateRows(r, parent, o)
  {
    var denied := r.scopes - parent.scopes;
    if denied != {} {
      RefusedTrail(cfg, s, now, parent, r, ScopeEscalation(denied),
                   EscalationDenied(parent.jti, r.scopes, denied, parent.depth + 1));
    } else if parent.depth + 1 > parent.maxDepth {
      RefusedTrail(cfg, s, now, parent, r, DepthLimit, DepthLimitExceeded(parent.jti, r.scopes, parent.depth + 1));
    } else {
      var s1 := if r.anomalous then Log(s, AnomalyFlagged(parent.jti, r.scopes)) else s;
      assert Grant(cfg, s, now, parent, r) == Allow(cfg, s1, now, parent, r);
      AllowedTrail(cfg, s, now, parent, r, s1);
    }
  }

  /** A delegate call reaches the checks on the grant, or leaves the log alone and says nothing of a grant. */
  lemma DelegateForks(cfg: Config, s: State, now: Time, r: Request) returns (reached: bool)
    ensures reached ==>
              && r.token.Encoded?
              && Delegate(cfg, s, now, r)
                 == Grant(cfg, RateCheck(cfg, s, now, r.token.claims.sub, OpDelegate).0, now, r.token.claims, r)
    ensures !reached ==>
              var (s', o) := Delegate(cfg, s, now, r);
              s'.log == s.log && o.Raised? && !o.error.ScopeEscalation? && !o.error.DepthLimit?
  {
    var d := DecodeLive(s, now, r.token);
    LiveMeans(s, now, r.token);
    reached := s.breaker.opening.None? && r.scopes != {} && d.Live?
               && RateCheck(cfg, s, now, d.claims.sub, OpDelegate).1
               && RootAlive(RateCheck(cfg, s, now, d.claims.sub, OpDelegate).0, now, d.claims);
  }

  lemma DelegateTrail(cfg: Config, s: State, now: Time, r: Request)
    requires r.freshJti !in s.store.tokens
    ensures var (s', o) := Delegate(cfg, s, now, r);
            Trail(s'.log) == Trail(s.log) + if r.token.Encoded? then DelegateRows(r, r.token.claims, o) else []
  {
    var reached := DelegateForks(cfg, s, now, r);
    if reached {
      var s1 := RateCheck(cfg, s, now, r.token.claims.sub, OpDelegate).0;
      assert s1.log == s.log && s1.store == s.store;
      GrantTrail(cfg, s1, now, r.token.claims, r);
    } else if r.token.Encoded? {
      NothingToTell(r, r.token.claims, Delegate(cfg, s, now, r).1);
    }
  }

  lemma NothingToTell(r: Request, parent: Claims, o: Outcome)
    requires o.Raised? && !o.error.ScopeEscalation? && !o.error.DepthLimit?
    ensures DelegateRows(r, parent, o) == []
  {
  }

  lemma OpenTrail(cfg: Config, s: State, t: Timed)
    requires t.call.CallOpenAction? && Legal(s, t.call)
    ensures Trail(Step(cfg, s, t).0.log) == Trail(s.log) + Rows(cfg, s, t)
  {
    var c := t.call;
    var (s1, v) := Verify(cfg, s, t.now, c.token, c.scope);
    VerifyTrail(cfg, s, t.now, c.token, c.scope);
    ValidIsPresented(cfg, s, t.now, c.token, c.scope);
    if v.Valid? {
      StartTrail(cfg, s1, t.now, v.claims, c.scope, c.name, c.reversibility, c.actionId);
    }
  }

  lemma StartTrail(cfg: Config, s: State, now: Time, c: Claims, scope: Scope, name: string, rev: Reversibility, id: string)
    ensures var (s', o) := StartVerified(cfg, s, now, c, scope, name, rev, id);
            Trail(s'.log) == Trail(s.log) + (if o.Opened? then [ActionStarted(id, c.jti, scope, rev)] else [])
            && (o.Opened? ==> o.actionId == id)
  {
    TrailSnoc(s.log, ActionStarted(id, c.jti, scope, rev));
  }

  /** Each candidate is an action as it is stored. */
  ghost predicate FromStore(st: Store, candidates: seq<Action>) {
    forall a :: a in candidates ==> a.actionId in st.actions && a == st.actions[a.actionId]
  }

  lemma QueuedSnoc(st: Store, reviews: seq<Review>, a: Action, id: string, now: Time, root: Jti)
    requires a.actionId in st.actions && a == st.actions[a.actionId]
    ensures QueuedRows(st, reviews + [ReviewOf(a, id, now, root)])
            == QueuedRows(st, reviews) + [ReviewQueued(id, a.actionId, a.jti, ClassifyAction(a), ReviewPriority(a))]
  {
    assert (reviews + [ReviewOf(a, id, now, root)])[..|reviews|] == reviews;
  }

  lemma {:induction false} QueueTrail(s: State, st: Store, already: set<string>, candidates: seq<Action>, ids: seq<string>,
                                      now: Time, root: Jti)
    requires |ids| == |candidates| && FromStore(st, candidates)
    ensures var (s', queued) := QueueReviews(s, already, candidates, ids, now, root);
            Trail(s'.log) == Trail(s.log) + QueuedRows(st, queued)
    decreases |ids|
  {
    if candidates != [] {
      var n := |candidates| - 1;
      assert candidates[n] in candidates;
      QueueTrail(s, st, already, candidates[..n], ids[..n], now, root);
      var (s1, queued) := QueueReviews(s, already, candidates[..n], ids[..n], now, root);
      if NeedsReview(already, candidates[n]) {
        QueueOneTrail(s, st, s1, queued, candidates[n], ids[n], now, root);
      }
    }
  }

  lemma QueueOneTrail(s: State, st: Store, s1: State, queued: seq<Review>, a: Action, id: string, now: Time, root: Jti)
    requires a.actionId in st.actions && a == st.actions[a.actionId]
    requires Trail(s1.log) == Trail(s.log) + QueuedRows(st, queued)
    ensures var r := ReviewOf(a, id, now, root);
            Trail(s1.log + [ReviewQueued(r.reviewId, a.actionId, a.jti, r.classification, ReviewPriority(a))])
            == Trail(s.log) + QueuedRows(st, queued + [r])
  {
    QueuedSnoc(st, queued, a, id, now, root);
    TrailSnoc(s1.log, ReviewQueued(id, a.actionId, a.jti, ClassifyAction(a), ReviewPriority(a)));
  }

  lemma CandidatesFromStore(cfg: Config, s: State, j: Jti)
    requires StoreInv(cfg, s.store, s.signed)
    ensures FromStore(s.store, Candidates(s.store, j))
  {
    TargetsAndCandidates(cfg, s.store, s.signed, j);
  }

  lemma RevokeTrail(s: State, now: Time, j: Jti, ids: seq<string>)
    requires |ids| == |Candidates(s.store, j)| && FromStore(s.store, Candidates(s.store, j))
    ensures var (s', o) := Revoke(s, now, j, ids);
            Trail(s'.log) == Trail(s.log) + RevokeRows(s.store, j, o.targets, o.reviews)
  {
    var targets, candidates := DescendantsOf(s.store, j), Candidates(s.store, j);
    var s1 := s.(store := RevokeMany(s.store, targets, j, now));
    QueueTrail(s1, s.store, Reviewed(s.store), candidates, ids, now, j);
    var (s2, queued) := QueueReviews(s1, Reviewed(s.store), candidates, ids, now, j);
    RevokedLast(s, s2, queued, j, targets, |candidates|);
  }

  lemma RevokedLast(s: State, s2: State, queued: seq<Review>, j: Jti, targets: seq<Jti>, n: nat)
    requires Trail(s2.log) == Trail(s.log) + QueuedRows(s.store, queued)
    ensures var e := RevokedTree(j, targets, n, IdsOf(queued));
            Trail(Log(s2, e).log) == Trail(s.log) + (QueuedRows(s.store, queued) + [e])
  {
    Logged(s2, RevokedTree(j, targets, n, IdsOf(queued)));
  }

  lemma ApproveTrail(cfg: Config, s: State, now: Time, id: string, approver: string, jti: Jti)
    requires id in s.store.approvals
    ensures var (s', o) := Approve(cfg, s, now, id, approver, jti);
            Trail(s'.log) == Trail(s.log) + ApproveRows(id, approver, s.store.approvals[id].parentJti, o)
  {
    var a := s.store.approvals[id];
    var (s', o) := Approve(cfg, s, now, id, approver, jti);
    Outcomes.DistinctReasons();
    if o.Minted? {
      ApprovedTrail(cfg, s, now, id, approver, jti, a, o.claims);
    } else if o == Raised(ParentInvalid(REASON_REVOKED)) {
      assert s'.log == s.log + [ApprovalRejected(id, a.parentJti, approver)];
      TrailSnoc(s.log, ApprovalRejected(id, a.parentJti, approver));
    } else {
      assert s'.log == s.log && ApproveRows(id, approver, a.parentJti, o) == [];
    }
  }

  lemma ApprovedTrail(cfg: Config, s: State, now: Time, id: string, approver: string, jti: Jti, a: Approval, c: Claims)
    ensures var e := ApprovalGranted(c.jti, a.parentJti, c.rootJti, c.scopes, c.depth, id, approver);
            Trail(Log(Decide(Issue(s, c, Some(a.parentJti)), a, now, Approved, Some(approver), Some(c)), e).log)
            == Trail(s.log) + [e]
  {
    TrailSnoc(s.log, ApprovalGranted(c.jti, a.parentJti, c.rootJti, c.scopes, c.depth, id, approver));
  }

  lemma DenyTrail(s: State, now: Time, id: string, approver: string)
    ensures var (s', o) := Deny(s, now, id, approver);
            Trail(s'.log) == Trail(s.log) + if o == Done && id in s.store.approvals
              then [ApprovalDenied(id, s.store.approvals[id].parentJti, s.store.approvals[id].requested, approver)] else []
  {
    if id in s.store.approvals {
      var a := s.store.approvals[id];
      TrailSnoc(s.log, ApprovalDenied(id, a.parentJti, a.requested, approver));
    }
  }

  lemma {:induction false} SweepTrail(s: State, now: Time, listing: seq<string>)
    requires History.OwnIds(s.store.approvals)
    ensures Trail(ExpireStale(s, now, listing).log) == Trail(s.log) + SweepRows(s.store, now, listing)
    decreases |listing|
  {
    if listing != [] {
      var n := |listing| - 1;
      SweepTrail(s, now, listing[..n]);
      SweepRowOf(s, now, listing[..n], listing[n]);
    }
  }

  lemma SweepRowOf(s: State, now: Time, before: seq<string>, id: string)
    requires History.OwnIds(s.store.approvals)
    ensures var s1 := ExpireStale(s, now, before);
            && (TimedOut(s1.store, now, id) <==> TimedOut(s.store, now, id) && id !in before)
            && (TimedOut(s1.store, now, id) ==>
                  var a := s.store.approvals[id];
                  && s1.store.approvals[id] == a
                  && Trail(s1.log + [ApprovalExpired(id, a.parentJti, a.requested)])
                     == Trail(s1.log) + [ApprovalExpired(id, a.parentJti, a.requested)])
  {
    var s1 := ExpireStale(s, now, before);
    Outcomes.ExpireStaleMeaning(s, now, before);
    Outcomes.SweepOne(s.store, s1, now, Elements(before), id);
    if TimedOut(s1.store, now, id) {
      var a := s.store.approvals[id];
      assert Outcomes.SweptApproval(s.store, s1.store, now, Elements(before), id);
      TrailSnoc(s1.log, ApprovalExpired(id, a.parentJti, a.requested));
    }
  }

  lemma MintRootTrail(cfg: Config, s: State, t: Timed)
    requires t.call.CallMintRoot? && Legal(s, t.call)
    ensures Trail(Step(cfg, s, t).0.log) == Trail(s.log) + Rows(cfg, s, t)
  {
    var c := t.call;
    var (s', o) := Step(cfg, s, t);
    if o.Minted? {
      var e := RootMinted(c.jti, c.scopes, o.claims.exp - o.claims.iat, o.claims.maxDepth);
      assert s'.log == s.log + [e];
      TrailSnoc(s.log, e);
    }
  }

  lemma QuietCallsTrail(cfg: Config, s: State, t: Timed)
    requires Legal(s, t.call) && (t.call.CallCloseAction? || t.call.CallResolveReview? || t.call.CallResetCircuit?
                                  || t.call.CallClose? || t.call.CallCollect?)
    ensures Trail(Step(cfg, s, t).0.log) == Trail(s.log) + Rows(cfg, s, t)
  {
    match t.call {
      case CallCloseAction(id, clean) =>
        TrailSnoc(s.log, ActionClosed(id, s.store.actions[id].jti, if clean then Clean else Partial));
      case CallResolveReview(id, _, reviewer) =>
        if id in s.store.reviews {
          TrailSnoc(s.log, ReviewResolved(id, s.store.reviews[id].actionId, reviewer));
        }
      case CallResetCircuit => TrailSnoc(s.log, BreakerReset(s.breaker.opening.Some?));
      case _ =>
    }
  }

  lemma StepTrail(cfg: Config, s: State, t: Timed)
    requires StoreInv(cfg, s.store, s.signed) && History.OwnIds(s.store.approvals) && Legal(s, t.call)
    ensures Trail(Step(cfg, s, t).0.log) == Trail(s.log) + Rows(cfg, s, t)
  {
    match t.call {
      case CallMintRoot(_, _, _, _, _) => MintRootTrail(cfg, s, t);
      case CallDelegate(r) => DelegateTrail(cfg, s, t.now, r);
      case CallVerify(token, scope) => VerifyTrail(cfg, s, t.now, token, scope);
      case CallOpenAction(_, _, _, _, _) => OpenTrail(cfg, s, t);
      case CallRevoke(j, ids) =>
        CandidatesFromStore(cfg, s, j);
        RevokeTrail(s, t.now, j, ids);
      case CallApprove(id, approver, jti) =>
        if id in s.store.approvals {
          ApproveTrail(cfg, s, t.now, id, approver, jti);
        }
      case CallDeny(id, approver) => DenyTrail(s, t.now, id, approver);
      case CallExpireStale(listing) => SweepTrail(s, t.now, listing);
      case _ => QuietCallsTrail(cfg, s, t);
    }
  }

  // ------------------------------------------------------------------
  // Over a run
  // ------------------------------------------------------------------

  /** What the log has to say about the first n calls. */
  ghost function Story(cfg: Config, calls: seq<Timed>, states: seq<State>, n: nat): seq<Event>
    requires Trace(cfg, calls, states) && n <= |calls|
  {
    if n == 0 then [] else Story(cfg, calls, states, n - 1) + Rows(cfg, states[n - 1], calls[n - 1])
  }

  lemma StoreSound(cfg: Config, calls: seq<Timed>, states: seq<State>, k: nat)
    requires ValidConfig(cfg) && Trace(cfg, calls, states) && k <= |calls|
    ensures StoreInv(cfg, states[k].store, states[k].signed) && History.OwnIds(states[k].store.approvals)
  {
    Admission.TraceReachable(cfg, calls, states, k);
    ReachableInv(cfg, states[k]);
    Outcomes.ReachableOwnIds(cfg, states[k]);
  }

  lemma CallTrail(cfg: Config, calls: seq<Timed>, states: seq<State>, k: nat)
    requires ValidConfig(cfg) && Trace(cfg, calls, states) && k < |calls|
    ensures Trail(states[k + 1].log) == Trail(states[k].log) + Rows(cfg, states[k], calls[k])
  {
    StoreSound(cfg, calls, states, k);
    StepTrail(cfg, states[k], calls[k]);
  }

  /** After every run the log, without the breaker's rows, is the story of its calls. */
  lemma {:induction false} LogIsTheStory(cfg: Config, calls: seq<Timed>, states: seq<State>, n: nat)
    requires ValidConfig(cfg) && Trace(cfg, calls, states) && n <= |calls|
    ensures Trail(states[n].log) == Story(cfg, calls, states, n)
  {
    if n > 0 {
      LogIsTheStory(cfg, calls, states, n - 1);
      CallTrail(cfg, calls, states, n - 1);
    }
  }

  lemma {:induction false} TrailKeeps(log: seq<Event>, e: Event)
    requires !BreakerRow(e)
    ensures e in Trail(log) <==> e in log
  {
    if log != [] {
      var n := |log| - 1;
      TrailKeeps(log[..n], e);
      assert log == log[..n] + [log[n]];
    }
  }

  ghost predicate Tells(cfg: Config, s: State, t: Timed, e: Event) {
    Legal(s, t.call) && e in Rows(cfg, s, t)
  }

  lemma {:induction false} StoryTells(cfg: Config, calls: seq<Timed>, states: seq<State>, n: nat, e: Event)
    requires Trace(cfg, calls, states) && n <= |calls|
    ensures e in Story(cfg, calls, states, n) <==> exists k :: 0 <= k < n && Tells(cfg, states[k], calls[k], e)
  {
    if n > 0 {
      StoryTells(cfg, calls, states, n - 1, e);
      assert Tells(cfg, states[n - 1], calls[n - 1], e) <==> e in Rows(cfg, states[n - 1], calls[n - 1]);
    }
  }

  /** The token with this jti passes the check of this scope, by itself or to open an action. */
  ghost predicate Accepts(cfg: Config, s: State, t: Timed, j: Jti, scope: Scope) {
    && (t.call.CallVerify? || t.call.CallOpenAction?)
    && t.call.scope == scope && t.call.token.Encoded? && t.call.token.claims.jti == j
    && Verify(cfg, s, t.now, t.call.token, scope).1.Valid?
  }

  lemma AcceptedIsTold(cfg: Config, s: State, t: Timed, j: Jti, scope: Scope)
    requires Legal(s, t.call)
    ensures Tells(cfg, s, t, VerifyAllowed(j, scope)) <==> Accepts(cfg, s, t, j, scope)
  {
    if t.call.CallVerify? || t.call.CallOpenAction? {
      ValidIsPresented(cfg, s, t.now, t.call.token, t.call.scope);
    } else {
      NotACheck(cfg, s, t, j, scope);
    }
  }

  lemma NotACheck(cfg: Config, s: State, t: Timed, j: Jti, scope: Scope)
    requires Legal(s, t.call) && !t.call.CallVerify? && !t.call.CallOpenAction?
    ensures VerifyAllowed(j, scope) !in Rows(cfg, s, t)
  {
    match t.call {
      case CallRevoke(_, _) =>
        var o := Step(cfg, s, t).1;
        if o.Swept? {
          QueuedOnly(s.store, o.reviews, VerifyAllowed(j, scope));
        }
      case CallExpireStale(listing) => SweptOnly(s.store, t.now, listing, VerifyAllowed(j, scope));
      case _ =>
    }
  }

  lemma {:induction false} QueuedOnly(st: Store, reviews: seq<Review>, e: Event)
    ensures e in QueuedRows(st, reviews) ==> e.ReviewQueued?
  {
    var n := |reviews| - 1;
    if reviews != [] && e in QueuedRows(st, reviews[..n]) {
      QueuedOnly(st, reviews[..n], e);
    }
  }

  lemma {:induction false} SweptOnly(st: Store, now: Time, listing: seq<string>, e: Event)
    ensures e in SweepRows(st, now, listing) ==> e.ApprovalExpired?
  {
    var n := |listing| - 1;
    if listing != [] && e in SweepRows(st, now, listing[..n]) {
      SweptOnly(st, now, listing[..n], e);
    }
  }

  /** A row says that a token was accepted for a scope exactly if a check of the run accepted it for that scope. */
  lemma AllowedRowIff(cfg: Config, calls: seq<Timed>, states: seq<State>, n: nat, j: Jti, scope: Scope)
    requires ValidConfig(cfg) && Trace(cfg, calls, states) && n <= |calls|
    ensures VerifyAllowed(j, scope) in states[n].log
            <==> exists k :: 0 <= k < n && Accepts(cfg, states[k], calls[k], j, scope)
  {
    var e := VerifyAllowed(j, scope);
    TrailKeeps(states[n].log, e);
    LogIsTheStory(cfg, calls, states, n);
    StoryTells(cfg, calls, states, n, e);
    forall k | 0 <= k < n
      ensures Tells(cfg, states[k], calls[k], e) <==> Accepts(cfg, states[k], calls[k], j, scope)
    {
      AcceptedIsTold(cfg, states[k], calls[k], j, scope);
    }
  }
}
