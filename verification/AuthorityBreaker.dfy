/** The breaker as the firewall's own audit log tells it. */
module AuthorityBreaker {
  import opened Core
  import opened Tokens
  import opened Records
  import opened Storage
  import opened Authority
  import Guardrails

  predicate BreakerRow(e: Event) {
    e.BreakerOpened? || e.BreakerReset?
  }

  /** The last row about the breaker says that it opened. */
  function LastSaysOpen(log: seq<Event>): bool {
    if log == [] then false
    else
      var e := log[|log| - 1];
      if BreakerRow(e) then e.BreakerOpened? else LastSaysOpen(log[..|log| - 1])
  }

  ghost predicate ResetBetween(log: seq<Event>, i: int, k: int) {
    exists m :: 0 <= i < m < k <= |log| && log[m].BreakerReset?
  }

  ghost predicate Alternates(log: seq<Event>) {
    forall i, k :: 0 <= i < k < |log| && log[i].BreakerOpened? && log[k].BreakerOpened? ==> ResetBetween(log, i, k)
  }

  ghost predicate BreakerLogged(s: State) {
    LastSaysOpen(s.log) == s.breaker.opening.Some? && Alternates(s.log)
  }

  // ------------------------------------------------------------------
  // One more row
  // ------------------------------------------------------------------

  lemma {:induction false} ClosedSince(log: seq<Event>, i: nat)
    requires i < |log| && log[i].BreakerOpened? && !LastSaysOpen(log)
    ensures ResetBetween(log, i, |log|)
  {
    var n := |log| - 1;
    if BreakerRow(log[n]) {
      assert log[n].BreakerReset?;
    } else {
      ClosedSince(log[..n], i);
      var m :| i < m < n && log[..n][m].BreakerReset?;
      assert log[m].BreakerReset?;
    }
  }

  lemma OneMoreRow(log: seq<Event>, e: Event)
    requires Alternates(log) && (e.BreakerOpened? ==> !LastSaysOpen(log))
    ensures Alternates(log + [e])
    ensures LastSaysOpen(log + [e]) == if BreakerRow(e) then e.BreakerOpened? else LastSaysOpen(log)
  {
    var log' := log + [e];
    assert log'[..|log|] == log;
    forall i, k | 0 <= i < k < |log'| && log'[i].BreakerOpened? && log'[k].BreakerOpened?
      ensures ResetBetween(log', i, k)
    {
      if k < |log| {
        assert ResetBetween(log, i, k);
      } else {
        ClosedSince(log, i);
      }
      var m :| i < m < k && log[m].BreakerReset?;
      assert log'[m].BreakerReset?;
    }
  }

  lemma LogKeeps(s: State, e: Event)
    requires BreakerLogged(s) && !BreakerRow(e)
    ensures BreakerLogged(Log(s, e))
  {
    OneMoreRow(s.log, e);
  }

  /** The breaker writes its row exactly when it opens, which it does only while closed. */
  lemma RecordKeeps(cfg: Config, s: State, now: Time, error: bool, subject: string, policyDenial: bool)
    requires BreakerLogged(s)
    ensures BreakerLogged(Record(cfg, s, now, error, subject, policyDenial))
  {
    if !Exempt(cfg, subject) {
      var x := OutcomeSample(cfg, now, error, policyDenial);
      RecordOpens(cfg.breaker, s.breaker, x);
      var tripped := Guardrails.Trips(cfg.breaker, s.breaker, x);
      if tripped.Some? {
        OneMoreRow(s.log, BreakerOpened(tripped.value));
      }
    }
  }

  lemma RecordOpens(cfg: Guardrails.BreakerConfig, b: Guardrails.Breaker, x: Guardrails.Sample)
    ensures var tripped := Guardrails.Trips(cfg, b, x);
            && (tripped.Some? ==> b.opening.None?)
            && (Guardrails.RecordOutcome(cfg, b, x).opening.Some? <==> b.opening.Some? || tripped.Some?)
  {
  }

  // ------------------------------------------------------------------
  // Operation by operation
  // ------------------------------------------------------------------

  /** Only the log and the breaker matter. */
  lemma SameRows(s: State, s': State)
    requires BreakerLogged(s) && s'.log == s.log && s'.breaker == s.breaker
    ensures BreakerLogged(s')
  {
  }

  lemma RecordThenLog(cfg: Config, s: State, now: Time, error: bool, subject: string, e: Event)
    requires BreakerLogged(s) && !BreakerRow(e)
    ensures BreakerLogged(Log(Record(cfg, s, now, error, subject, error), e))
  {
    RecordKeeps(cfg, s, now, error, subject, error);
    LogKeeps(Record(cfg, s, now, error, subject, error), e);
  }

  lemma LogThenRecord(cfg: Config, s: State, now: Time, error: bool, subject: string, e: Event)
    requires BreakerLogged(s) && !BreakerRow(e)
    ensures BreakerLogged(Record(cfg, Log(s, e), now, error, subject, error))
  {
    LogKeeps(s, e);
    RecordKeeps(cfg, Log(s, e), now, error, subject, error);
  }

  lemma VerifyLogged(cfg: Config, s: State, now: Time, token: Token, scope: Scope)
    requires BreakerLogged(s)
    ensures BreakerLogged(Verify(cfg, s, now, token, scope).0)
  {
    var d := Decode(s, token);
    if s.breaker.opening.Some? || token.Missing? {
    } else if d.Dead? {
      RecordThenLog(cfg, s, now, true, "", VerifyDenied(None, scope, d.error.reason));
    } else {
      VerifyKnownLogged(cfg, s, now, token, scope, d.claims);
    }
  }

  lemma VerifyKnownLogged(cfg: Config, s: State, now: Time, token: Token, scope: Scope, c: Claims)
    requires BreakerLogged(s) && Decode(s, token) == Live(c)
    ensures BreakerLogged(Verify(cfg, s, now, token, scope).0)
  {
    var (s1, within) := RateCheck(cfg, s, now, c.sub, OpVerify);
    SameRows(s, s1);
    if !within {
    } else if c.exp < now {
      RecordThenLog(cfg, s1, now, true, c.sub, VerifyDenied(Some(c.jti), scope, REASON_EXPIRED));
    } else if s.store.closed {
    } else if AnyRevoked(s.store, c) {
      RecordThenLog(cfg, s1, now, true, c.sub, VerifyDenied(Some(c.jti), scope, REASON_REVOKED));
    } else if scope !in c.scopes {
      RecordThenLog(cfg, s1, now, true, c.sub, VerifyDenied(Some(c.jti), scope, REASON_SCOPE));
    } else {
      RecordThenLog(cfg, s1, now, false, c.sub, VerifyAllowed(c.jti, scope));
    }
  }

  lemma AllowLogged(cfg: Config, s: State, now: Time, parent: Claims, r: Request)
    requires BreakerLogged(s)
    ensures BreakerLogged(Allow(cfg, s, now, parent, r).0)
  {
    if r.scopes * cfg.sensitive != {} {
      var s1 := s.(store := SetApproval(s.store, ParkedApproval(cfg, now, parent, r)));
      SameRows(s, s1);
      LogThenRecord(cfg, s1, now, false, parent.sub,
                    ApprovalPending(r.freshApproval, parent.jti, r.scopes, parent.depth + 1));
    } else {
      var c := GrantedChild(cfg, now, parent, r);
      SameRows(s, Issue(s, c, Some(parent.jti)));
      LogThenRecord(cfg, Issue(s, c, Some(parent.jti)), now, false, parent.sub,
                    Delegated(c.jti, parent.jti, c.rootJti, c.scopes, c.depth, c.exp));
    }
  }

  lemma GrantLogged(cfg: Config, s: State, now: Time, parent: Claims, r: Request)
    requires BreakerLogged(s)
    ensures BreakerLogged(Grant(cfg, s, now, parent, r).0)
  {
    var denied := r.scopes - parent.scopes;
    if denied != {} {
      LogThenRecord(cfg, s, now, true, parent.sub, EscalationDenied(parent.jti, r.scopes, denied, parent.depth + 1));
    } else if parent.depth + 1 > parent.maxDepth {
      LogThenRecord(cfg, s, now, true, parent.sub, DepthLimitExceeded(parent.jti, r.scopes, parent.depth + 1));
    } else {
      LogKeeps(s, AnomalyFlagged(parent.jti, r.scopes));
      AllowLogged(cfg, if r.anomalous then Log(s, AnomalyFlagged(parent.jti, r.scopes)) else s, now, parent, r);
    }
  }

  lemma DelegateLogged(cfg: Config, s: State, now: Time, r: Request)
    requires BreakerLogged(s)
    ensures BreakerLogged(Delegate(cfg, s, now, r).0)
  {
    var d := DecodeLive(s, now, r.token);
    if d.Live? {
      var s1 := RateCheck(cfg, s, now, d.claims.sub, OpDelegate).0;
      SameRows(s, s1);
      GrantLogged(cfg, s1, now, d.claims, r);
    }
  }

  lemma OpenActionLogged(cfg: Config, s: State, now: Time, token: Token, scope: Scope, name: string,
                         rev: Reversibility, id: string)
    requires BreakerLogged(s)
    ensures BreakerLogged(OpenAction(cfg, s, now, token, scope, name, rev, id).0)
  {
    var (s1, v) := Verify(cfg, s, now, token, scope);
    VerifyLogged(cfg, s, now, token, scope);
    if v.Valid? {
      var c := v.claims;
      var s2 := RateCheck(cfg, s1, now, c.sub, OpAction).0;
      SameRows(s1, s2);
      var a := Action(id, c.jti, c.sub, name, scope, now, None, None, rev);
      SameRows(s2, s2.(store := PutAction(s2.store, a)));
      LogKeeps(s2.(store := PutAction(s2.store, a)), ActionStarted(id, c.jti, scope, rev));
    }
  }

  lemma {:induction false} QueueLogged(s: State, already: set<string>, candidates: seq<Action>, ids: seq<string>,
                                       now: Time, root: Jti)
    requires |ids| == |candidates| && BreakerLogged(s)
    ensures BreakerLogged(QueueReviews(s, already, candidates, ids, now, root).0)
    decreases |ids|
  {
    if candidates != [] {
      var n := |candidates| - 1;
      var a := candidates[n];
      QueueLogged(s, already, candidates[..n], ids[..n], now, root);
      var s1 := QueueReviews(s, already, candidates[..n], ids[..n], now, root).0;
      var r := ReviewOf(a, ids[n], now, root);
      SameRows(s1, s1.(store := SetReview(s1.store, r)));
      LogKeeps(s1.(store := SetReview(s1.store, r)),
               ReviewQueued(r.reviewId, a.actionId, a.jti, r.classification, ReviewPriority(a)));
    }
  }

  lemma RevokeLogged(s: State, now: Time, j: Jti, ids: seq<string>)
    requires |ids| == |Candidates(s.store, j)| && BreakerLogged(s)
    ensures BreakerLogged(Revoke(s, now, j, ids).0)
  {
    var targets, candidates := DescendantsOf(s.store, j), Candidates(s.store, j);
    var s1 := s.(store := RevokeMany(s.store, targets, j, now));
    SameRows(s, s1);
    QueueLogged(s1, Reviewed(s.store), candidates, ids, now, j);
    var (s2, queued) := QueueReviews(s1, Reviewed(s.store), candidates, ids, now, j);
    LogKeeps(s2, RevokedTree(j, targets, |candidates|, IdsOf(queued)));
  }

  lemma DecideKeeps(s: State, a: Approval, now: Time, status: Status, approver: Option<string>, child: Option<Claims>)
    requires BreakerLogged(s)
    ensures BreakerLogged(Decide(s, a, now, status, approver, child))
  {
    SameRows(s, Decide(s, a, now, status, approver, child));
  }

  lemma DecideThenLog(s: State, a: Approval, now: Time, status: Status, approver: Option<string>,
                      child: Option<Claims>, e: Event)
    requires BreakerLogged(s) && !BreakerRow(e)
    ensures BreakerLogged(Log(Decide(s, a, now, status, approver, child), e))
  {
    DecideKeeps(s, a, now, status, approver, child);
    LogKeeps(Decide(s, a, now, status, approver, child), e);
  }

  lemma LoadLogged(s: State, now: Time, id: string)
    requires BreakerLogged(s)
    ensures BreakerLogged(LoadPending(s, now, id).0)
  {
    if id in s.store.approvals {
      DecideKeeps(s, s.store.approvals[id], now, Expired, None, None);
    }
  }

  lemma ApproveLogged(cfg: Config, s: State, now: Time, id: string, approver: string, jti: Jti)
    requires BreakerLogged(s)
    ensures BreakerLogged(Approve(cfg, s, now, id, approver, jti).0)
  {
    LoadLogged(s, now, id);
    if LoadPending(s, now, id).1.None? {
      var a := s.store.approvals[id];
      if a.parentJti !in s.store.tokens || s.store.closed {
      } else if a.parentJti in s.store.revoked {
        DecideThenLog(s, a, now, Denied, Some(approver), None, ApprovalRejected(id, a.parentJti, approver));
      } else if a.parentExp < now {
        DecideKeeps(s, a, now, Expired, Some(approver), None);
      } else {
        MintApprovedLogged(cfg, s, now, a, approver, jti, id);
      }
    }
  }

  lemma MintApprovedLogged(cfg: Config, s: State, now: Time, a: Approval, approver: string, jti: Jti, id: string)
    requires BreakerLogged(s) && a.parentJti in s.store.tokens
    ensures var c := ApprovedChild(cfg, s, now, a, approver, jti);
            BreakerLogged(Log(Decide(Issue(s, c, Some(a.parentJti)), a, now, Approved, Some(approver), Some(c)),
                              ApprovalGranted(c.jti, a.parentJti, c.rootJti, c.scopes, c.depth, id, approver)))
  {
    var c := ApprovedChild(cfg, s, now, a, approver, jti);
    SameRows(s, Issue(s, c, Some(a.parentJti)));
    DecideThenLog(Issue(s, c, Some(a.parentJti)), a, now, Approved, Some(approver), Some(c),
                  ApprovalGranted(c.jti, a.parentJti, c.rootJti, c.scopes, c.depth, id, approver));
  }

  lemma {:induction false} ExpireLogged(s: State, now: Time, ids: seq<string>)
    requires BreakerLogged(s)
    ensures BreakerLogged(ExpireStale(s, now, ids))
    decreases |ids|
  {
    if ids != [] {
      var n := |ids| - 1;
      ExpireLogged(s, now, ids[..n]);
      var s1 := ExpireStale(s, now, ids[..n]);
      if TimedOut(s1.store, now, ids[n]) {
        var a := s1.store.approvals[ids[n]];
        DecideThenLog(s1, a, now, Expired, None, None, ApprovalExpired(ids[n], a.parentJti, a.requested));
      }
    }
  }

  lemma DenyLogged(s: State, now: Time, id: string, approver: string)
    requires BreakerLogged(s)
    ensures BreakerLogged(Deny(s, now, id, approver).0)
  {
    LoadLogged(s, now, id);
    if LoadPending(s, now, id).1.None? {
      var a := s.store.approvals[id];
      DecideThenLog(s, a, now, Denied, Some(approver), None, ApprovalDenied(id, a.parentJti, a.requested, approver));
    }
  }

  lemma MintRootLogged(cfg: Config, s: State, now: Time, sub: string, scopes: set<Scope>, ttl: int, maxDepth: int, jti: Jti)
    requires BreakerLogged(s)
    ensures BreakerLogged(MintRootToken(cfg, s, now, sub, scopes, ttl, maxDepth, jti).0)
  {
    var life := Min(OrDefault(ttl, cfg.defaultTtl), cfg.maxTtl);
    var ceiling := OrDefault(maxDepth, cfg.maxDelegationDepth);
    var c := MintRoot(cfg.issuer, jti, sub, scopes, life, ceiling, now);
    SameRows(s, Issue(s, c, None));
    LogKeeps(Issue(s, c, None), RootMinted(jti, scopes, life, ceiling));
  }

  lemma ResolveLogged(s: State, now: Time, id: string, blank: bool, reviewer: string)
    requires BreakerLogged(s)
    ensures BreakerLogged(ResolveReview(s, now, id, blank, reviewer).0)
  {
    if id in s.store.reviews {
      var r := s.store.reviews[id].(reviewed := true, reviewedBy := Some(reviewer), reviewedAt := Some(now));
      SameRows(s, s.(store := SetReview(s.store, r)));
      LogKeeps(s.(store := SetReview(s.store, r)), ReviewResolved(id, r.actionId, reviewer));
    }
  }

  lemma CloseActionLogged(s: State, now: Time, id: string, clean: bool)
    requires BreakerLogged(s)
    ensures BreakerLogged(CloseAction(s, now, id, clean))
  {
    var state := if clean then Clean else Partial;
    var s1 := s.(store := CloseActionRow(s.store, id, state, now));
    SameRows(s, s1);
    LogKeeps(s1, ActionClosed(id, if id in s.store.actions then s.store.actions[id].jti else "", state));
  }

  lemma ResetLogged(s: State)
    requires BreakerLogged(s)
    ensures BreakerLogged(ResetCircuit(s))
  {
    OneMoreRow(s.log, BreakerReset(s.breaker.opening.Some?));
  }

  lemma StepLogged(cfg: Config, s: State, t: Timed)
    requires BreakerLogged(s) && Legal(s, t.call)
    ensures BreakerLogged(Step(cfg, s, t).0)
  {
    var now := t.now;
    match t.call {
      case CallMintRoot(sub, scopes, ttl, maxDepth, jti) => MintRootLogged(cfg, s, now, sub, scopes, ttl, maxDepth, jti);
      case CallDelegate(r) => DelegateLogged(cfg, s, now, r);
      case CallVerify(token, scope) => VerifyLogged(cfg, s, now, token, scope);
      case CallOpenAction(token, scope, name, rev, id) => OpenActionLogged(cfg, s, now, token, scope, name, rev, id);
      case CallCloseAction(id, clean) => CloseActionLogged(s, now, id, clean);
      case CallRevoke(j, ids) => RevokeLogged(s, now, j, ids);
      case CallResolveReview(id, blank, reviewer) => ResolveLogged(s, now, id, blank, reviewer);
      case CallApprove(id, approver, jti) => ApproveLogged(cfg, s, now, id, approver, jti);
      case CallDeny(id, approver) => DenyLogged(s, now, id, approver);
      case CallCollect(id) =>
      case CallExpireStale(listing) => ExpireLogged(s, now, listing);
      case CallResetCircuit => ResetLogged(s);
      case CallClose => SameRows(s, Close(s));
    }
  }

  lemma {:induction false} RunLogged(cfg: Config, s: State, calls: seq<Timed>, s': State)
    requires BreakerLogged(s) && Reaches(cfg, s, calls, s')
    ensures BreakerLogged(s')
    decreases |calls|
  {
    if calls != [] {
      StepLogged(cfg, s, calls[0]);
      RunLogged(cfg, Step(cfg, s, calls[0]).0, calls[1..], s');
    }
  }

  /**
   In every reachable state the breaker is open exactly if the last row about it says so, and between
   two `circuit_opened` rows of the audit log there is a `circuit_reset` row.
   */
  lemma LogTellsTheBreaker(cfg: Config, s: State)
    requires ReachableState(cfg, s)
    ensures s.breaker.opening.Some? <==> LastSaysOpen(s.log)
    ensures forall i, k :: 0 <= i < k < |s.log| && s.log[i].BreakerOpened? && s.log[k].BreakerOpened?
                           ==> exists m :: i < m < k && s.log[m].BreakerReset?
  {
    var calls :| Reaches(cfg, INITIAL, calls, s);
    RunLogged(cfg, INITIAL, calls, s);
    forall i, k | 0 <= i < k < |s.log| && s.log[i].BreakerOpened? && s.log[k].BreakerOpened?
      ensures exists m :: i < m < k && s.log[m].BreakerReset?
    {
      assert ResetBetween(s.log, i, k);
    }
  }
}
