/** What single calls answer and change, read off in the terms of a caller. */
module AuthorityOutcomes {
  import opened Core
  import opened Tokens
  import opened Lineage
  import opened Records
  import opened Storage
  import opened Walk
  import opened Authority
  import opened AuthorityInvariant
  import opened AuthorityTheorems
  import opened AuthorityHistory

  // ------------------------------------------------------------------
  // Verification
  // ------------------------------------------------------------------

  /**
   The reason a signed token is refused, exactly: lateness goes before a closed store, that before
   revocation, revocation before scope, and revocation means that the token itself is in the revoked set.
   */
  lemma RefusalReasons(cfg: Config, s: State, now: Time, c: Claims, scope: Scope)
    requires ValidConfig(cfg) && ReachableState(cfg, s) && c in s.signed
    requires s.breaker.opening.None? && RateCheck(cfg, s, now, c.sub, OpVerify).1
    ensures var v := Verify(cfg, s, now, Encoded(c), scope).1;
            && (v == Invalid("expired") <==> c.exp < now)
            && (v == VerifyRaised(StorageError) <==> now <= c.exp && s.store.closed)
            && (v == Invalid("revoked") <==> now <= c.exp && !s.store.closed && c.jti in s.store.revoked)
            && (v == Invalid("scope_not_granted")
                <==> now <= c.exp && !s.store.closed && c.jti !in s.store.revoked && scope !in c.scopes)
            && (v.Valid? ==> v.claims == c)
  {
    AncestorLookupsAgree(cfg, s, c);
    DistinctReasons();
  }

  lemma DistinctReasons()
    ensures REASON_EXPIRED != REASON_REVOKED && REASON_EXPIRED != REASON_SCOPE && REASON_REVOKED != REASON_SCOPE
  {
    assert REASON_EXPIRED[0] != REASON_REVOKED[0] && REASON_EXPIRED[0] != REASON_SCOPE[0];
    assert REASON_REVOKED[0] != REASON_SCOPE[0];
  }

  /** Without a signature nothing that the token says counts, and only the reason depends on what it is. */
  lemma UnsignedReasons(cfg: Config, s: State, now: Time, token: Token, scope: Scope)
    requires token.Encoded? ==> token.claims !in s.signed
    ensures var (s', v) := Verify(cfg, s, now, token, scope);
            && v == Invalid(if s.breaker.opening.Some? then "circuit_open"
                            else match token
                                 case Missing => "missing_token"
                                 case Garbage(reason) => reason
                                 case Encoded(_) => "invalid_signature")
            && s'.store == s.store && s'.rate == s.rate && s'.signed == s.signed
            && (s.breaker.opening.Some? || token.Missing? ==> s' == s)
  {
    RecordFrame(cfg, s, now, true, "", true);
  }

  // ------------------------------------------------------------------
  // Refused delegations
  // ------------------------------------------------------------------

  /** Why a call that presents a token without the right to delegate is refused, in the order of precedence. */
  lemma DelegateNeedsLiveToken(cfg: Config, s: State, now: Time, r: Request)
    requires ValidConfig(cfg) && ReachableState(cfg, s)
    ensures var (s', o) := Delegate(cfg, s, now, r); var signed := r.token.Encoded? && r.token.claims in s.signed;
            && (o == Raised(CircuitOpen) <==> s.breaker.opening.Some?)
            && (o == Raised(ValueError) <==> s.breaker.opening.None? && r.scopes == {})
            && (s.breaker.opening.None? && r.scopes != {} ==>
                  && (!signed ==> o == Raised(ParentInvalid(match r.token
                                                            case Missing => "malformed_token"
                                                            case Garbage(reason) => reason
                                                            case Encoded(_) => "invalid_signature")))
                  && (signed && r.token.claims.exp < now ==> o == Raised(ParentInvalid("expired")))
                  && (signed && now <= r.token.claims.exp && s.store.closed ==> o == Raised(StorageError))
                  && (signed && now <= r.token.claims.exp && !s.store.closed && r.token.claims.jti in s.store.revoked
                      ==> o == Raised(ParentInvalid("revoked"))))
            && (o.Raised? && (o.error.ParentInvalid? || o.error.CircuitOpen? || o.error.ValueError?) ==> s' == s)
  {
    if r.token.Encoded? && r.token.claims in s.signed {
      AncestorLookupsAgree(cfg, s, r.token.claims);
    }
    GrantErrors(cfg, s, now, r);
  }

  lemma GrantErrors(cfg: Config, s: State, now: Time, r: Request)
    ensures var d := DecodeLive(s, now, r.token);
            d.Live? && s.breaker.opening.None? && r.scopes != {} ==>
              var o := Delegate(cfg, s, now, r).1;
              o.Raised? ==> !o.error.ParentInvalid? && !o.error.CircuitOpen? && !o.error.ValueError?
  {
  }

  /**
   Why a request by a live token within its budget is refused: for scopes that the token does not hold,
   which the error names, and otherwise only at the depth ceiling.  A refusal stores nothing.
   */
  lemma DelegateRefusals(cfg: Config, s: State, now: Time, r: Request)
    requires ValidConfig(cfg) && ReachableState(cfg, s) && Legal(s, CallDelegate(r))
    requires s.breaker.opening.None? && r.scopes != {} && DecodeLive(s, now, r.token).Live?
    requires RateCheck(cfg, s, now, r.token.claims.sub, OpDelegate).1
    ensures var (s', o) := Delegate(cfg, s, now, r); var parent := r.token.claims;
            && (forall d :: o == Raised(ScopeEscalation(d)) ==> d != {} && forall x :: x in d <==> x in r.scopes && x !in parent.scopes)
            && (o.Raised? && o.error.ScopeEscalation? <==> exists x :: x in r.scopes && x !in parent.scopes)
            && (o == Raised(DepthLimit) <==> r.scopes <= parent.scopes && parent.depth >= parent.maxDepth)
            && (o.Raised? ==> (o.error.ScopeEscalation? || o.error.DepthLimit?) && s'.store == s.store && s'.signed == s.signed)
  {
    LiveImpliesRootAlive(cfg, s, now, r.token);
    EmptyDifference(r.scopes, r.token.claims.scopes);
    RefusedGrant(cfg, RateCheck(cfg, s, now, r.token.claims.sub, OpDelegate).0, now, r.token.claims, r);
  }

  lemma RefusedGrant(cfg: Config, s: State, now: Time, parent: Claims, r: Request)
    requires r.freshJti !in s.store.tokens
    ensures var (s', o) := Grant(cfg, s, now, parent, r);
            && (o.Raised? ==> s'.store == s.store && s'.signed == s.signed)
            && (if r.scopes - parent.scopes != {} then o == Raised(ScopeEscalation(r.scopes - parent.scopes))
                else if parent.depth + 1 > parent.maxDepth then o == Raised(DepthLimit) else !o.Raised?)
  {
  }

  // ------------------------------------------------------------------
  // Deciding a request, resolving a review
  // ------------------------------------------------------------------

  /** A denial is final, names its approver, and is possible exactly while the request is pending in time. */
  lemma DenyIff(cfg: Config, s: State, now: Time, id: string, approver: string)
    requires ValidConfig(cfg) && ReachableState(cfg, s)
    ensures var (s', o) := Deny(s, now, id, approver);
            && (o == Done <==> && id in s.store.approvals && s.store.approvals[id].status == Pending
                               && now <= s.store.approvals[id].expiresAt)
            && (o == Done ==> && s'.store.approvals[id].status == Denied
                              && s'.store.approvals[id].approvedBy == Some(approver)
                              && Collect(s', id) == Raised(AccessDenied("approval_denied")))
            && (forall other :: other in s.store.approvals && other != id ==>
                  other in s'.store.approvals && s'.store.approvals[other] == s.store.approvals[other])
  {
    ReachableOwnIds(cfg, s);
  }

  /**
   How an approve call that does not mint ends.  A request that nobody can approve any more is an error,
   and one found past its deadline expires; one whose parent was revoked in the meantime is denied in the
   name of the approver.  Nothing else comes up: the parent is stored, and alive while the request is
   pending in time.  Other requests, tokens and edges stay as they are.
   */
  lemma ApproveRefusals(cfg: Config, s: State, now: Time, id: string, approver: string, jti: Jti)
    requires ValidConfig(cfg) && ReachableState(cfg, s) && FreshJti(s, jti)
    requires !Approve(cfg, s, now, id, approver, jti).1.Minted?
    ensures var (s', o) := Approve(cfg, s, now, id, approver, jti);
            var open := id in s.store.approvals && s.store.approvals[id].status == Pending && now <= s.store.approvals[id].expiresAt;
            && o == Raised(if id !in s.store.approvals then UnknownId
                           else if !open then ValueError
                           else if s.store.closed then StorageError
                           else ParentInvalid("revoked"))
            && (open && !s.store.closed ==>
                  && s.store.approvals[id].parentJti in s.store.revoked
                  && s'.store.approvals[id].status == Denied && s'.store.approvals[id].approvedBy == Some(approver)
                  && s'.store.approvals[id].decidedAt == Some(now))
            && (TimedOut(s.store, now, id) ==> s'.store.approvals[id].status == Expired)
            && (!TimedOut(s.store, now, id) && !(open && !s.store.closed) ==> s' == s)
            && s' == s.(store := s.store.(approvals := s'.store.approvals), log := s'.log)
            && s'.store.approvals.Keys == s.store.approvals.Keys
            && (forall k :: k in s.store.approvals && k != id ==> s'.store.approvals[k] == s.store.approvals[k])
  {
    ReachableOwnIds(cfg, s);
    if id in s.store.approvals {
      StoredIsGrantable(cfg, s, id);
    }
  }

  /** A review is resolved once, with a note, and stays in the queue's history. */
  lemma ResolveOnce(cfg: Config, s: State, now: Time, id: string, blank: bool, reviewer: string, later: Time)
    requires ValidConfig(cfg) && ReachableState(cfg, s)
    ensures var (s', o) := ResolveReview(s, now, id, blank, reviewer);
            && (o == Done <==> !blank && id in s.store.reviews && !s.store.reviews[id].reviewed)
            && (o == Done ==> && id in s'.store.reviews && s'.store.reviews[id].reviewed
                              && s'.store.reviews[id].reviewedBy == Some(reviewer)
                              && s'.store.reviews[id].reviewedAt == Some(now)
                              && s'.store.reviews[id].actionId == s.store.reviews[id].actionId
                              && s'.store.reviews[id].classification == s.store.reviews[id].classification
                              && s'.store == s.store.(reviews := s.store.reviews[id := s'.store.reviews[id]])
                              && ResolveReview(s', later, id, blank, reviewer) == (s', Raised(ValueError)))
            && (o != Done ==> s' == s)
  {
    ReachableInv(cfg, s);
  }

  // ------------------------------------------------------------------
  // Revocation
  // ------------------------------------------------------------------

  /**
   A revoke adds exactly the subtree of j to the revoked set, each new member under this revoke,
   and touches no token, edge, approval or action and no earlier revocation.
   */
  lemma RevokeRevokesExactly(cfg: Config, s: State, now: Time, j: Jti, ids: seq<string>)
    requires ValidConfig(cfg) && ReachableState(cfg, s) && FreshReviews(s, j, ids)
    ensures var st' := Revoke(s, now, j, ids).0.store;
            && (forall t :: t in st'.revoked <==> t in s.store.revoked || InSubtree(s.store.tokens, j, t))
            && (forall t :: t in st'.revoked ==>
                  st'.revoked[t] == if t in s.store.revoked then s.store.revoked[t] else Revocation(now, j))
            && st' == s.store.(revoked := st'.revoked, reviews := st'.reviews)
  {
    ReachableInv(cfg, s);
    TargetsAndCandidates(cfg, s.store, s.signed, j);
    var targets := DescendantsOf(s.store, j);
    var s1 := s.(store := RevokeMany(s.store, targets, j, now));
    QueueMeaning(cfg, s1, Reviewed(s.store), Candidates(s.store, j), ids, now, j);
  }

  // ------------------------------------------------------------------
  // Expiry of requests
  // ------------------------------------------------------------------

  /** A request after the sweep: expired if it was pending past its deadline, else as it was. */
  ghost predicate SweptApproval(before: Store, after: Store, now: Time, ids: set<string>, id: string) {
    id in after.approvals && id in before.approvals
    && after.approvals[id]
       == if id in ids && TimedOut(before, now, id)
          then before.approvals[id].(status := Expired, decidedAt := Some(now), approvedBy := None,
                                     childJti := None, childToken := None)
          else before.approvals[id]
  }

  ghost predicate SweptAll(before: Store, after: Store, now: Time, ids: set<string>) {
    && after == before.(approvals := after.approvals)
    && after.approvals.Keys == before.approvals.Keys
    && forall id :: id in before.approvals ==> SweptApproval(before, after, now, ids, id)
  }

  lemma SweepOne(before: Store, s1: State, now: Time, ids: set<string>, id: string)
    requires OwnIds(before.approvals) && SweptAll(before, s1.store, now, ids)
    ensures var s2 := if TimedOut(s1.store, now, id) then Decide(s1, s1.store.approvals[id], now, Expired, None, None) else s1;
            SweptAll(before, s2.store, now, ids + {id})
    ensures TimedOut(s1.store, now, id) <==> TimedOut(before, now, id) && id !in ids
  {
    if id in before.approvals {
      assert SweptApproval(before, s1.store, now, ids, id);
    }
    var s2 := if TimedOut(s1.store, now, id) then Decide(s1, s1.store.approvals[id], now, Expired, None, None) else s1;
    forall k | k in before.approvals
      ensures SweptApproval(before, s2.store, now, ids + {id}, k)
    {
      assert SweptApproval(before, s1.store, now, ids, k);
    }
  }

  function Stale(st: Store, now: Time, ids: set<string>): set<string> {
    set id | id in ids && TimedOut(st, now, id)
  }

  lemma StaleOneMore(st: Store, now: Time, ids: set<string>, id: string)
    ensures var more := Stale(st, now, ids + {id});
            |more| == |Stale(st, now, ids)| + if TimedOut(st, now, id) && id !in ids then 1 else 0
  {
    var few, more := Stale(st, now, ids), Stale(st, now, ids + {id});
    if TimedOut(st, now, id) && id !in ids {
      assert more == few + {id};
    } else {
      assert more == few;
    }
  }

  lemma {:induction false} ExpireStaleMeaning(s: State, now: Time, listing: seq<string>)
    requires OwnIds(s.store.approvals)
    ensures SweptAll(s.store, ExpireStale(s, now, listing).store, now, Elements(listing))
    ensures |ExpireStale(s, now, listing).log| == |s.log| + |Stale(s.store, now, Elements(listing))|
    decreases |listing|
  {
    if listing == [] {
      assert Elements(listing) == {};
    } else {
      var n := |listing| - 1;
      ExpireStaleMeaning(s, now, listing[..n]);
      SweepOne(s.store, ExpireStale(s, now, listing[..n]), now, Elements(listing[..n]), listing[n]);
      StaleOneMore(s.store, now, Elements(listing[..n]), listing[n]);
      ElementsSnoc(listing);
    }
  }

  lemma ElementsSnoc(listing: seq<string>)
    requires listing != []
    ensures Elements(listing) == Elements(listing[..|listing| - 1]) + {listing[|listing| - 1]}
  {
    assert listing == listing[..|listing| - 1] + [listing[|listing| - 1]];
  }

  /** Each request pending past its deadline has expired, and nothing else is different. */
  ghost predicate ExpiredExactlyTheStale(before: Store, after: Store, now: Time) {
    && after == before.(approvals := after.approvals)
    && after.approvals.Keys == before.approvals.Keys
    && (forall id :: id in before.approvals ==>
          if TimedOut(before, now, id) then after.approvals[id].status == Expired
          else after.approvals[id] == before.approvals[id])
  }

  lemma SweptIsExact(before: Store, after: Store, now: Time, ids: set<string>)
    requires SweptAll(before, after, now, ids) && forall id :: TimedOut(before, now, id) ==> id in ids
    ensures ExpiredExactlyTheStale(before, after, now)
    ensures forall id :: !TimedOut(after, now, id)
  {
    forall id | id in before.approvals
      ensures if TimedOut(before, now, id) then after.approvals[id].status == Expired
              else after.approvals[id] == before.approvals[id]
    {
      assert SweptApproval(before, after, now, ids, id);
    }
  }

  /**
   A sweep of all pending requests expires exactly those past their deadline, writes one row for
   each, and leaves none behind.
   */
  lemma SweepLeavesNoneStale(cfg: Config, s: State, now: Time, listing: seq<string>)
    requires ValidConfig(cfg) && ReachableState(cfg, s) && Legal(s, CallExpireStale(listing))
    ensures var s' := ExpireStale(s, now, listing);
            && ExpiredExactlyTheStale(s.store, s'.store, now)
            && (forall id :: !TimedOut(s'.store, now, id))
            && |s'.log| == |s.log| + |Stale(s.store, now, s.store.approvals.Keys)|
  {
    ReachableOwnIds(cfg, s);
    ExpireStaleMeaning(s, now, listing);
    SweptIsExact(s.store, ExpireStale(s, now, listing).store, now, Elements(listing));
    assert Stale(s.store, now, Elements(listing)) == Stale(s.store, now, s.store.approvals.Keys);
  }

  lemma ReachableOwnIds(cfg: Config, s: State)
    requires ValidConfig(cfg) && ReachableState(cfg, s)
    ensures OwnIds(s.store.approvals)
  {
    ReachableInv(cfg, s);
  }

  // ------------------------------------------------------------------
  // A closed store
  // ------------------------------------------------------------------

  function WithClosed(s: State, closed: bool): State {
    s.(store := s.store.(closed := closed))
  }

  /** The calls that never ask whether a token is revoked. */
  predicate AsksNothing(call: Call) {
    !call.CallVerify? && !call.CallDelegate? && !call.CallApprove? && !call.CallOpenAction?
  }

  lemma {:induction false} QueueIgnoresClosed(s: State, already: set<string>, candidates: seq<Action>, ids: seq<string>,
                                              now: Time, root: Jti, closed: bool)
    requires |ids| == |candidates|
    ensures var (s', queued) := QueueReviews(s, already, candidates, ids, now, root);
            QueueReviews(WithClosed(s, closed), already, candidates, ids, now, root) == (WithClosed(s', closed), queued)
    decreases |ids|
  {
    if candidates != [] {
      var n := |candidates| - 1;
      QueueIgnoresClosed(s, already, candidates[..n], ids[..n], now, root, closed);
    }
  }

  lemma {:induction false} ExpireIgnoresClosed(s: State, now: Time, ids: seq<string>, closed: bool)
    ensures ExpireStale(WithClosed(s, closed), now, ids) == WithClosed(ExpireStale(s, now, ids), closed)
    decreases |ids|
  {
    if ids != [] {
      ExpireIgnoresClosed(s, now, ids[..|ids| - 1], closed);
    }
  }

  lemma {:induction false} QuestionableIgnoresClosed(st: Store, jtis: seq<Jti>, closed: bool)
    ensures QuestionableUnder(st.(closed := closed), jtis) == QuestionableUnder(st, jtis)
    decreases |jtis|
  {
    if jtis != [] {
      QuestionableIgnoresClosed(st, jtis[..|jtis| - 1], closed);
    }
  }

  lemma CandidatesIgnoreClosed(st: Store, j: Jti, closed: bool)
    ensures DescendantsOf(st.(closed := closed), j) == DescendantsOf(st, j)
    ensures Candidates(st.(closed := closed), j) == Candidates(st, j)
  {
    QuestionableIgnoresClosed(st, DescendantsOf(st, j), closed);
  }

  lemma RevokeIgnoresClosed(s: State, now: Time, j: Jti, ids: seq<string>, closed: bool)
    requires |ids| == |Candidates(s.store, j)|
    ensures |ids| == |Candidates(s.store.(closed := closed), j)|
    ensures var (s', o) := Revoke(s, now, j, ids);
            Revoke(WithClosed(s, closed), now, j, ids) == (WithClosed(s', closed), o)
  {
    CandidatesIgnoreClosed(s.store, j, closed);
    var s1 := s.(store := RevokeMany(s.store, DescendantsOf(s.store, j), j, now));
    QueueIgnoresClosed(s1, Reviewed(s.store), Candidates(s.store, j), ids, now, j, closed);
    assert Reviewed(s.store.(closed := closed)) == Reviewed(s.store);
  }

  lemma DenyIgnoresClosed(s: State, now: Time, id: string, approver: string, closed: bool)
    ensures var (s', o) := Deny(s, now, id, approver);
            Deny(WithClosed(s, closed), now, id, approver) == (WithClosed(s', closed), o)
  {
  }

  lemma MintRootIgnoresClosed(cfg: Config, s: State, now: Time, sub: string, scopes: set<Scope>, ttl: int,
                              maxDepth: int, jti: Jti, closed: bool)
    ensures var (s', o) := MintRootToken(cfg, s, now, sub, scopes, ttl, maxDepth, jti);
            MintRootToken(cfg, WithClosed(s, closed), now, sub, scopes, ttl, maxDepth, jti) == (WithClosed(s', closed), o)
  {
  }

  lemma ResolveIgnoresClosed(s: State, now: Time, id: string, blank: bool, reviewer: string, closed: bool)
    ensures var (s', o) := ResolveReview(s, now, id, blank, reviewer);
            ResolveReview(WithClosed(s, closed), now, id, blank, reviewer) == (WithClosed(s', closed), o)
  {
  }

  lemma CollectIgnoresClosed(s: State, id: string, closed: bool)
    ensures Collect(WithClosed(s, closed), id) == Collect(s, id)
  {
  }

  lemma LegalIgnoresClosed(s: State, call: Call, closed: bool)
    requires Legal(s, call)
    ensures Legal(WithClosed(s, closed), call)
  {
    if call.CallRevoke? {
      CandidatesIgnoreClosed(s.store, call.jti, closed);
    }
  }

  /** What the call does to a store, it does to the same store opened. */
  ghost predicate SameOpened(cfg: Config, open: State, t: Timed)
    requires Legal(open, t.call) && Legal(WithClosed(open, true), t.call)
  {
    var (s', o) := Step(cfg, open, t);
    Step(cfg, WithClosed(open, true), t) == (WithClosed(s', true), o)
  }

  lemma OpenedAlike(cfg: Config, open: State, t: Timed)
    requires AsksNothing(t.call) && Legal(open, t.call) && Legal(WithClosed(open, true), t.call)
    ensures SameOpened(cfg, open, t)
  {
    match t.call {
      case CallMintRoot(sub, scopes, ttl, maxDepth, jti) =>
        MintRootIgnoresClosed(cfg, open, t.now, sub, scopes, ttl, maxDepth, jti, true);
      case CallRevoke(j, ids) => RevokeIgnoresClosed(open, t.now, j, ids, true);
      case CallResolveReview(id, blank, reviewer) => ResolveIgnoresClosed(open, t.now, id, blank, reviewer, true);
      case CallDeny(id, approver) => DenyIgnoresClosed(open, t.now, id, approver, true);
      case CallExpireStale(listing) => ExpireIgnoresClosed(open, t.now, listing, true);
      case CallCollect(id) => CollectIgnoresClosed(open, id, true);
      case CallCloseAction(_, _) =>
      case CallResetCircuit =>
      case CallClose =>
    }
  }

  /**
   Closing the store changes nothing for the calls that never ask whether a token is revoked: they have
   the outcome and the effect that they have on an open store.  Root mints, denials, sweeps, resolutions,
   the closing of actions and revokes go on; of the others `ClosedFailsClosed` says that none succeeds.
   */
  lemma ClosingAffectsOnlyLookups(cfg: Config, s: State, t: Timed)
    requires s.store.closed && AsksNothing(t.call) && Legal(s, t.call)
    ensures Legal(WithClosed(s, false), t.call)
    ensures var (s', o) := Step(cfg, WithClosed(s, false), t);
            Step(cfg, s, t) == (WithClosed(s', true), o)
  {
    LegalIgnoresClosed(s, t.call, false);
    assert WithClosed(WithClosed(s, false), true) == s;
    OpenedAlike(cfg, WithClosed(s, false), t);
  }
}
