/** What a mint, a parked request and an approval take from the arguments of their callers. */
module AuthorityLifetimes {
  import opened Core
  import opened Tokens
  import opened Lineage
  import opened Records
  import opened Storage
  import opened Walk
  import opened Authority
  import opened AuthorityInvariant
  import opened AuthorityTheorems
  import opened AuthorityHistory

  /** One more call after a run. */
  lemma {:induction false} ReachesSnoc(cfg: Config, s: State, calls: seq<Timed>, mid: State, t: Timed)
    requires Reaches(cfg, s, calls, mid) && Legal(mid, t.call)
    ensures Reaches(cfg, s, calls + [t], Step(cfg, mid, t).0)
    decreases |calls|
  {
    if calls == [] {
      assert [t][1..] == [];
    } else {
      assert (calls + [t])[0] == calls[0] && (calls + [t])[1..] == calls[1..] + [t];
      ReachesSnoc(cfg, Step(cfg, s, calls[0]).0, calls[1..], mid, t);
    }
  }

  lemma ReachableStep(cfg: Config, s: State, t: Timed)
    requires ReachableState(cfg, s) && Legal(s, t.call)
    ensures ReachableState(cfg, Step(cfg, s, t).0)
  {
    var calls :| Reaches(cfg, INITIAL, calls, s);
    ReachesSnoc(cfg, INITIAL, calls, s, t);
  }

  // ------------------------------------------------------------------
  // Roots
  // ------------------------------------------------------------------

  /**
   A root is minted exactly for non-empty scopes and a ceiling that is not negative, and holds what its
   caller asked for: these scopes and subject, the ceiling and the lifetime asked for (0 stands for the
   configured ones), the lifetime within the configured maximum.
   */
  lemma RootMintsIff(cfg: Config, s: State, now: Time, sub: string, scopes: set<Scope>, ttl: int, maxDepth: int, jti: Jti)
    requires ValidConfig(cfg) && ReachableState(cfg, s) && FreshJti(s, jti)
    ensures var (s', o) := MintRootToken(cfg, s, now, sub, scopes, ttl, maxDepth, jti);
            && (o.Minted? <==> scopes != {} && maxDepth >= 0)
            && (!o.Minted? ==> o == Raised(ValueError) && s' == s)
            && (o.Minted? ==>
                  var c := o.claims;
                  && c.jti == c.rootJti == jti && c.sub == c.issuedFor == sub && c.scopes == scopes
                  && c.chain == [] && c.depth == 0 && c.maxDepth == (if maxDepth == 0 then cfg.maxDelegationDepth else maxDepth)
                  && c.iat == now && LivesFor(c.exp, now, if ttl == 0 then cfg.defaultTtl else ttl, now + cfg.maxTtl)
                  && !c.approvalRequired && s'.signed == s.signed + {c}
                  && s'.store.tokens.Keys == s.store.tokens.Keys + {jti} && s'.store.edges == s.store.edges)
  {
  }

  /** From then on the token is accepted exactly for these scopes and until it expires. */
  lemma RootIsAccepted(cfg: Config, s: State, now: Time, sub: string, scopes: set<Scope>, ttl: int, maxDepth: int,
                       jti: Jti, calls: seq<Timed>, s2: State, later: Time, scope: Scope)
    requires ValidConfig(cfg) && ReachableState(cfg, s) && FreshJti(s, jti) && scopes != {} && maxDepth >= 0
    requires Reaches(cfg, MintRootToken(cfg, s, now, sub, scopes, ttl, maxDepth, jti).0, calls, s2)
    requires s2.breaker.opening.None? && !s2.store.closed && jti !in s2.store.revoked
    requires RateCheck(cfg, s2, later, sub, OpVerify).1
    ensures var c := MintRootToken(cfg, s, now, sub, scopes, ttl, maxDepth, jti).1.claims;
            Verify(cfg, s2, later, Encoded(c), scope).1 == VerifyResult.Valid(c) <==> scope in scopes && later <= c.exp
  {
    var t := At(now, CallMintRoot(sub, scopes, ttl, maxDepth, jti));
    var s1 := Step(cfg, s, t).0;
    RootMintsIff(cfg, s, now, sub, scopes, ttl, maxDepth, jti);
    ReachableStep(cfg, s, t);
    StaysReachable(cfg, s1, calls, s2);
    ReachableInv(cfg, s1);
    RunKept(cfg, s1, calls, s2);
    VerifySucceedsIff(cfg, s2, later, Encoded(Step(cfg, s, t).1.claims), scope);
    AcceptedAsPresented(cfg, s2, later, Step(cfg, s, t).1.claims, scope);
  }

  lemma AcceptedAsPresented(cfg: Config, s: State, now: Time, c: Claims, scope: Scope)
    ensures var v := Verify(cfg, s, now, Encoded(c), scope).1; v.Valid? ==> v.claims == c
  {
  }

  lemma {:induction false} StaysReachable(cfg: Config, s: State, calls: seq<Timed>, s': State)
    requires ReachableState(cfg, s) && Reaches(cfg, s, calls, s')
    ensures ReachableState(cfg, s')
    decreases |calls|
  {
    if calls != [] {
      ReachableStep(cfg, s, calls[0]);
      StaysReachable(cfg, Step(cfg, s, calls[0]).0, calls[1..], s');
    }
  }

  // ------------------------------------------------------------------
  // Parked requests
  // ------------------------------------------------------------------

  /** The record of a parked request, in terms of the request and of the token presented with it. */
  ghost predicate AsksFor(cfg: Config, a: Approval, parent: Claims, r: Request, now: Time) {
    && a.approvalId == r.freshApproval && a.status == Pending && a.createdAt == now
    && a.parentJti == parent.jti && a.parentSubject == parent.sub && a.parentExp == parent.exp
    && a.childAgent == r.agent && a.childSubject == r.childSubject && a.requested == r.scopes
    && (forall x :: x in a.sensitive <==> x in r.scopes && x in cfg.sensitive)
    && a.ttl == (if r.ttl == 0 then cfg.defaultTtl else r.ttl)
    && LivesFor(a.expiresAt, now, cfg.approvalTimeout, parent.exp)
    && a.decidedAt == None && a.childJti == None
  }

  lemma ParkedByGrant(cfg: Config, s: State, now: Time, r: Request)
    requires Delegate(cfg, s, now, r).1.ParkedAs?
    ensures DecodeLive(s, now, r.token) == Live(r.token.claims)
    ensures Delegate(cfg, s, now, r).0.store
            == SetApproval(s.store, ParkedApproval(cfg, now, r.token.claims, r))
    ensures Delegate(cfg, s, now, r).1 == ParkedAs(r.freshApproval) && r.scopes <= r.token.claims.scopes
  {
    EmptyDifference(r.scopes, r.token.claims.scopes);
  }

  /** A request is parked with exactly what was asked, and changes nothing else that is stored. */
  lemma ParkingRecords(cfg: Config, s: State, now: Time, r: Request)
    requires Delegate(cfg, s, now, r).1.ParkedAs?
    ensures var (s', o) := Delegate(cfg, s, now, r);
            && o == ParkedAs(r.freshApproval) && r.freshApproval in s'.store.approvals
            && AsksFor(cfg, s'.store.approvals[r.freshApproval], r.token.claims, r, now)
            && s'.store == s.store.(approvals := s.store.approvals[r.freshApproval := s'.store.approvals[r.freshApproval]])
  {
    ParkedByGrant(cfg, s, now, r);
  }

  /** When exactly `delegate` parks, and what it takes for it. */
  lemma DelegateParksIff(cfg: Config, s: State, now: Time, r: Request)
    requires ValidConfig(cfg) && ReachableState(cfg, s) && Legal(s, CallDelegate(r))
    ensures Delegate(cfg, s, now, r).1.ParkedAs?
            <==> && s.breaker.opening.None? && !s.store.closed
                 && r.token.Encoded? && r.token.claims in s.signed
                 && now <= r.token.claims.exp && r.token.claims.jti !in s.store.revoked
                 && RateCheck(cfg, s, now, r.token.claims.sub, OpDelegate).1
                 && r.scopes <= r.token.claims.scopes && (exists x :: x in r.scopes && x in cfg.sensitive)
                 && r.token.claims.depth < r.token.claims.maxDepth
  {
    SomeInBoth(r.scopes, cfg.sensitive);
    if DecodeLive(s, now, r.token).Live? {
      LiveImpliesRootAlive(cfg, s, now, r.token);
      EmptyDifference(r.scopes, r.token.claims.scopes);
    }
    if r.token.Encoded? && r.token.claims in s.signed {
      AncestorLookupsAgree(cfg, s, r.token.claims);
    }
  }

  lemma SomeInBoth<T>(a: set<T>, b: set<T>)
    ensures a * b != {} <==> exists x :: x in a && x in b
  {
    if x :| x in a && x in b {
      assert x in a * b;
    }
  }

  // ------------------------------------------------------------------
  // Approved requests
  // ------------------------------------------------------------------

  /** What an approve mints, in terms of its record: nothing wider and nothing that lives longer. */
  lemma ApproveMintsTheRequest(cfg: Config, s: State, now: Time, id: string, approver: string, jti: Jti)
    requires Approve(cfg, s, now, id, approver, jti).1.Minted?
    ensures id in s.store.approvals
    ensures var a := s.store.approvals[id]; var c := Approve(cfg, s, now, id, approver, jti).1.claims;
            && c.jti == jti && c.sub == a.childSubject && c.scopes == a.requested && c.iat == now
            && c.approvalRequired && c.approvedBy == Some(approver)
            && LivesFor(c.exp, now, a.ttl, a.parentExp)
            && c.chain != [] && c.chain[|c.chain| - 1].jti == s.store.tokens[a.parentJti].jti
  {
    MintedByApprove(cfg, s, now, id, approver, jti);
  }

  /**
   From the delegate call that parked a request to the approve call that mints for it, whatever was
   called in between: the token has the subject and exactly the scopes that the delegate call named,
   hangs below the token presented there, and lives for the time asked for, counted from the approval,
   but no longer than that token.
   */
  lemma ParkedThenApproved(cfg: Config, s: State, now: Time, r: Request, calls: seq<Timed>, s2: State,
                           later: Time, approver: string, jti: Jti)
    requires ValidConfig(cfg) && ReachableState(cfg, s) && Legal(s, CallDelegate(r))
    requires Delegate(cfg, s, now, r).1.ParkedAs? && Reaches(cfg, Delegate(cfg, s, now, r).0, calls, s2)
    requires Approve(cfg, s2, later, r.freshApproval, approver, jti).1.Minted?
    ensures var c := Approve(cfg, s2, later, r.freshApproval, approver, jti).1.claims; var parent := r.token.claims;
            && c.sub == r.childSubject && c.scopes == r.scopes && c.approvedBy == Some(approver)
            && LivesFor(c.exp, later, if r.ttl == 0 then cfg.defaultTtl else r.ttl, parent.exp)
            && c.chain != [] && c.chain[|c.chain| - 1].jti == parent.jti
  {
    var t := At(now, CallDelegate(r));
    var s1 := Step(cfg, s, t).0;
    ParkingRecords(cfg, s, now, r);
    ReachableStep(cfg, s, t);
    ReachableInv(cfg, s1);
    RunKept(cfg, s1, calls, s2);
    StaysReachable(cfg, s1, calls, s2);
    assert SameRequest(s1.store.approvals[r.freshApproval], s2.store.approvals[r.freshApproval]);
    ApproveMintsTheRequest(cfg, s2, later, r.freshApproval, approver, jti);
    ParentOwnJti(cfg, s2, r.freshApproval);
  }

  lemma ParentOwnJti(cfg: Config, s: State, id: string)
    requires ValidConfig(cfg) && ReachableState(cfg, s) && id in s.store.approvals
    ensures s.store.approvals[id].parentJti in s.store.tokens
    ensures s.store.tokens[s.store.approvals[id].parentJti].jti == s.store.approvals[id].parentJti
  {
    StoredIsGrantable(cfg, s, id);
    assert WellPlaced(s.store.tokens, cfg.maxTtl, s.store.approvals[id].parentJti);
  }
}
