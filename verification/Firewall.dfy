/**
 The classes: `MemoryStorage`, `AuditLog` and `Firewall`, updated in place call by call, each method
 tied to the function of the authority that it implements.
 */
module FirewallClasses {
  import opened Core
  import opened Tokens
  import opened Lineage
  import opened Records
  import opened Storage
  import opened Walk
  import opened Authority
  import opened AuthorityInvariant
  import opened AuditChain
  import BufferedAudit
  import Guardrails

  // ------------------------------------------------------------------
  // storage/memory.py
  // ------------------------------------------------------------------

  class MemoryStorage {
    var tokens: TokenMap
    var edges: Edges
    var revoked: map<Jti, Revocation>
    var approvals: map<string, Approval>
    var actions: map<string, Action>
    var actionsByJti: map<Jti, seq<string>>
    var reviews: map<string, Review>
    var closed: bool
    var audit: seq<Row<Event>>

    function Value(): Store
      reads this
    {
      Store(tokens, edges, revoked, approvals, actions, actionsByJti, reviews, closed)
    }

    constructor ()
      ensures Value() == EMPTY && audit == []
    {
      tokens, edges, revoked, approvals := map[], map[], map[], map[];
      actions, actionsByJti, reviews, closed, audit := map[], map[], map[], false, [];
    }

    /** Returns false where the source raises StorageError: records are never overwritten. */
    method AddToken(m: TokenMeta) returns (ok: bool)
      modifies this`tokens
      ensures ok <==> m.jti !in old(tokens)
      ensures Value() == if ok then PutToken(old(Value()), m) else old(Value())
    {
      ok := m.jti !in tokens;
      if ok {
        tokens := tokens[m.jti := m];
      }
    }

    method AddEdgeRow(p: Jti, c: Jti)
      modifies this`edges
      ensures Value() == LinkTokens(old(Value()), p, c)
    {
      var children := if p in edges then edges[p] else [];
      if c !in children {
        children := children + [c];
      }
      edges := edges[p := children];
    }

    method DescendantsBreadthFirst(j: Jti) returns (order: seq<Jti>)
      ensures order == DescendantsOf(Value(), j)
    {
      order := WalkWithQueue(edges, j);
    }

    /** None where the source raises: a closed store must not answer. */
    method IsRevoked(j: Jti) returns (answer: Option<bool>)
      ensures answer == if closed then None else Some(j in revoked)
    {
      answer := if closed then None else Some(j in revoked);
    }

    /** Records each target once; the jtis that were not revoked before, in order. */
    method RevokeAll(targets: seq<Jti>, root: Jti, now: Time) returns (newly: seq<Jti>)
      modifies this`revoked
      ensures Value() == RevokeMany(old(Value()), targets, root, now)
      ensures newly == Unseen(targets, old(revoked).Keys)
    {
      newly := [];
      for i := 0 to |targets|
        invariant revoked == AddRevocations(old(revoked), Elements(targets[..i]), root, now)
        invariant newly == Unseen(targets[..i], old(revoked).Keys)
      {
        OneMoreRevocation(old(revoked), targets, i, root, now);
        if targets[i] !in revoked {
          revoked := revoked[targets[i] := Revocation(now, root)];
          newly := newly + [targets[i]];
        }
      }
      assert targets[..|targets|] == targets;
    }

    method WriteApproval(a: Approval)
      modifies this`approvals
      ensures Value() == SetApproval(old(Value()), a)
    {
      approvals := approvals[a.approvalId := a];
    }

    method AddAction(a: Action) returns (ok: bool)
      modifies this`actions, this`actionsByJti
      ensures ok <==> a.actionId !in old(actions)
      ensures Value() == if ok then PutAction(old(Value()), a) else old(Value())
    {
      ok := a.actionId !in actions;
      if ok {
        actions := actions[a.actionId := a];
        actionsByJti := actionsByJti[a.jti := ActionsOn(actionsByJti, a.jti) + [a.actionId]];
      }
    }

    method EndAction(id: string, state: Completion, now: Time)
      modifies this`actions
      ensures Value() == CloseActionRow(old(Value()), id, state, now)
    {
      if id in actions {
        actions := actions[id := actions[id].(finishedAt := Some(now), state := Some(state))];
      }
    }

    method ListForReview(jtis: seq<Jti>) returns (found: seq<Action>)
      ensures found == ActionsForReview(Value(), jtis)
    {
      found := [];
      for i := 0 to |jtis|
        invariant found == QuestionableUnder(Value(), jtis[..i])
      {
        assert jtis[..i + 1][..i] == jtis[..i];
        ghost var before := found;
        var ids := ActionsOn(actionsByJti, jtis[i]);
        for k := 0 to |ids|
          invariant found == before + QuestionableOn(actions, ids[..k])
        {
          assert ids[..k + 1][..k] == ids[..k];
          if ids[k] in actions && Questionable(actions[ids[k]]) {
            found := found + [actions[ids[k]]];
          }
        }
        assert ids[..|ids|] == ids;
      }
      assert jtis[..|jtis|] == jtis;
      found := SortByStart(found);
    }

    method WriteReview(r: Review)
      modifies this`reviews
      ensures Value() == SetReview(old(Value()), r)
    {
      reviews := reviews[r.reviewId := r];
    }

    method AppendAuditBatch(rows: seq<Row<Event>>)
      modifies this`audit
      ensures audit == old(audit) + rows
    {
      audit := audit + rows;
    }
  }

  // ------------------------------------------------------------------
  // _audit.py
  // ------------------------------------------------------------------

  class AuditLog {
    const storage: MemoryStorage
    const h: Hashing<Event>
    var tail: Option<string>

    /** The chain is intact and the cached tail, once read, is the store's. */
    ghost predicate Valid()
      reads this, storage
    {
      BufferedAudit.Sound(h, storage.audit, tail)
    }

    constructor (storage: MemoryStorage, h: Hashing<Event>)
      requires Intact(h, storage.audit)
      ensures Valid() && this.storage == storage && this.h == h
    {
      this.storage, this.h, this.tail := storage, h, None;
    }

    method LogBatch(events: seq<Event>)
      modifies this, storage`audit
      ensures events == [] ==> storage.audit == old(storage.audit) && tail == old(tail)
      ensures events != [] ==>
                tail.Some? && (storage.audit, tail.value)
                              == BufferedAudit.Write(h, old(storage.audit), old(tail), events)
      ensures old(Valid()) ==> Valid() && EventsOf(storage.audit) == old(EventsOf(storage.audit)) + events
    {
      if events == [] {
        return;
      }
      var start := if tail.Some? then tail.value else TailHash(storage.audit);
      var rows, newTail := ExtendChain(h, start, |storage.audit| + 1, events);
      BufferedAudit.WriteAdds(h, storage.audit, tail, events);
      if BufferedAudit.Sound(h, storage.audit, tail) {
        BufferedAudit.WriteSound(h, storage.audit, tail, events);
      }
      storage.AppendAuditBatch(rows);
      tail := Some(newTail);
    }

    method Verify() returns (report: IntegrityReport)
      ensures report.intact <==> Intact(h, storage.audit)
      ensures report.intact ==> report.rowsChecked == |storage.audit|
      ensures !report.intact ==> FirstBreak(h, storage.audit, report.rowsChecked)
    {
      report := VerifyIntegrity(h, storage.audit);
    }
  }

  // ------------------------------------------------------------------
  // firewall.py
  // ------------------------------------------------------------------

  class Firewall {
    const cfg: Config
    const storage: MemoryStorage
    const audit: AuditLog
    const rate: Guardrails.LocalWindowCache
    const circuit: Guardrails.CircuitBreaker
    var signed: set<Claims>

    function Value(): State
      reads this, storage, rate, circuit
    {
      State(storage.Value(), EventsOf(storage.audit), signed, rate.buckets, circuit.Value())
    }

    ghost predicate Wired()
      reads this, storage, audit
    {
      ValidConfig(cfg) && circuit.cfg == cfg.breaker && audit.storage == storage && audit.Valid()
    }

    ghost predicate Valid()
      reads this, storage, audit, rate, circuit
    {
      Wired() && Inv(cfg, Value())
    }

    constructor (cfg: Config, h: Hashing<Event>)
      requires ValidConfig(cfg)
      ensures Valid() && this.cfg == cfg && Value() == INITIAL
      ensures fresh(storage) && fresh(audit) && fresh(rate) && fresh(circuit)
    {
      this.cfg := cfg;
      var s := new MemoryStorage();
      this.storage := s;
      this.audit := new AuditLog(s, h);
      this.rate := new Guardrails.LocalWindowCache();
      this.circuit := new Guardrails.CircuitBreaker(cfg.breaker);
      this.signed := {};
      new;
      InitiallyInv(cfg);
    }

    // ----------------------------------------------------------------
    // Internals
    // ----------------------------------------------------------------

    method LogEvent(e: Event)
      requires Wired()
      modifies audit, storage`audit
      ensures Wired() && Value() == Log(old(Value()), e)
    {
      audit.LogBatch([e]);
    }

    /** CircuitBreaker.record, with the callback that audits the breaker opening. */
    method RecordOutcome(now: Time, error: bool, subject: string, policyDenial: bool)
      requires Wired()
      modifies circuit, audit, storage`audit
      ensures Wired() && Value() == Record(cfg, old(Value()), now, error, subject, policyDenial)
    {
      if !Exempt(cfg, subject) {
        var counted := error && !(policyDenial && !cfg.breaker.countPolicyDenials);
        var tripped := circuit.Record(now as real, counted);
        if tripped.Some? {
          LogEvent(BreakerOpened(tripped.value));
        }
      }
    }

    method CheckRate(now: Time, subject: string, op: Operation) returns (within: bool)
      requires Wired()
      modifies rate
      ensures Wired() && (Value(), within) == RateCheck(cfg, old(Value()), now, subject, op)
    {
      if Exempt(cfg, subject) {
        return true;
      }
      var count := rate.HitKey(RateKey(op, subject), now as real, Guardrails.WINDOW_SECONDS);
      return count <= LimitFor(cfg, op);
    }

    /** The lookups of a token and its ancestors, in order; None if the store is closed. */
    method LookUpRevocation(c: Claims) returns (r: Option<bool>)
      ensures r == if storage.closed then None else Some(AnyRevoked(storage.Value(), c))
    {
      r := storage.IsRevoked(c.jti);
      if r != Some(false) {
        return;
      }
      for i := 0 to |c.chain|
        invariant r == Some(false) && c.jti !in storage.revoked
        invariant forall k :: 0 <= k < i ==> c.chain[k].jti !in storage.revoked
      {
        r := storage.IsRevoked(c.chain[i].jti);
        if r != Some(false) {
          assert c.chain[i] in c.chain;
          return;
        }
      }
    }

    method DecodeLiveToken(now: Time, token: Token) returns (d: Decoded)
      ensures d == DecodeLive(Value(), now, token)
    {
      d := Decode(Value(), token);
      if d.Dead? {
        return;
      }
      if d.claims.exp < now {
        return Dead(ParentInvalid(REASON_EXPIRED));
      }
      var revoked := LookUpRevocation(d.claims);
      if revoked.None? {
        return Dead(StorageError);
      }
      if revoked.value {
        return Dead(ParentInvalid(REASON_REVOKED));
      }
    }

    /** Sign, store the record, and for a child add the edge. */
    method IssueToken(c: Claims, parent: Option<Jti>)
      requires Wired() && c.jti !in storage.tokens
      modifies this, storage`tokens, storage`edges
      ensures Wired() && Value() == Issue(old(Value()), c, parent)
    {
      signed := signed + {c};
      var ok := storage.AddToken(MetaOf(c, parent));
      if parent.Some? {
        storage.AddEdgeRow(parent.value, c.jti);
      }
    }

    // ----------------------------------------------------------------
    // Minting
    // ----------------------------------------------------------------

    method MintRootCapability(now: Time, sub: string, scopes: set<Scope>, ttl: int, maxDepth: int, jti: Jti)
      returns (o: Outcome)
      requires Valid() && Legal(Value(), CallMintRoot(sub, scopes, ttl, maxDepth, jti))
      modifies this, storage, audit
      ensures Valid() && (Value(), o) == MintRootToken(cfg, old(Value()), now, sub, scopes, ttl, maxDepth, jti)
    {
      MintRootKeeps(cfg, Value(), now, sub, scopes, ttl, maxDepth, jti);
      var life := Min(OrDefault(ttl, cfg.defaultTtl), cfg.maxTtl);
      var ceiling := OrDefault(maxDepth, cfg.maxDelegationDepth);
      if scopes == {} || ceiling < 1 {
        return Raised(ValueError);
      }
      var c := MintRoot(cfg.issuer, jti, sub, scopes, life, ceiling, now);
      IssueToken(c, None);
      LogEvent(RootMinted(jti, scopes, life, ceiling));
      return Minted(c);
    }

    method DelegateCapability(now: Time, r: Request) returns (o: Outcome)
      requires Valid() && Legal(Value(), CallDelegate(r))
      modifies this, storage, audit, rate, circuit
      ensures Valid() && (Value(), o) == Delegate(cfg, old(Value()), now, r)
    {
      DelegateKeeps(cfg, Value(), now, r);
      if circuit.opening.Some? {
        return Raised(CircuitOpen);
      }
      if r.scopes == {} {
        return Raised(ValueError);
      }
      var d := DecodeLiveToken(now, r.token);
      if d.Dead? {
        return Raised(d.error);
      }
      var within := CheckRate(now, d.claims.sub, OpDelegate);
      if !within {
        return Raised(RateLimited);
      }
      if !RootAlive(Value(), now, d.claims) {
        return Raised(RootChainBroken);
      }
      o := GrantTo(now, d.claims, r);
    }

    method GrantTo(now: Time, parent: Claims, r: Request) returns (o: Outcome)
      requires Wired() && r.freshJti !in storage.tokens
      modifies this, storage, audit, circuit
      ensures Wired() && (Value(), o) == Grant(cfg, old(Value()), now, parent, r)
    {
      var denied := r.scopes - parent.scopes;
      if denied != {} {
        LogEvent(EscalationDenied(parent.jti, r.scopes, denied, parent.depth + 1));
        RecordOutcome(now, true, parent.sub, true);
        return Raised(ScopeEscalation(denied));
      }
      if parent.depth + 1 > parent.maxDepth {
        LogEvent(DepthLimitExceeded(parent.jti, r.scopes, parent.depth + 1));
        RecordOutcome(now, true, parent.sub, true);
        return Raised(DepthLimit);
      }
      if r.anomalous {
        LogEvent(AnomalyFlagged(parent.jti, r.scopes));
      }
      if r.scopes * cfg.sensitive != {} {
        storage.WriteApproval(ParkedApproval(cfg, now, parent, r));
        LogEvent(ApprovalPending(r.freshApproval, parent.jti, r.scopes, parent.depth + 1));
        RecordOutcome(now, false, parent.sub, false);
        return ParkedAs(r.freshApproval);
      }
      var c := GrantedChild(cfg, now, parent, r);
      IssueToken(c, Some(parent.jti));
      LogEvent(Delegated(c.jti, parent.jti, c.rootJti, c.scopes, c.depth, c.exp));
      RecordOutcome(now, false, parent.sub, false);
      return Minted(c);
    }

    // ----------------------------------------------------------------
    // Verification
    // ----------------------------------------------------------------

    method VerifyToken(now: Time, token: Token, scope: Scope) returns (v: VerifyResult)
      requires Valid()
      modifies audit, rate, circuit, storage`audit
      ensures Valid() && (Value(), v) == Verify(cfg, old(Value()), now, token, scope)
    {
      VerifyKeeps(cfg, Value(), now, token, scope);
      if circuit.opening.Some? {
        return Invalid(REASON_CIRCUIT);
      }
      if token.Missing? {
        return Invalid(REASON_MISSING);
      }
      var d := Decode(Value(), token);
      if d.Dead? {
        RecordOutcome(now, true, "", true);
        LogEvent(VerifyDenied(None, scope, d.error.reason));
        return Invalid(d.error.reason);
      }
      v := VerifyKnown(now, token, scope, d.claims);
    }

    /** The signature is good: limit, expiry, revocation and scope, in this order. */
    method VerifyKnown(now: Time, token: Token, scope: Scope, c: Claims) returns (v: VerifyResult)
      requires Wired() && circuit.opening.None? && Decode(Value(), token) == Live(c)
      modifies audit, rate, circuit, storage`audit
      ensures Wired() && (Value(), v) == Verify(cfg, old(Value()), now, token, scope)
    {
      var within := CheckRate(now, c.sub, OpVerify);
      if !within {
        return VerifyRaised(RateLimited);
      }
      if c.exp < now {
        v := RefuseToken(now, c, scope, REASON_EXPIRED);
        return;
      }
      var revoked := LookUpRevocation(c);
      if revoked.None? {
        return VerifyRaised(StorageError);
      }
      if revoked.value {
        v := RefuseToken(now, c, scope, REASON_REVOKED);
        return;
      }
      if scope !in c.scopes {
        v := RefuseToken(now, c, scope, REASON_SCOPE);
        return;
      }
      RecordOutcome(now, false, c.sub, false);
      LogEvent(VerifyAllowed(c.jti, scope));
      return VerifyResult.Valid(c);
    }

    method RefuseToken(now: Time, c: Claims, scope: Scope, reason: string) returns (v: VerifyResult)
      requires Wired()
      modifies audit, circuit, storage`audit
      ensures Wired() && (Value(), v) == DenyVerify(cfg, old(Value()), now, c, scope, reason)
    {
      RecordOutcome(now, true, c.sub, true);
      LogEvent(VerifyDenied(Some(c.jti), scope, reason));
      return Invalid(reason);
    }

    // ----------------------------------------------------------------
    // Actions
    // ----------------------------------------------------------------

    method StartAction(now: Time, token: Token, scope: Scope, name: string, rev: Reversibility, id: string)
      returns (o: Outcome)
      requires Valid()
      modifies this, storage, audit, rate, circuit
      ensures Valid() && (Value(), o) == OpenAction(cfg, old(Value()), now, token, scope, name, rev, id)
    {
      OpenActionKeeps(cfg, Value(), now, token, scope, name, rev, id);
      var v := VerifyToken(now, token, scope);
      if v.VerifyRaised? {
        return Raised(v.error);
      }
      if v.Invalid? {
        return Raised(AccessDenied(v.reason));
      }
      o := StartAccepted(now, v.claims, scope, name, rev, id);
    }

    method StartAccepted(now: Time, c: Claims, scope: Scope, name: string, rev: Reversibility, id: string)
      returns (o: Outcome)
      requires Wired()
      modifies this, storage, audit, rate
      ensures Wired() && (Value(), o) == StartVerified(cfg, old(Value()), now, c, scope, name, rev, id)
    {
      var within := CheckRate(now, c.sub, OpAction);
      if !within {
        return Raised(RateLimited);
      }
      var ok := storage.AddAction(Action(id, c.jti, c.sub, name, scope, now, None, None, rev));
      if !ok {
        return Raised(StorageError);
      }
      LogEvent(ActionStarted(id, c.jti, scope, rev));
      return Opened(id);
    }

    method FinishAction(now: Time, id: string, clean: bool)
      requires Valid() && Legal(Value(), CallCloseAction(id, clean))
      modifies this, storage, audit
      ensures Valid() && Value() == CloseAction(old(Value()), now, id, clean)
    {
      CloseActionKeeps(cfg, Value(), now, id, clean);
      var state := if clean then Clean else Partial;
      var jti := storage.actions[id].jti;
      storage.EndAction(id, state, now);
      LogEvent(ActionClosed(id, jti, state));
    }

    // ----------------------------------------------------------------
    // Revocation
    // ----------------------------------------------------------------

    method RevokeCapability(now: Time, j: Jti, ids: seq<string>) returns (o: Outcome)
      requires Valid() && Legal(Value(), CallRevoke(j, ids))
      modifies this, storage, audit
      ensures Valid() && (Value(), o) == Revoke(old(Value()), now, j, ids)
    {
      RevokeKeeps(cfg, Value(), now, j, ids);
      var targets := storage.DescendantsBreadthFirst(j);
      var candidates := storage.ListForReview(targets);
      var _ := storage.RevokeAll(targets, j, now);
      var queued := QueueAll(candidates, ids, now, j);
      LogEvent(RevokedTree(j, targets, |candidates|, IdsOf(queued)));
      return Swept(targets, queued);
    }

    method QueueAll(candidates: seq<Action>, ids: seq<string>, now: Time, root: Jti) returns (queued: seq<Review>)
      requires Wired() && |ids| == |candidates|
      modifies this, storage, audit
      ensures Wired()
      ensures (Value(), queued)
              == QueueReviews(old(Value()), Reviewed(old(storage.Value())), candidates, ids, now, root)
    {
      var already := Reviewed(storage.Value());
      queued := [];
      for i := 0 to |candidates|
        invariant Wired()
        invariant (Value(), queued) == QueueReviews(old(Value()), already, candidates[..i], ids[..i], now, root)
      {
        assert candidates[..i + 1][..i] == candidates[..i] && ids[..i + 1][..i] == ids[..i];
        var a := candidates[i];
        if NeedsReview(already, a) {
          var r := ReviewOf(a, ids[i], now, root);
          storage.WriteReview(r);
          LogEvent(ReviewQueued(r.reviewId, a.actionId, a.jti, r.classification, ReviewPriority(a)));
          queued := queued + [r];
        }
      }
      assert candidates[..|candidates|] == candidates && ids[..|ids|] == ids;
    }

    method Resolve(now: Time, id: string, blankNote: bool, reviewer: string) returns (o: Outcome)
      requires Valid()
      modifies this, storage, audit
      ensures Valid() && (Value(), o) == ResolveReview(old(Value()), now, id, blankNote, reviewer)
    {
      ResolveReviewKeeps(cfg, Value(), now, id, blankNote, reviewer);
      if blankNote {
        return Raised(ValueError);
      }
      if id !in storage.reviews {
        return Raised(UnknownId);
      }
      var existing := storage.reviews[id];
      if existing.reviewed {
        return Raised(ValueError);
      }
      storage.WriteReview(existing.(reviewed := true, reviewedBy := Some(reviewer), reviewedAt := Some(now)));
      LogEvent(ReviewResolved(id, existing.actionId, reviewer));
      return Done;
    }

    // ----------------------------------------------------------------
    // The approval gate
    // ----------------------------------------------------------------

    method DecideApproval(a: Approval, now: Time, status: Status, approver: Option<string>, child: Option<Claims>)
      requires Wired()
      modifies storage`approvals
      ensures Wired() && Value() == Decide(old(Value()), a, now, status, approver, child)
    {
      var token := match child case None => None case Some(c) => Some(Encoded(c));
      var jti := match child case None => None case Some(c) => Some(c.jti);
      storage.WriteApproval(a.(status := status, decidedAt := Some(now), approvedBy := approver,
                               childJti := jti, childToken := token));
    }

    method LoadPendingApproval(now: Time, id: string) returns (problem: Option<Error>)
      requires Wired()
      modifies storage`approvals
      ensures Wired() && (Value(), problem) == LoadPending(old(Value()), now, id)
    {
      if id !in storage.approvals {
        return Some(UnknownId);
      }
      var a := storage.approvals[id];
      if a.status == Pending && a.expiresAt < now {
        DecideApproval(a, now, Expired, None, None);
        return Some(ValueError);
      }
      return if a.status != Pending then Some(ValueError) else None;
    }

    method ApproveRequest(now: Time, id: string, approver: string, jti: Jti) returns (o: Outcome)
      requires Valid() && Legal(Value(), CallApprove(id, approver, jti))
      modifies this, storage, audit
      ensures Valid() && (Value(), o) == Approve(cfg, old(Value()), now, id, approver, jti)
    {
      ApproveKeeps(cfg, Value(), now, id, approver, jti);
      var problem := LoadPendingApproval(now, id);
      if problem.Some? {
        return Raised(problem.value);
      }
      o := ApproveLoaded(now, id, approver, jti);
    }

    /** The approval is pending and in time: check the parent, then mint or turn the request down. */
    method ApproveLoaded(now: Time, id: string, approver: string, jti: Jti) returns (o: Outcome)
      requires Wired() && LoadPending(Value(), now, id).1.None? && jti !in storage.tokens
      modifies this, storage, audit
      ensures Wired() && (Value(), o) == Approve(cfg, old(Value()), now, id, approver, jti)
    {
      var a := storage.approvals[id];
      if a.parentJti !in storage.tokens {
        return Raised(RootChainBroken);
      }
      var revoked := storage.IsRevoked(a.parentJti);
      if revoked.None? {
        return Raised(StorageError);
      }
      if revoked.value {
        DecideApproval(a, now, Denied, Some(approver), None);
        LogEvent(ApprovalRejected(id, a.parentJti, approver));
        return Raised(ParentInvalid(REASON_REVOKED));
      }
      if a.parentExp < now {
        DecideApproval(a, now, Expired, Some(approver), None);
        return Raised(ParentInvalid(REASON_EXPIRED));
      }
      var c := ApprovedChild(cfg, Value(), now, a, approver, jti);
      IssueToken(c, Some(a.parentJti));
      DecideApproval(a, now, Approved, Some(approver), Some(c));
      LogEvent(ApprovalGranted(c.jti, a.parentJti, c.rootJti, c.scopes, c.depth, id, approver));
      return Minted(c);
    }

    method DenyRequest(now: Time, id: string, approver: string) returns (o: Outcome)
      requires Valid()
      modifies this, storage, audit
      ensures Valid() && (Value(), o) == Deny(old(Value()), now, id, approver)
    {
      DenyKeeps(cfg, Value(), now, id, approver);
      var problem := LoadPendingApproval(now, id);
      if problem.Some? {
        return Raised(problem.value);
      }
      var a := storage.approvals[id];
      DecideApproval(a, now, Denied, Some(approver), None);
      LogEvent(ApprovalDenied(id, a.parentJti, a.requested, approver));
      return Done;
    }

    method CollectApproved(id: string) returns (o: Outcome)
      requires Valid()
      ensures o == Collect(Value(), id)
    {
      if id !in storage.approvals {
        return Raised(UnknownId);
      }
      var a := storage.approvals[id];
      if a.status == Approved && a.childToken.Some? {
        var d := Decode(Value(), a.childToken.value);
        return if d.Live? then Minted(d.claims) else Raised(d.error);
      }
      match a.status {
        case Denied => return Raised(AccessDenied("approval_denied"));
        case Expired => return Raised(AccessDenied("approval_expired"));
        case _ => return NotYet;
      }
    }

    method ExpireStaleApprovals(now: Time, listing: seq<string>) returns (count: nat)
      requires Valid() && Legal(Value(), CallExpireStale(listing))
      modifies this, storage, audit
      ensures Valid() && Value() == ExpireStale(old(Value()), now, listing)
      ensures |EventsOf(storage.audit)| == |old(EventsOf(storage.audit))| + count
    {
      ExpireStaleKeeps(cfg, Value(), now, listing);
      count := 0;
      for i := 0 to |listing|
        invariant Wired() && Value() == ExpireStale(old(Value()), now, listing[..i])
        invariant |EventsOf(storage.audit)| == |old(EventsOf(storage.audit))| + count
      {
        assert listing[..i + 1][..i] == listing[..i];
        var id := listing[i];
        if TimedOut(storage.Value(), now, id) {
          var a := storage.approvals[id];
          DecideApproval(a, now, Expired, None, None);
          LogEvent(ApprovalExpired(id, a.parentJti, a.requested));
          count := count + 1;
        }
      }
      assert listing[..|listing|] == listing;
    }

    // ----------------------------------------------------------------
    // Introspection and break glass
    // ----------------------------------------------------------------

    /**
     The lineage of a stored token, rebuilt from parent links: the jtis of its signed chain and then
     its own, at depths 0 to n, each hop with the subject and scopes that the chain entry recorded.
     */
    method Chain(j: Jti) returns (hops: Option<seq<TokenMeta>>)
      requires Valid()
      ensures hops.None? <==> j !in storage.tokens
      ensures hops.Some? ==>
                && |hops.value| == |storage.tokens[j].chain| + 1
                && hops.value[|hops.value| - 1] == storage.tokens[j]
                && (forall i :: 0 <= i < |hops.value| ==> hops.value[i].depth == i)
                && (forall i :: 0 <= i < |hops.value| - 1 ==> EntryFor(storage.tokens[j].chain[i], hops.value[i]))
    {
      if j !in storage.tokens {
        return None;
      }
      var lineage, cursor, seen := [], Some(storage.tokens[j]), {};
      while cursor.Some? && cursor.value.jti !in seen
        invariant Climbed(j, lineage, cursor) && SeenOnly(seen, lineage)
        decreases |storage.tokens[j].chain| + 1 - |lineage|
      {
        var m := cursor.value;
        Climb(j, lineage, m);
        SeenOneMore(seen, lineage, m);
        seen := seen + {m.jti};
        lineage := lineage + [m];
        cursor := if m.parentJti.Some? && m.parentJti.value in storage.tokens
          then Some(storage.tokens[m.parentJti.value]) else None;
      }
      if cursor.Some? {
        NotYetSeen(j, lineage, cursor.value, seen);
      }
      var forward := Reversed(lineage);
      ForwardLineage(j, lineage, forward);
      return Some(forward);
    }

    /** What has been climbed so far: the lineage read from its end, and the next hop up. */
    ghost predicate Climbed(j: Jti, lineage: seq<TokenMeta>, cursor: Option<TokenMeta>)
      requires j in storage.tokens
      reads storage
    {
      var n := |storage.tokens[j].chain|;
      && |lineage| <= n + 1
      && AllOnLineage(j, lineage)
      && (if cursor.Some? then OnLineage(j, n - |lineage|, cursor.value) else |lineage| == n + 1)
    }

    ghost predicate AllOnLineage(j: Jti, lineage: seq<TokenMeta>)
      requires j in storage.tokens
      reads storage
    {
      forall k :: 0 <= k < |lineage| ==> OnLineage(j, |storage.tokens[j].chain| - k, lineage[k])
    }

    lemma OneMoreOnLineage(j: Jti, lineage: seq<TokenMeta>, m: TokenMeta)
      requires j in storage.tokens && AllOnLineage(j, lineage)
      requires OnLineage(j, |storage.tokens[j].chain| - |lineage|, m)
      ensures AllOnLineage(j, lineage + [m])
    {
    }

    lemma Climb(j: Jti, lineage: seq<TokenMeta>, m: TokenMeta)
      requires Forest(storage.tokens, cfg.maxTtl) && j in storage.tokens && Climbed(j, lineage, Some(m))
      ensures var up := if m.parentJti.Some? && m.parentJti.value in storage.tokens
                then Some(storage.tokens[m.parentJti.value]) else None;
              Climbed(j, lineage + [m], up)
    {
      StepUp(j, |storage.tokens[j].chain| - |lineage|, m);
      OneMoreOnLineage(j, lineage, m);
    }

    /** m is the stored token at position i of the lineage of j. */
    ghost predicate OnLineage(j: Jti, i: int, m: TokenMeta)
      requires j in storage.tokens
      reads storage
    {
      var d := storage.tokens[j];
      && 0 <= i <= |d.chain| && m.jti in storage.tokens && storage.tokens[m.jti] == m
      && m.chain == d.chain[..i]
      && (i == |d.chain| ==> m == d)
      && (i < |d.chain| ==> EntryFor(d.chain[i], m))
    }

    lemma StepUp(j: Jti, i: int, m: TokenMeta)
      requires Forest(storage.tokens, cfg.maxTtl) && j in storage.tokens && OnLineage(j, i, m)
      ensures i == 0 <==> m.parentJti.None?
      ensures i > 0 ==> m.parentJti.value in storage.tokens
                        && OnLineage(j, i - 1, storage.tokens[m.parentJti.value])
    {
      assert WellPlaced(storage.tokens, cfg.maxTtl, m.jti);
      if i > 0 {
        var p := m.parentJti.value;
        assert WellPlaced(storage.tokens, cfg.maxTtl, p);
        assert m.chain[..i - 1] == storage.tokens[j].chain[..i - 1];
        assert m.chain[i - 1] == storage.tokens[j].chain[i - 1];
      }
    }

    /** The guard against cycles never fires: positions on a lineage have different chain lengths. */
    lemma NotYetSeen(j: Jti, lineage: seq<TokenMeta>, m: TokenMeta, seen: set<Jti>)
      requires j in storage.tokens && Climbed(j, lineage, Some(m)) && SeenOnly(seen, lineage)
      ensures m.jti !in seen
    {
      forall k | 0 <= k < |lineage|
        ensures lineage[k].jti != m.jti
      {
        assert |lineage[k].chain| == |storage.tokens[j].chain| - k;
      }
    }

    /** Read from the root: what `Chain` promises of the list it returns. */
    lemma ForwardLineage(j: Jti, lineage: seq<TokenMeta>, forward: seq<TokenMeta>)
      requires Forest(storage.tokens, cfg.maxTtl) && j in storage.tokens && Climbed(j, lineage, None)
      requires forward == Reversed(lineage)
      ensures forward[|forward| - 1] == storage.tokens[j]
      ensures forall i :: 0 <= i < |forward| ==> forward[i].depth == i
      ensures forall i :: 0 <= i < |forward| - 1 ==> EntryFor(storage.tokens[j].chain[i], forward[i])
    {
      var n := |storage.tokens[j].chain|;
      forall i | 0 <= i <= n
        ensures OnLineage(j, i, forward[i]) && forward[i].depth == i
      {
        assert OnLineage(j, n - (n - i), lineage[n - i]);
        DepthIsLength(storage.tokens, cfg.maxTtl, forward[i].jti);
      }
    }

    method ResetBreaker()
      requires Valid()
      modifies this, storage, audit, circuit
      ensures Valid() && Value() == ResetCircuit(old(Value()))
    {
      StepKeeps(cfg, Value(), At(0, CallResetCircuit));
      var wasOpen := circuit.opening.Some?;
      circuit.ResetBreaker();
      LogEvent(BreakerReset(wasOpen));
    }

    method CloseStorage()
      requires Valid()
      modifies storage`closed
      ensures Valid() && Value() == Close(old(Value()))
    {
      StepKeeps(cfg, Value(), At(0, CallClose));
      storage.closed := true;
    }

    /** However the firewall was used, its own log verifies. */
    method VerifyAuditIntegrity() returns (report: IntegrityReport)
      requires Valid()
      ensures report.intact && report.rowsChecked == |Value().log|
    {
      report := audit.Verify();
    }
  }

  ghost predicate SeenOnly(seen: set<Jti>, lineage: seq<TokenMeta>) {
    forall x :: x in seen ==> exists k :: 0 <= k < |lineage| && lineage[k].jti == x
  }

  lemma SeenOneMore(seen: set<Jti>, lineage: seq<TokenMeta>, m: TokenMeta)
    requires SeenOnly(seen, lineage)
    ensures SeenOnly(seen + {m.jti}, lineage + [m])
  {
    forall x | x in seen + {m.jti}
      ensures exists k :: 0 <= k < |lineage + [m]| && (lineage + [m])[k].jti == x
    {
      if x in seen {
        var k :| 0 <= k < |lineage| && lineage[k].jti == x;
        assert (lineage + [m])[k].jti == x;
      } else {
        assert (lineage + [m])[|lineage|].jti == x;
      }
    }
  }

  lemma OneMoreRevocation(revoked: map<Jti, Revocation>, targets: seq<Jti>, i: nat, root: Jti, now: Time)
    requires i < |targets|
    ensures var before := AddRevocations(revoked, Elements(targets[..i]), root, now);
            var unseen := Unseen(targets[..i], revoked.Keys);
            && AddRevocations(revoked, Elements(targets[..i + 1]), root, now)
               == (if targets[i] in before then before else before[targets[i] := Revocation(now, root)])
            && Unseen(targets[..i + 1], revoked.Keys)
               == (if targets[i] in before then unseen else unseen + [targets[i]])
  {
    assert targets[..i + 1][..i] == targets[..i];
    assert Elements(targets[..i + 1]) == Elements(targets[..i]) + {targets[i]};
  }

  function Reversed(s: seq<TokenMeta>): (r: seq<TokenMeta>)
    ensures |r| == |s| && forall i :: 0 <= i < |s| ==> r[i] == s[|s| - 1 - i]
  {
    seq(|s|, i requires 0 <= i < |s| => s[|s| - 1 - i])
  }
}
