/**
 The machine of single storage calls against the authority: a call that runs alone ends with the store,
 the answer and the rows of the one-step operation.
 */
module InterleavedAlone {
  import opened Core
  import opened Tokens
  import opened Lineage
  import opened Records
  import opened Storage
  import opened Authority
  import opened AuthorityInvariant
  import opened Interleaving
  import Lifetimes = AuthorityLifetimes
  import Theorems = AuthorityTheorems
  import Outcomes = AuthorityOutcomes

  /** A thread, the store it works on, and the rows it has written. */
  datatype Point = Point(store: Store, thread: Thread, rows: seq<Event>)

  function Next(cfg: Config, p: Point, now: Time, uuid: string): Point {
    var (st, th) := StorageCall(cfg, p.store, p.thread, now, uuid);
    Point(st, th, LogAfter(p.rows, p.thread))
  }

  function Iterate<P>(f: P -> P, p: P, n: nat): P {
    if n == 0 then p else f(Iterate(f, p, n - 1))
  }

  function Caller(cfg: Config, now: Time, uuid: string): Point -> Point {
    p => Next(cfg, p, now, uuid)
  }

  /** After n storage calls of the thread, with no other in between. */
  function Calls(cfg: Config, p: Point, now: Time, uuid: string, n: nat): Point {
    Iterate(Caller(cfg, now, uuid), p, n)
  }

  lemma {:induction false} IterateThen<P>(f: P -> P, p: P, n: nat, m: nat)
    ensures Iterate(f, p, n + m) == Iterate(f, Iterate(f, p, n), m)
    decreases m
  {
    if m > 0 {
      IterateThen(f, p, n, m - 1);
    }
  }

  lemma CallsThen(cfg: Config, p: Point, now: Time, uuid: string, n: nat, m: nat)
    ensures Calls(cfg, p, now, uuid, n + m) == Calls(cfg, Calls(cfg, p, now, uuid, n), now, uuid, m)
  {
    IterateThen(Caller(cfg, now, uuid), p, n, m);
  }

  lemma OneCall(cfg: Config, p: Point, now: Time, uuid: string)
    ensures Calls(cfg, p, now, uuid, 1) == Next(cfg, p, now, uuid)
  {
  }

  // ------------------------------------------------------------------
  // The lookups
  // ------------------------------------------------------------------

  predicate RevokedFrom(st: Store, c: Claims, i: nat) {
    exists k :: i <= k < |Path(c)| && Path(c)[k] in st.revoked
  }

  lemma PathIsTokenAndAncestors(st: Store, c: Claims)
    ensures RevokedFrom(st, c, 0) <==> AnyRevoked(st, c)
  {
    if c.jti in st.revoked {
      assert Path(c)[0] in st.revoked;
    }
    if a :| a in c.chain && a.jti in st.revoked {
      var i :| 0 <= i < |c.chain| && c.chain[i] == a;
      assert Path(c)[i + 1] in st.revoked;
    }
    if RevokedFrom(st, c, 0) {
      var k :| 0 <= k < |Path(c)| && Path(c)[k] in st.revoked;
      assert k > 0 ==> Path(c)[k] == c.chain[k - 1].jti;
    }
  }

  lemma {:induction false} CheckAlone(cfg: Config, st: Store, c: Claims, scope: Scope, i: nat, now: Time, uuid: string)
    returns (n: nat, verdict: Verdict)
    requires i <= |Path(c)|
    ensures Calls(cfg, Point(st, Verifying(c, scope, i), []), now, uuid, n) == Point(st, Verified(c, scope, verdict), [])
    ensures verdict.FoundRevoked? <==> RevokedFrom(st, c, i)
    ensures !RevokedFrom(st, c, i) ==> verdict == if scope in c.scopes then Accepted else ScopeMissing
    decreases |Path(c)| - i
  {
    var p := Point(st, Verifying(c, scope, i), []);
    CheckOne(cfg, st, c, scope, i, now, uuid);
    if i < |Path(c)| && Path(c)[i] !in st.revoked {
      var m;
      m, verdict := CheckAlone(cfg, st, c, scope, i + 1, now, uuid);
      CallsThen(cfg, p, now, uuid, 1, m);
      n := 1 + m;
      RevokedLater(st, c, i);
    } else {
      n := 1;
      verdict := if i < |Path(c)| then FoundRevoked(Path(c)[i]) else if scope in c.scopes then Accepted else ScopeMissing;
    }
  }

  lemma CheckOne(cfg: Config, st: Store, c: Claims, scope: Scope, i: nat, now: Time, uuid: string)
    requires i <= |Path(c)|
    ensures Calls(cfg, Point(st, Verifying(c, scope, i), []), now, uuid, 1)
            == Point(st, if i == |Path(c)| then Verified(c, scope, if scope in c.scopes then Accepted else ScopeMissing)
                         else if Path(c)[i] in st.revoked then Verified(c, scope, FoundRevoked(Path(c)[i]))
                         else Verifying(c, scope, i + 1), [])
  {
    OneCall(cfg, Point(st, Verifying(c, scope, i), []), now, uuid);
  }

  /** A check alone accepts, or refuses for the reason, that the operation does. */
  lemma VerifyAlone(cfg: Config, s: State, now: Time, c: Claims, scope: Scope, uuid: string)
    returns (n: nat, verdict: Verdict)
    requires s.breaker.opening.None? && !s.store.closed && c in s.signed && now <= c.exp
    requires RateCheck(cfg, s, now, c.sub, OpVerify).1
    ensures Calls(cfg, Point(s.store, Verifying(c, scope, 0), []), now, uuid, n)
            == Point(Verify(cfg, s, now, Encoded(c), scope).0.store, Verified(c, scope, verdict), [])
    ensures Verify(cfg, s, now, Encoded(c), scope).1
            == match verdict
               case Accepted => VerifyResult.Valid(c)
               case FoundRevoked(_) => Invalid("revoked")
               case ScopeMissing => Invalid("scope_not_granted")
  {
    n, verdict := CheckAlone(cfg, s.store, c, scope, 0, now, uuid);
    PathIsTokenAndAncestors(s.store, c);
    VerifyAnswers(cfg, s, now, c, scope);
  }

  lemma VerifyAnswers(cfg: Config, s: State, now: Time, c: Claims, scope: Scope)
    requires s.breaker.opening.None? && !s.store.closed && c in s.signed && now <= c.exp
    requires RateCheck(cfg, s, now, c.sub, OpVerify).1
    ensures var (s', v) := Verify(cfg, s, now, Encoded(c), scope);
            && s'.store == s.store
            && v == if AnyRevoked(s.store, c) then Invalid("revoked")
                    else if scope in c.scopes then VerifyResult.Valid(c) else Invalid("scope_not_granted")
  {
  }

  // ------------------------------------------------------------------
  // Minting
  // ------------------------------------------------------------------

  lemma {:induction false} LookUpsAlone(cfg: Config, st: Store, c: Claims, r: Request, i: nat, now: Time, uuid: string)
    returns (n: nat)
    requires i <= |Path(c)|
    ensures Calls(cfg, Point(st, Checking(c, r, i), []), now, uuid, n)
            == Point(st, if RevokedFrom(st, c, i) then Finished else FindingRoot(c, r), [])
    decreases |Path(c)| - i
  {
    var p := Point(st, Checking(c, r, i), []);
    LookUpOne(cfg, st, c, r, i, now, uuid);
    if i < |Path(c)| && Path(c)[i] !in st.revoked {
      var m := LookUpsAlone(cfg, st, c, r, i + 1, now, uuid);
      CallsThen(cfg, p, now, uuid, 1, m);
      n := 1 + m;
      RevokedLater(st, c, i);
    } else {
      n := 1;
    }
  }

  lemma RevokedLater(st: Store, c: Claims, i: nat)
    requires i < |Path(c)| && Path(c)[i] !in st.revoked
    ensures RevokedFrom(st, c, i) <==> RevokedFrom(st, c, i + 1)
  {
  }

  lemma LookUpOne(cfg: Config, st: Store, c: Claims, r: Request, i: nat, now: Time, uuid: string)
    requires i <= |Path(c)|
    ensures Calls(cfg, Point(st, Checking(c, r, i), []), now, uuid, 1)
            == Point(st, if i == |Path(c)| then FindingRoot(c, r)
                         else if Path(c)[i] in st.revoked then Finished else Checking(c, r, i + 1), [])
  {
    OneCall(cfg, Point(st, Checking(c, r, i), []), now, uuid);
  }

  /** The two calls that store a child, and the one that writes its row. */
  lemma StoreAlone(cfg: Config, st: Store, m: TokenMeta, p: Jti, now: Time, uuid: string)
    requires m.parentJti == Some(p)
    ensures Calls(cfg, Point(st, Storing(m, None), []), now, uuid, 3)
            == Point(LinkTokens(PutToken(st, m), p, m.jti), Finished,
                     [Delegated(m.jti, p, m.rootJti, m.scopes, m.depth, m.expiresAt)])
  {
    var p0 := Point(st, Storing(m, None), []);
    OneCall(cfg, p0, now, uuid);
    assert Calls(cfg, p0, now, uuid, 2).thread == Logging(ChildRow(m));
  }

  /** The rest of a delegate call once the token and its ancestors are looked up. */
  lemma GrantAlone(cfg: Config, st: Store, c: Claims, r: Request, now: Time) returns (n: nat)
    requires r.freshApproval == r.freshJti
    requires c.rootJti in st.tokens && st.tokens[c.rootJti].depth == 0 && now <= st.tokens[c.rootJti].expiresAt
    requires c.rootJti !in st.revoked
    ensures Calls(cfg, Point(st, FindingRoot(c, r), []), now, r.freshJti, n)
            == if !(r.scopes <= c.scopes) || c.depth + 1 > c.maxDepth then Point(st, Finished, [])
               else if r.scopes * cfg.sensitive != {} then
                 Point(SetApproval(st, ParkedApproval(cfg, now, c, r)), Finished, [])
               else
                 var child := GrantedChild(cfg, now, c, r);
                 Point(LinkTokens(PutToken(st, MetaOf(child, Some(c.jti))), c.jti, child.jti), Finished,
                       [Delegated(child.jti, c.jti, child.rootJti, child.scopes, child.depth, child.exp)])
  {
    var p0 := Point(st, FindingRoot(c, r), []);
    OneCall(cfg, p0, now, r.freshJti);
    assert Calls(cfg, p0, now, r.freshJti, 1) == Point(st, CheckingRoot(c, r), []);
    var p2 := Calls(cfg, p0, now, r.freshJti, 2);
    assert r.(freshJti := r.freshJti) == r && r.(freshApproval := r.freshJti) == r;
    if !(r.scopes <= c.scopes) || c.depth + 1 > c.maxDepth {
      n := 2;
    } else if r.scopes * cfg.sensitive != {} {
      n := 3;
      assert p2 == Point(st, Parking(ParkedApproval(cfg, now, c, r)), []);
    } else {
      n := 5;
      var m := MetaOf(GrantedChild(cfg, now, c, r), Some(c.jti));
      assert p2 == Point(st, Storing(m, None), []);
      StoreAlone(cfg, st, m, c.jti, now, r.freshJti);
      CallsThen(cfg, p0, now, r.freshJti, 2, 3);
    }
  }

  lemma GrantStores(cfg: Config, s: State, now: Time, c: Claims, r: Request)
    requires r.freshJti !in s.store.tokens
    ensures var (s', o) := Grant(cfg, s, now, c, r);
            if !(r.scopes <= c.scopes) || c.depth + 1 > c.maxDepth then o.Raised? && s'.store == s.store
            else if r.scopes * cfg.sensitive != {} then
              o.ParkedAs? && s'.store == SetApproval(s.store, ParkedApproval(cfg, now, c, r))
            else
              var child := GrantedChild(cfg, now, c, r);
              o == Minted(child) && s'.store == LinkTokens(PutToken(s.store, MetaOf(child, Some(c.jti))), c.jti, child.jti)
  {
    EmptyDifference(r.scopes, c.scopes);
  }

  lemma DelegateReaches(cfg: Config, s: State, now: Time, c: Claims, r: Request, s1: State)
    requires s.breaker.opening.None? && r.scopes != {} && !s.store.closed
    requires r.token == Encoded(c) && c in s.signed && now <= c.exp
    requires RateCheck(cfg, s, now, c.sub, OpDelegate) == (s1, true)
    ensures if AnyRevoked(s.store, c) then Delegate(cfg, s, now, r) == (s, Raised(ParentInvalid(REASON_REVOKED)))
            else RootAlive(s, now, c) ==> Delegate(cfg, s, now, r) == Grant(cfg, s1, now, c, r)
    ensures s1.store == s.store
  {
  }

  /**
   A delegate call alone leaves the store of the operation, and writes the row of what it mints.  The
   machine takes the fresh uuid for whatever it needs a name for.
   */
  lemma DelegateAlone(cfg: Config, s: State, now: Time, c: Claims, r: Request) returns (n: nat)
    requires ValidConfig(cfg) && ReachableState(cfg, s) && Legal(s, CallDelegate(r)) && r.freshApproval == r.freshJti
    requires s.breaker.opening.None? && r.scopes != {} && !s.store.closed
    requires r.token == Encoded(c) && c in s.signed && now <= c.exp && RateCheck(cfg, s, now, c.sub, OpDelegate).1
    ensures var (s', o) := Delegate(cfg, s, now, r);
            Calls(cfg, Point(s.store, Checking(c, r, 0), []), now, r.freshJti, n)
            == Point(s'.store, Finished,
                     match o
                     case Minted(child) => [Delegated(child.jti, c.jti, child.rootJti, child.scopes, child.depth, child.exp)]
                     case _ => [])
  {
    var s1 := RateCheck(cfg, s, now, c.sub, OpDelegate).0;
    n := LookUpsAlone(cfg, s.store, c, r, 0, now, r.freshJti);
    PathIsTokenAndAncestors(s.store, c);
    DelegateReaches(cfg, s, now, c, r, s1);
    if !AnyRevoked(s.store, c) {
      Theorems.LiveImpliesRootAlive(cfg, s, now, r.token);
      n := ClearDelegateAlone(cfg, s1, now, c, r);
    }
  }

  lemma ClearDelegateAlone(cfg: Config, s: State, now: Time, c: Claims, r: Request) returns (n: nat)
    requires !RevokedFrom(s.store, c, 0)
    requires RootAlive(s, now, c) && r.freshJti !in s.store.tokens && r.freshApproval == r.freshJti
    ensures var (s', o) := Grant(cfg, s, now, c, r);
            Calls(cfg, Point(s.store, Checking(c, r, 0), []), now, r.freshJti, n)
            == Point(s'.store, Finished,
                     match o
                     case Minted(child) => [Delegated(child.jti, c.jti, child.rootJti, child.scopes, child.depth, child.exp)]
                     case _ => [])
  {
    n := LookUpsAlone(cfg, s.store, c, r, 0, now, r.freshJti);
    var m := RootCheckAlone(cfg, s, now, c, r);
    CallsThen(cfg, Point(s.store, Checking(c, r, 0), []), now, r.freshJti, n, m);
    n := n + m;
  }

  /** From the root lookups on, in any state: the separate root check and then the grant of the operation. */
  lemma RootCheckAlone(cfg: Config, s: State, now: Time, c: Claims, r: Request) returns (n: nat)
    requires r.freshJti !in s.store.tokens && r.freshApproval == r.freshJti
    ensures var (s', o) := Grant(cfg, s, now, c, r);
            Calls(cfg, Point(s.store, FindingRoot(c, r), []), now, r.freshJti, n)
            == if !RootAlive(s, now, c) then Point(s.store, Finished, [])
               else Point(s'.store, Finished,
                          match o
                          case Minted(child) => [Delegated(child.jti, c.jti, child.rootJti, child.scopes, child.depth, child.exp)]
                          case _ => [])
  {
    if RootAlive(s, now, c) {
      n := GrantAlone(cfg, s.store, c, r, now);
      GrantStores(cfg, s, now, c, r);
    } else {
      n := 2;
      DeadRootAlone(cfg, s, now, c, r);
    }
  }

  lemma DeadRootAlone(cfg: Config, s: State, now: Time, c: Claims, r: Request)
    requires !RootAlive(s, now, c)
    ensures Calls(cfg, Point(s.store, FindingRoot(c, r), []), now, r.freshJti, 2) == Point(s.store, Finished, [])
  {
    OneCall(cfg, Point(s.store, FindingRoot(c, r), []), now, r.freshJti);
  }

  // ------------------------------------------------------------------
  // Approvals
  // ------------------------------------------------------------------

  /** Storing an approved child, its edge and its decision, and writing its row. */
  lemma StoreApprovedAlone(cfg: Config, st: Store, m: TokenMeta, p: Jti, a: Approval, approver: string, now: Time, uuid: string)
    requires m.parentJti == Some(p) == Some(a.parentJti) && a.childJti == Some(m.jti) && a.approvedBy == Some(approver)
    ensures Calls(cfg, Point(st, Storing(m, Some(a)), []), now, uuid, 4)
            == Point(SetApproval(LinkTokens(PutToken(st, m), p, m.jti), a), Finished,
                     [ApprovalGranted(m.jti, p, m.rootJti, m.scopes, m.depth, a.approvalId, approver)])
  {
    var p0 := Point(st, Storing(m, Some(a)), []);
    OneCall(cfg, p0, now, uuid);
    var linked := LinkTokens(PutToken(st, m), p, m.jti);
    assert Calls(cfg, p0, now, uuid, 2) == Point(linked, Writing(a), []);
    assert Calls(cfg, p0, now, uuid, 3) == Point(SetApproval(linked, a), Logging(GrantRow(m, a)), []);
  }

  lemma ApproveStores(cfg: Config, s: State, now: Time, id: string, approver: string, jti: Jti, a: Approval)
    requires !s.store.closed && id in s.store.approvals && a == s.store.approvals[id]
    requires a.status == Pending && now <= a.expiresAt && a.parentJti in s.store.tokens && jti !in s.store.tokens
    ensures var (s', o) := Approve(cfg, s, now, id, approver, jti);
            if a.parentJti in s.store.revoked then
              o.Raised? && s'.store == SetApproval(s.store, Closed(a, now, Denied, Some(approver)))
            else if a.parentExp < now then
              o.Raised? && s'.store == SetApproval(s.store, Closed(a, now, Expired, Some(approver)))
            else
              var c := ApprovedChild(cfg, s, now, a, approver, jti);
              && o == Minted(c)
              && s'.store == SetApproval(LinkTokens(PutToken(s.store, MetaOf(c, Some(a.parentJti))), a.parentJti, jti),
                                         ApprovedRecord(a, now, approver, c))
  {
  }

  /** An approve call alone leaves the store of the operation, and writes the row of what it mints. */
  lemma ApproveAlone(cfg: Config, s: State, now: Time, id: string, approver: string, jti: Jti) returns (n: nat)
    requires ValidConfig(cfg) && ReachableState(cfg, s) && FreshJti(s, jti) && !s.store.closed
    requires id in s.store.approvals && s.store.approvals[id].status == Pending && now <= s.store.approvals[id].expiresAt
    ensures var (s', o) := Approve(cfg, s, now, id, approver, jti); var a := s.store.approvals[id];
            Calls(cfg, Point(s.store, Loaded(a, approver), []), now, jti, n)
            == Point(s'.store, Finished,
                     match o
                     case Minted(c) => [ApprovalGranted(c.jti, a.parentJti, c.rootJti, c.scopes, c.depth, id, approver)]
                     case _ => [])
  {
    Lifetimes.ParentOwnJti(cfg, s, id);
    OwnId(cfg, s, id);
    n := PendingAlone(cfg, s, now, id, approver, jti, s.store.approvals[id]);
  }

  lemma PendingAlone(cfg: Config, s: State, now: Time, id: string, approver: string, jti: Jti, a: Approval) returns (n: nat)
    requires !s.store.closed && id in s.store.approvals && a == s.store.approvals[id] && a.approvalId == id
    requires a.status == Pending && now <= a.expiresAt && jti !in s.store.tokens
    requires a.parentJti in s.store.tokens && s.store.tokens[a.parentJti].jti == a.parentJti
    ensures var (s', o) := Approve(cfg, s, now, id, approver, jti);
            Calls(cfg, Point(s.store, Loaded(a, approver), []), now, jti, n)
            == Point(s'.store, Finished,
                     match o
                     case Minted(c) => [ApprovalGranted(c.jti, a.parentJti, c.rootJti, c.scopes, c.depth, id, approver)]
                     case _ => [])
  {
    var st := s.store;
    ApproveStores(cfg, s, now, id, approver, jti, a);
    var p0 := Point(st, Loaded(a, approver), []);
    OneCall(cfg, p0, now, jti);
    assert Calls(cfg, p0, now, jti, 1) == Point(st, FoundParent(a, approver), []);
    var p2 := Calls(cfg, p0, now, jti, 2);
    if a.parentJti in st.revoked || a.parentExp < now {
      n := 3;
      var status := if a.parentJti in st.revoked then Denied else Expired;
      assert p2 == Point(st, Writing(Closed(a, now, status, Some(approver))), []);
    } else {
      n := 6;
      var c := ApprovedChild(cfg, s, now, a, approver, jti);
      assert p2 == Point(st, Storing(MetaOf(c, Some(a.parentJti)), Some(ApprovedRecord(a, now, approver, c))), []);
      StoreApprovedAlone(cfg, st, MetaOf(c, Some(a.parentJti)), a.parentJti, ApprovedRecord(a, now, approver, c),
                         approver, now, jti);
      CallsThen(cfg, p0, now, jti, 2, 4);
    }
  }

  lemma OwnId(cfg: Config, s: State, id: string)
    requires ValidConfig(cfg) && ReachableState(cfg, s) && id in s.store.approvals
    ensures s.store.approvals[id].approvalId == id
  {
    Outcomes.ReachableOwnIds(cfg, s);
  }

  /** A denial alone, and a timeout found by one, leave the store of the operation. */
  lemma DenyAlone(cfg: Config, s: State, now: Time, id: string, approver: string, uuid: string)
    requires id in s.store.approvals && s.store.approvals[id].status == Pending
    ensures var a := s.store.approvals[id];
            var refusal := if now <= a.expiresAt then ByHuman(approver) else ByTimeout;
            Calls(cfg, Point(s.store, Writing(Refused(a, now, refusal)), []), now, uuid, 1)
            == Point(Deny(s, now, id, approver).0.store, Finished, [])
  {
    var a := s.store.approvals[id];
    var refusal := if now <= a.expiresAt then ByHuman(approver) else ByTimeout;
    OneCall(cfg, Point(s.store, Writing(Refused(a, now, refusal)), []), now, uuid);
  }

  // ------------------------------------------------------------------
  // Revocation
  // ------------------------------------------------------------------

  /** A revoke alone records what the operation records, and writes a row for the same targets. */
  lemma RevokeAlone(cfg: Config, s: State, now: Time, j: Jti, ids: seq<string>, uuid: string)
    requires |ids| == |Candidates(s.store, j)|
    ensures var (s', o) := Revoke(s, now, j, ids);
            var p := Calls(cfg, Point(s.store, Walked(j, DescendantsOf(s.store, j)), []), now, uuid, 2);
            && p.thread == Finished && p.store == s'.store.(reviews := s.store.reviews)
            && |p.rows| == 1 && p.rows[0].RevokedTree? && p.rows[0].jti == j && p.rows[0].targets == o.targets
  {
    var targets := DescendantsOf(s.store, j);
    RecordAlone(cfg, s.store, j, targets, now, uuid);
    RevokeRecords(s, now, j, ids);
  }

  lemma RecordAlone(cfg: Config, st: Store, j: Jti, targets: seq<Jti>, now: Time, uuid: string)
    ensures Calls(cfg, Point(st, Walked(j, targets), []), now, uuid, 2)
            == Point(RevokeMany(st, targets, j, now), Finished, [RevokedTree(j, targets, 0, [])])
  {
    OneCall(cfg, Point(st, Walked(j, targets), []), now, uuid);
  }

  lemma {:induction false} QueueLeavesRevoked(s: State, already: set<string>, candidates: seq<Action>, ids: seq<string>,
                                              now: Time, root: Jti)
    requires |ids| == |candidates|
    ensures var s' := QueueReviews(s, already, candidates, ids, now, root).0;
            s'.store == s.store.(reviews := s'.store.reviews)
    decreases |ids|
  {
    if candidates != [] {
      var n := |candidates| - 1;
      QueueLeavesRevoked(s, already, candidates[..n], ids[..n], now, root);
    }
  }

  lemma RevokeRecords(s: State, now: Time, j: Jti, ids: seq<string>)
    requires |ids| == |Candidates(s.store, j)|
    ensures var (s', o) := Revoke(s, now, j, ids); var targets := DescendantsOf(s.store, j);
            && s'.store == RevokeMany(s.store, targets, j, now).(reviews := s'.store.reviews)
            && o.Swept? && o.targets == targets
  {
    QueueLeavesRevoked(s.(store := RevokeMany(s.store, DescendantsOf(s.store, j), j, now)), Reviewed(s.store),
                       Candidates(s.store, j), ids, now, j);
  }
}
