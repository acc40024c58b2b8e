/**
 Approvals, denials and timeouts of one request when their storage calls interleave.

 Each of them loads the request and writes its decision with a later storage call, and nothing
 serialises the two.  `grants` is the history of which stored token was minted for which request.
 */
module InterleavedApprovals {
  import opened Core
  import opened Tokens
  import opened Lineage
  import opened Records
  import opened Storage
  import opened Authority
  import opened AuthorityInvariant
  import opened Interleaving

  // ------------------------------------------------------------------
  // What always holds of requests, overlapping or not
  // ------------------------------------------------------------------

  /** The part of a request that no decision changes. */
  function Ask(a: Approval): Approval {
    a.(status := Pending, decidedAt := None, approvedBy := None, childJti := None, childToken := None)
  }

  predicate Known(st: Store, a: Approval) {
    a.approvalId in st.approvals && Ask(st.approvals[a.approvalId]) == Ask(a)
  }

  predicate MintedFor(a: Approval, m: TokenMeta) {
    m.scopes == a.requested && m.parentJti == Some(a.parentJti) && m.approvalRequired && m.subjectId == a.childSubject
  }

  predicate Granted(grants: map<Jti, string>, j: Jti, id: string) {
    j in grants && grants[j] == id
  }

  /** A record is approved exactly if it names a child, and then that token was stored for it. */
  predicate RecordOk(st: Store, grants: map<Jti, string>, a: Approval) {
    && (a.status == Approved <==> a.childJti.Some?) && (a.childJti.Some? <==> a.childToken.Some?)
    && (a.childJti.Some? ==>
          && Granted(grants, a.childJti.value, a.approvalId) && a.childJti.value in st.tokens
          && st.tokens[a.childJti.value].approvedBy == a.approvedBy)
  }

  predicate ShapeOk(st: Store, grants: map<Jti, string>, th: Thread) {
    match th
    case Parking(a) => a.status == Pending && a.childJti.None? && a.childToken.None? && a.approvalId !in st.approvals
    case Loaded(a, _) => Known(st, a) && a.status == Pending
    case FoundParent(a, _) => Known(st, a) && a.status == Pending
    case Storing(m, Some(a)) => Known(st, a) && CarriesChild(a, m)
    case Linking(m, Some(a)) =>
      && Known(st, a) && CarriesChild(a, m) && Granted(grants, m.jti, a.approvalId)
      && m.jti in st.tokens && st.tokens[m.jti] == m
    case Writing(a) => Known(st, a) && a.status != Pending && RecordOk(st, grants, a)
    case Collecting(a) => Known(st, a) && a.status == Approved && RecordOk(st, grants, a)
    case _ => true
  }

  predicate CarriesChild(a: Approval, m: TokenMeta) {
    a.status == Approved && a.childJti == Some(m.jti) && a.childToken.Some? && a.approvedBy == m.approvedBy && MintedFor(a, m)
  }

  ghost predicate RecordsOk(st: Store, grants: map<Jti, string>) {
    forall id :: id in st.approvals ==> st.approvals[id].approvalId == id && RecordOk(st, grants, st.approvals[id])
  }

  ghost predicate GrantsOk(st: Store, grants: map<Jti, string>) {
    forall j :: j in grants ==>
      j in st.tokens && grants[j] in st.approvals && MintedFor(st.approvals[grants[j]], st.tokens[j])
  }

  ghost predicate ShapesOk(s: System) {
    forall t :: t in s.threads ==> ShapeOk(s.store, s.grants, s.threads[t])
  }

  ghost predicate DistinctParking(threads: map<nat, Thread>) {
    forall t, u :: (t in threads && u in threads && threads[t].Parking? && threads[u].Parking?
                    && threads[t].approval.approvalId == threads[u].approval.approvalId) ==> t == u
  }

  ghost predicate ApprovalInv(s: System) {
    RecordsOk(s.store, s.grants) && GrantsOk(s.store, s.grants) && ShapesOk(s) && DistinctParking(s.threads)
  }

  // ------------------------------------------------------------------
  // Every step keeps it
  // ------------------------------------------------------------------

  ghost predicate Extends(st: Store, grants: map<Jti, string>, st': Store, grants': map<Jti, string>) {
    && (forall j :: j in st.tokens ==> j in st'.tokens && st'.tokens[j] == st.tokens[j])
    && (forall id :: id in st.approvals ==> id in st'.approvals && Ask(st'.approvals[id]) == Ask(st.approvals[id]))
    && (forall j :: j in grants ==> j in grants' && grants'[j] == grants[j])
  }

  lemma ShapeStays(st: Store, grants: map<Jti, string>, st': Store, grants': map<Jti, string>, th: Thread)
    requires Extends(st, grants, st', grants') && ShapeOk(st, grants, th)
    requires th.Parking? ==> th.approval.approvalId !in st'.approvals
    ensures ShapeOk(st', grants', th)
  {
  }

  lemma GrantsStay(st: Store, grants: map<Jti, string>, st': Store)
    requires GrantsOk(st, grants) && Extends(st, grants, st', grants)
    ensures GrantsOk(st', grants)
  {
    forall j | j in grants
      ensures grants[j] in st'.approvals && MintedFor(st'.approvals[grants[j]], st'.tokens[j])
    {
      SameAskSameMint(st.approvals[grants[j]], st'.approvals[grants[j]], st.tokens[j]);
    }
  }

  lemma SameAskSameMint(a: Approval, b: Approval, m: TokenMeta)
    requires Ask(a) == Ask(b)
    ensures MintedFor(a, m) <==> MintedFor(b, m)
  {
    assert Ask(a).requested == a.requested && Ask(a).parentJti == a.parentJti && Ask(a).childSubject == a.childSubject;
    assert Ask(b).requested == b.requested && Ask(b).parentJti == b.parentJti && Ask(b).childSubject == b.childSubject;
  }

  /** Thread t moves on to th' over a store that has grown. */
  lemma MoveKeepsShapes(s: System, t: nat, s': System)
    requires ApprovalInv(s) && t in s.threads && Extends(s.store, s.grants, s'.store, s'.grants)
    requires t in s'.threads && s'.threads == s.threads[t := s'.threads[t]]
    requires ShapeOk(s'.store, s'.grants, s'.threads[t])
    requires forall u :: u in s.threads && u != t && s.threads[u].Parking?
                         ==> s.threads[u].approval.approvalId !in s'.store.approvals
    ensures ShapesOk(s')
  {
    forall u | u in s'.threads
      ensures ShapeOk(s'.store, s'.grants, s'.threads[u])
    {
      if u != t {
        ShapeStays(s.store, s.grants, s'.store, s'.grants, s.threads[u]);
      }
    }
  }

  lemma ParkedIsNew(s: System)
    requires ShapesOk(s)
    ensures forall u :: u in s.threads && s.threads[u].Parking? ==> s.threads[u].approval.approvalId !in s.store.approvals
  {
    forall u | u in s.threads && s.threads[u].Parking?
      ensures s.threads[u].approval.approvalId !in s.store.approvals
    {
      assert ShapeOk(s.store, s.grants, s.threads[u]);
    }
  }

  lemma NoNewParking(s: System, t: nat, s': System)
    requires DistinctParking(s.threads) && t in s'.threads && s'.threads == s.threads[t := s'.threads[t]]
    requires s'.threads[t].Parking? ==>
               forall u :: u in s.threads && s.threads[u].Parking?
                           ==> s.threads[u].approval.approvalId != s'.threads[t].approval.approvalId
    ensures DistinctParking(s'.threads)
  {
  }

  lemma ApprovedShape(cfg: Config, pm: TokenMeta, a: Approval, approver: string, now: Time, jti: Jti)
    requires pm.jti == a.parentJti
    ensures var th := ApproveMint(cfg, pm, a, approver, now, jti);
            && th.meta.jti == jti && th.after.Some? && Ask(th.after.value) == Ask(a)
            && th.after.value.approvalId == a.approvalId
            && CarriesChild(th.after.value, th.meta)
  {
  }

  lemma FoundParentShape(cfg: Config, st: Store, grants: map<Jti, string>, a: Approval, approver: string, now: Time, uuid: string)
    requires Forest(st.tokens, cfg.maxTtl) && ShapeOk(st, grants, FoundParent(a, approver))
    ensures ShapeOk(st, grants, StorageCall(cfg, st, FoundParent(a, approver), now, uuid).1)
  {
    if a.parentJti in st.tokens {
      assert WellPlaced(st.tokens, cfg.maxTtl, a.parentJti);
      ApprovedShape(cfg, st.tokens[a.parentJti], a, approver, now, uuid);
    }
  }

  lemma LookShape(cfg: Config, s: System, t: nat, now: Time, uuid: string)
    requires Forest(s.store.tokens, cfg.maxTtl) && ShapesOk(s) && FreshIn(s, uuid)
    requires t in s.threads && Looks(s.threads[t])
    ensures var th' := StorageCall(cfg, s.store, s.threads[t], now, uuid).1;
            && ShapeOk(s.store, s.grants, th')
            && (th'.Parking? ==> th'.approval.approvalId == uuid)
  {
    assert ShapeOk(s.store, s.grants, s.threads[t]);
    if s.threads[t].FoundParent? {
      FoundParentShape(cfg, s.store, s.grants, s.threads[t].approval, s.threads[t].approver, now, uuid);
    }
  }

  lemma LookKeepsApprovals(cfg: Config, s: System, t: nat, now: Time, uuid: string)
    requires SystemInv(cfg, s) && ApprovalInv(s) && t in s.threads && Looks(s.threads[t]) && FreshIn(s, uuid)
    ensures ApprovalInv(Do(cfg, s, Advance(t, now, uuid)))
  {
    var s' := Do(cfg, s, Advance(t, now, uuid));
    LookLeavesStore(cfg, s.store, s.threads[t], now, uuid);
    LookShape(cfg, s, t, now, uuid);
    ParkedIsNew(s);
    assert s'.store == s.store && s'.grants == s.grants;
    MoveKeepsShapes(s, t, s');
    NoNewParking(s, t, s');
  }

  lemma WriteExtends(st: Store, grants: map<Jti, string>, a: Approval)
    requires a.approvalId in st.approvals ==> Ask(st.approvals[a.approvalId]) == Ask(a)
    ensures Extends(st, grants, SetApproval(st, a), grants)
  {
  }

  lemma WriteKeepsRecords(st: Store, grants: map<Jti, string>, a: Approval)
    requires RecordsOk(st, grants) && RecordOk(st, grants, a)
    ensures RecordsOk(SetApproval(st, a), grants)
  {
  }

  /** put_approval of a new request, or update_approval of the same request, decided. */
  lemma WriteKeepsApprovals(cfg: Config, s: System, t: nat, now: Time, uuid: string)
    requires ApprovalInv(s) && t in s.threads && WritesRequest(s.threads[t])
    ensures ApprovalInv(Do(cfg, s, Advance(t, now, uuid)))
  {
    var s', a := Do(cfg, s, Advance(t, now, uuid)), s.threads[t].approval;
    assert ShapeOk(s.store, s.grants, s.threads[t]);
    WriteCall(cfg, s, t, now, uuid);
    WriteExtends(s.store, s.grants, a);
    WriteKeepsRecords(s.store, s.grants, a);
    ParkedIsNew(s);
    MoveKeepsShapes(s, t, s');
    NoNewParking(s, t, s');
    GrantsStay(s.store, s.grants, s'.store);
  }

  lemma StoreExtends(cfg: Config, s: System, t: nat, now: Time, uuid: string)
    requires SystemInv(cfg, s) && ApprovalInv(s) && t in s.threads && s.threads[t].Storing?
    ensures var s' := Do(cfg, s, Advance(t, now, uuid));
            && s'.store == PutToken(s.store, s.threads[t].meta)
            && s'.grants == GrantsAfter(s.grants, s.threads[t])
            && s'.threads == s.threads[t := Linking(s.threads[t].meta, s.threads[t].after)]
            && s.threads[t].meta.jti !in s.grants && s.threads[t].meta.jti !in s.store.tokens
            && Extends(s.store, s.grants, s'.store, s'.grants)
  {
    StoreCall(cfg, s, t, now, uuid);
    assert ThreadOk(cfg, s.store, s.threads[t], s.began[t]);
  }

  lemma StoreKeepsApprovals(cfg: Config, s: System, t: nat, now: Time, uuid: string)
    requires SystemInv(cfg, s) && ApprovalInv(s) && t in s.threads && s.threads[t].Storing?
    ensures ApprovalInv(Do(cfg, s, Advance(t, now, uuid)))
  {
    var s', m, after := Do(cfg, s, Advance(t, now, uuid)), s.threads[t].meta, s.threads[t].after;
    StoreExtends(cfg, s, t, now, uuid);
    assert ShapeOk(s.store, s.grants, s.threads[t]);
    ParkedIsNew(s);
    MoveKeepsShapes(s, t, s');
    NoNewParking(s, t, s');
    RecordsExtend(s.store, s.grants, s'.store, s'.grants);
    StoreKeepsGrants(s.store, s.grants, m, after, s'.store, s'.grants);
  }

  lemma RecordsExtend(st: Store, grants: map<Jti, string>, st': Store, grants': map<Jti, string>)
    requires RecordsOk(st, grants) && Extends(st, grants, st', grants') && st'.approvals == st.approvals
    ensures RecordsOk(st', grants')
  {
  }

  lemma StoreKeepsGrants(st: Store, grants: map<Jti, string>, m: TokenMeta, after: Option<Approval>,
                         st': Store, grants': map<Jti, string>)
    requires GrantsOk(st, grants) && st' == PutToken(st, m) && m.jti !in grants && m.jti !in st.tokens
    requires grants' == GrantsAfter(grants, Storing(m, after)) && ShapeOk(st, grants, Storing(m, after))
    ensures GrantsOk(st', grants')
  {
    forall j | j in grants'
      ensures j in st'.tokens && grants'[j] in st'.approvals
      ensures MintedFor(st'.approvals[grants'[j]], st'.tokens[j])
    {
      if j == m.jti {
        SameAskSameMint(after.value, st.approvals[after.value.approvalId], m);
      }
    }
  }

  lemma LinkKeepsApprovals(cfg: Config, s: System, t: nat, now: Time, uuid: string)
    requires ApprovalInv(s) && t in s.threads && (s.threads[t].Linking? || s.threads[t].Walked?)
    ensures ApprovalInv(Do(cfg, s, Advance(t, now, uuid)))
  {
    var s' := Do(cfg, s, Advance(t, now, uuid));
    assert ShapeOk(s.store, s.grants, s.threads[t]);
    assert s'.store.tokens == s.store.tokens && s'.store.approvals == s.store.approvals && s'.grants == s.grants;
    ParkedIsNew(s);
    MoveKeepsShapes(s, t, s');
    NoNewParking(s, t, s');
    GrantsStay(s.store, s.grants, s'.store);
  }

  lemma BeginKeepsApprovals(s: System, t: nat, th: Thread)
    requires ApprovalInv(s) && t !in s.threads && !th.Parking? && ShapeOk(s.store, s.grants, th)
    ensures ApprovalInv(Begin(s, t, th))
  {
    var s' := Begin(s, t, th);
    forall u | u in s'.threads
      ensures ShapeOk(s'.store, s'.grants, s'.threads[u])
    {
      if u != t {
        assert ShapeOk(s.store, s.grants, s.threads[u]);
      }
    }
  }

  lemma RootPutKeepsApprovals(s: System, c: Claims)
    requires ApprovalInv(s) && FreshIn(s, c.jti)
    ensures ApprovalInv(RootPut(s, c))
  {
    var s' := RootPut(s, c);
    ParkedIsNew(s);
    forall u | u in s'.threads
      ensures ShapeOk(s'.store, s'.grants, s'.threads[u])
    {
      ShapeStays(s.store, s.grants, s'.store, s'.grants, s.threads[u]);
    }
    GrantsStay(s.store, s.grants, s'.store);
  }

  lemma AdvanceKeepsApprovals(cfg: Config, s: System, t: nat, now: Time, uuid: string)
    requires SystemInv(cfg, s) && ApprovalInv(s) && t in s.threads && FreshIn(s, uuid)
    ensures ApprovalInv(Do(cfg, s, Advance(t, now, uuid)))
  {
    var th := s.threads[t];
    if Looks(th) {
      LookKeepsApprovals(cfg, s, t, now, uuid);
    } else if WritesRequest(th) {
      WriteKeepsApprovals(cfg, s, t, now, uuid);
    } else if th.Storing? {
      StoreKeepsApprovals(cfg, s, t, now, uuid);
    } else {
      LinkKeepsApprovals(cfg, s, t, now, uuid);
    }
  }

  lemma StartedShape(cfg: Config, s: System, step: Step)
    requires RecordsOk(s.store, s.grants) && Enabled(cfg, s, step) && !step.Advance?
    ensures ShapeOk(s.store, s.grants, Started(s, step)) && !Started(s, step).Parking?
    ensures step.StartRoot? ==> ShapeOk(Base(s, step).store, s.grants, Started(s, step))
  {
  }

  lemma StepKeepsApprovals(cfg: Config, s: System, step: Step)
    requires SystemInv(cfg, s) && ApprovalInv(s) && Enabled(cfg, s, step)
    ensures ApprovalInv(Do(cfg, s, step))
  {
    if step.Advance? {
      AdvanceKeepsApprovals(cfg, s, step.t, step.now, step.uuid);
    } else {
      StartBegins(cfg, s, step);
      StartedShape(cfg, s, step);
      if step.StartRoot? {
        RootPutKeepsApprovals(s, step.c);
      }
      BeginKeepsApprovals(Base(s, step), step.t, Started(s, step));
    }
  }

  lemma {:induction false} RunKeepsApprovals(cfg: Config, s: System, steps: seq<Step>, s': System)
    requires SystemInv(cfg, s) && ApprovalInv(s) && Runs(cfg, s, steps, s')
    ensures SystemInv(cfg, s') && ApprovalInv(s')
    decreases |steps|
  {
    if steps != [] {
      StepKeepsSystem(cfg, s, steps[0]);
      StepKeepsApprovals(cfg, s, steps[0]);
      RunKeepsApprovals(cfg, Do(cfg, s, steps[0]), steps[1..], s');
    }
  }

  lemma ArisesApprovals(cfg: Config, s: System)
    requires Arises(cfg, s)
    ensures SystemInv(cfg, s) && ApprovalInv(s)
  {
    var steps :| Runs(cfg, START, steps, s);
    RunKeepsApprovals(cfg, START, steps, s);
  }
}
