/**
 Runs from the empty store in which overlapping calls break a promise about a request, and end with
 nobody left in flight who could mend it.
 */
module InterleavedExamples {
  import opened Core
  import opened Tokens
  import opened Lineage
  import opened Records
  import opened Storage
  import opened Authority
  import opened AuthorityInvariant
  import opened Interleaving
  import opened InterleavedApprovals
  import opened InterleavedDecisions
  import opened InterleavedFinality
  import InterleavedRevocation

  // ------------------------------------------------------------------
  // A pending request arises
  // ------------------------------------------------------------------

  /** Nobody but finished calls and calls on other requests. */
  ghost predicate Untouched(s: System, id: string) {
    NobodyDecides(s, id) && forall u :: u in s.threads ==> !Collects(s.threads[u], id)
  }

  /** From the empty store: mint a root, delegate a sensitive scope, and park the request. */
  lemma PendingArises(cfg: Config, scope: Scope) returns (s: System, id: string)
    requires ValidConfig(cfg) && scope in cfg.sensitive && 0 <= cfg.approvalTimeout
    ensures Arises(cfg, s) && PendingInTime(s, id, 0) && s.store.revoked == map[] && Untouched(s, id)
    ensures forall t :: t in s.threads ==> t < 3
  {
    var c := MintRoot(cfg.issuer, "root", "human", {scope}, cfg.maxTtl, 1, 0);
    var r := Request(Encoded(c), "agent", "agent", {scope}, 0, false, "", "");
    var s1 := InterleavedRevocation.DelegateOnRoot(cfg, c, r);
    ArisesInv(cfg, s1);
    id := UnusedIn(s1);
    assert scope in r.scopes * cfg.sensitive;
    var s3 := ReachParking(cfg, s1, c, r, id);
    LeadsThen(cfg, START, s1, s3);
    s := Parks(cfg, s3, id);
  }

  lemma ReachParking(cfg: Config, s1: System, c: Claims, r: Request, uuid: string) returns (s3: System)
    requires SystemInv(cfg, s1) && FreshIn(s1, uuid) && 0 in s1.threads && s1.threads[0] == Checking(c, r, 0)
    requires s1.store.revoked == map[] && c.depth + 1 <= c.maxDepth
    requires r.scopes <= c.scopes && r.scopes * cfg.sensitive != {}
    ensures Leads(cfg, s1, s3) && InterleavedRevocation.OnlyMoved(s1, s3, 0)
    ensures s3.threads[0] == Parking(ParkedApproval(cfg, 0, c, r.(freshApproval := uuid)))
  {
    var s2 := ReachRootCheck(cfg, s1, c, r, uuid);
    s3 := InterleavedRevocation.StepMoved(cfg, s1, s2, 0, 0, uuid);
  }

  lemma ReachRootCheck(cfg: Config, s1: System, c: Claims, r: Request, uuid: string) returns (s2: System)
    requires SystemInv(cfg, s1) && FreshIn(s1, uuid) && 0 in s1.threads && s1.threads[0] == Checking(c, r, 0)
    requires s1.store.revoked == map[]
    ensures Leads(cfg, s1, s2) && InterleavedRevocation.OnlyMoved(s1, s2, 0) && s2.threads[0] == CheckingRoot(c, r)
  {
    LeadsNowhere(cfg, s1);
    assert ThreadOk(cfg, s1.store, s1.threads[0], s1.began[0]);
    s2 := InterleavedRevocation.LookupsPass(cfg, s1, s1, 0, c, r, 0, uuid);
    s2 := InterleavedRevocation.RootPasses(cfg, s1, s2, 0, c, r, uuid);
  }

  lemma Parks(cfg: Config, s: System, id: string) returns (s': System)
    requires Arises(cfg, s) && 0 in s.threads && s.threads[0].Parking? && s.threads[0].approval.approvalId == id
    requires s.threads[0].approval.status == Pending && 0 <= s.threads[0].approval.expiresAt
    ensures Arises(cfg, s') && PendingInTime(s', id, 0) && s'.store.revoked == s.store.revoked && Untouched(s', id)
    ensures s'.threads.Keys == s.threads.Keys
  {
    ParkedIsUntouched(cfg, s, 0);
    var uuid := UnusedIn(s);
    WriteCall(cfg, s, 0, 0, uuid);
    LeadsOneMore(cfg, START, s, Advance(0, 0, uuid));
    s' := Do(cfg, s, Advance(0, 0, uuid));
  }

  lemma ParkedIsUntouched(cfg: Config, s: System, t: nat)
    requires Arises(cfg, s) && t in s.threads && s.threads[t].Parking?
    ensures Untouched(s, s.threads[t].approval.approvalId)
  {
    ArisesApprovals(cfg, s);
    assert ShapeOk(s.store, s.grants, s.threads[t]);
    UnknownIsUntouched(s, s.threads[t].approval.approvalId);
    UnknownIsUncollected(s, s.threads[t].approval.approvalId);
  }

  // ------------------------------------------------------------------
  // Approved, then denied
  // ------------------------------------------------------------------

  /** put_token and add_edge of an approve. */
  lemma StoreAndLink(cfg: Config, s: System, t: nat, m: TokenMeta, a: Approval) returns (s': System)
    requires t in s.threads && s.threads[t] == Storing(m, Some(a))
    ensures Leads(cfg, s, s') && s'.threads == s.threads[t := Writing(a)]
    ensures s'.grants == s.grants[m.jti := a.approvalId] && s'.store.approvals == s.store.approvals
  {
    var mid := StepOn(cfg, s, t);
    s' := StepOn(cfg, mid, t);
    LeadsThen(cfg, s, mid, s');
  }

  /** And its update_approval. */
  lemma ApproveLands(cfg: Config, s: System, t: nat, m: TokenMeta, a: Approval) returns (s': System)
    requires t in s.threads && s.threads[t] == Storing(m, Some(a)) && a.status == Approved
    ensures Leads(cfg, s, s') && HasStatus(s', a.approvalId, Approved) && Granted(s'.grants, m.jti, a.approvalId)
    ensures t in s'.threads && s'.threads == s.threads[t := s'.threads[t]]
    ensures s'.threads[t].Logging? || s'.threads[t].Finished?
  {
    var mid := StoreAndLink(cfg, s, t, m, a);
    s' := StepOn(cfg, mid, t);
    LeadsThen(cfg, s, mid, s');
  }

  lemma StoringShape(s: System, t: nat)
    requires ApprovalInv(s) && t in s.threads && s.threads[t].Storing? && s.threads[t].after.Some?
    ensures s.threads[t].after.value.status == Approved
  {
    assert ShapeOk(s.store, s.grants, s.threads[t]);
  }

  lemma ApproveForms(cfg: Config, s: System, t: nat, id: string, now: Time) returns (s': System)
    requires Arises(cfg, s) && t in s.threads && s.threads[t].Loaded?
    requires s.threads[t].approval.approvalId == id && now <= s.threads[t].approval.parentExp
    requires s.threads[t].approval.parentJti !in s.store.revoked
    ensures Leads(cfg, s, s') && t in s'.threads && s'.threads == s.threads[t := s'.threads[t]]
    ensures s'.threads[t].Storing? && s'.threads[t].after.Some?
    ensures s'.threads[t].after.value.approvalId == id && s'.threads[t].after.value.status == Approved
  {
    ArisesApprovals(cfg, s);
    s' := DecisionForms(cfg, s, t, now);
    LeadsApprovals(cfg, s, s');
    StoringShape(s', t);
  }

  /** An approve of a pending request, from its load to its last write. */
  lemma ApproveIsWritten(cfg: Config, s: System, t: nat, id: string, now: Time) returns (s': System)
    requires Arises(cfg, s) && t in s.threads && s.threads[t].Loaded?
    requires s.threads[t].approval.approvalId == id && now <= s.threads[t].approval.parentExp
    requires s.threads[t].approval.parentJti !in s.store.revoked
    ensures Leads(cfg, s, s') && HasStatus(s', id, Approved) && !Ungranted(s', id)
    ensures t in s'.threads && s'.threads == s.threads[t := s'.threads[t]]
    ensures s'.threads[t].Logging? || s'.threads[t].Finished?
  {
    var mid := ApproveForms(cfg, s, t, id, now);
    s' := ApproveLands(cfg, mid, t, mid.threads[t].meta, mid.threads[t].after.value);
    LeadsThen(cfg, s, mid, s');
  }

  lemma BothStart(cfg: Config, s: System, id: string, now: Time, approver: string, denier: string, t: nat, u: nat)
    returns (s2: System)
    requires PendingInTime(s, id, now) && t != u && t !in s.threads && u !in s.threads
    ensures Leads(cfg, s, s2) && s2.store == s.store && s2.grants == s.grants
    ensures var a := s.store.approvals[id];
            s2.threads == s.threads[t := Loaded(a, approver)][u := Writing(Refused(a, now, ByHuman(denier)))]
  {
    var s1 := Do(cfg, s, StartApprove(t, id, now, approver));
    LeadsOneStep(cfg, s, StartApprove(t, id, now, approver));
    s2 := Do(cfg, s1, StartRefuse(u, id, now, ByHuman(denier)));
    LeadsOneMore(cfg, s, s1, StartRefuse(u, id, now, ByHuman(denier)));
  }

  /** A deny lands on an approved request and leaves nobody in flight. */
  lemma DenyLands(cfg: Config, s: System, u: nat, a: Approval, id: string) returns (s': System)
    requires u in s.threads && s.threads[u] == Writing(a) && a.approvalId == id && a.status == Denied && a.childJti.None?
    requires forall v :: v in s.threads && v != u ==> !Decides(s.threads[v], id)
    requires !Ungranted(s, id)
    ensures Leads(cfg, s, s') && HasStatus(s', id, Denied) && !Ungranted(s', id) && NobodyDecides(s', id)
    ensures s'.threads == s.threads[u := Finished]
  {
    s' := StepOn(cfg, s, u);
    var j :| Granted(s.grants, j, id);
    assert Granted(s'.grants, j, id);
  }

  lemma RequestIsGrantable(cfg: Config, s: System, id: string)
    requires Arises(cfg, s) && id in s.store.approvals
    ensures s.store.approvals[id].approvalId == id && s.store.approvals[id].expiresAt <= s.store.approvals[id].parentExp
  {
    ArisesApprovals(cfg, s);
    assert Grantable(cfg, s.store.tokens, s.store.approvals[id]);
  }

  /**
   An approve and a deny that both load a pending request: the approve decides, the deny overwrites it,
   and with nobody left in flight a token exists for a denied request.  `mid` is the moment in between.
   */
  lemma DeniedWithToken(cfg: Config, s: System, id: string, now: Time, approver: string, denier: string, t: nat, u: nat)
    returns (mid: System, s': System)
    requires Arises(cfg, s) && PendingInTime(s, id, now) && NobodyDecides(s, id)
    requires s.store.approvals[id].parentJti !in s.store.revoked && t != u && t !in s.threads && u !in s.threads
    ensures Leads(cfg, s, mid) && HasStatus(mid, id, Approved)
    ensures Leads(cfg, mid, s') && HasStatus(s', id, Denied) && !Ungranted(s', id) && NobodyDecides(s', id)
  {
    mid := ApprovedMeanwhile(cfg, s, id, now, approver, denier, t, u);
    s' := DenyLands(cfg, mid, u, Refused(s.store.approvals[id], now, ByHuman(denier)), id);
  }

  /** The approve has decided, the deny has loaded the request before that and has not written. */
  ghost predicate Meanwhile(s: System, mid: System, id: string, t: nat, u: nat, refused: Approval) {
    && HasStatus(mid, id, Approved) && !Ungranted(mid, id)
    && refused.approvalId == id && refused.status == Denied && refused.childJti.None?
    && mid.threads.Keys == s.threads.Keys + {t, u} && mid.threads[u] == Writing(refused)
    && forall v :: v in mid.threads && v != u ==> !Decides(mid.threads[v], id)
  }

  lemma ApprovedMeanwhile(cfg: Config, s: System, id: string, now: Time, approver: string, denier: string, t: nat, u: nat)
    returns (mid: System)
    requires Arises(cfg, s) && PendingInTime(s, id, now) && NobodyDecides(s, id)
    requires s.store.approvals[id].parentJti !in s.store.revoked && t != u && t !in s.threads && u !in s.threads
    ensures Leads(cfg, s, mid) && Meanwhile(s, mid, id, t, u, Refused(s.store.approvals[id], now, ByHuman(denier)))
  {
    RequestIsGrantable(cfg, s, id);
    var s2 := BothStart(cfg, s, id, now, approver, denier, t, u);
    LeadsThen(cfg, START, s, s2);
    mid := ApproveIsWritten(cfg, s2, t, id, now);
    LeadsThen(cfg, s, s2, mid);
    OnlyDenyLeft(s, s2, mid, id, t, u, Loaded(s.store.approvals[id], approver),
                 Refused(s.store.approvals[id], now, ByHuman(denier)));
  }

  lemma OnlyDenyLeft(s: System, s2: System, mid: System, id: string, t: nat, u: nat, load: Thread, refused: Approval)
    requires NobodyDecides(s, id) && t != u && t !in s.threads && u !in s.threads
    requires s2.threads == s.threads[t := load][u := Writing(refused)]
    requires t in mid.threads && mid.threads == s2.threads[t := mid.threads[t]] && !Decides(mid.threads[t], id)
    requires HasStatus(mid, id, Approved) && !Ungranted(mid, id)
    requires refused.approvalId == id && refused.status == Denied && refused.childJti.None?
    ensures Meanwhile(s, mid, id, t, u, refused)
  {
    forall v | v in mid.threads && v != u
      ensures !Decides(mid.threads[v], id)
    {
      assert v != t ==> v in s.threads && mid.threads[v] == s.threads[v];
    }
  }

  lemma CollectStarts(cfg: Config, s: System, v: nat, id: string) returns (s': System)
    requires Arises(cfg, s) && HasStatus(s, id, Approved) && v !in s.threads
    ensures Leads(cfg, s, s') && s'.store == s.store && s'.grants == s.grants
    ensures s'.threads == s.threads[v := Collecting(s.store.approvals[id])]
    ensures s.store.approvals[id].approvalId == id
  {
    ArisesApprovals(cfg, s);
    assert RecordOk(s.store, s.grants, s.store.approvals[id]);
    s' := Do(cfg, s, StartCollect(v, id));
    LeadsOneStep(cfg, s, StartCollect(v, id));
  }

  /** The collect loads, the deny lands, the collect writes back. */
  lemma CollectAround(cfg: Config, s: System, mid: System, id: string, t: nat, u: nat, v: nat, refused: Approval)
    returns (denied: System, s': System)
    requires Arises(cfg, mid) && Meanwhile(s, mid, id, t, u, refused) && v !in mid.threads
    ensures Leads(cfg, mid, denied) && HasStatus(denied, id, Denied) && NobodyDecides(denied, id)
    ensures Leads(cfg, denied, s') && HasStatus(s', id, Approved)
  {
    var s1 := CollectStarts(cfg, mid, v, id);
    denied := DenyLands(cfg, s1, u, refused, id);
    LeadsThen(cfg, mid, s1, denied);
    s' := StepOn(cfg, denied, v);
  }

  /**
   A collect that loaded the approved record in between writes it back: the denied request is approved
   again, although no decision was in flight.
   */
  lemma CollectRevives(cfg: Config, s: System, id: string, now: Time, approver: string, denier: string,
                       t: nat, u: nat, v: nat) returns (denied: System, s': System)
    requires Arises(cfg, s) && PendingInTime(s, id, now) && NobodyDecides(s, id)
    requires s.store.approvals[id].parentJti !in s.store.revoked
    requires t != u && t != v && u != v && t !in s.threads && u !in s.threads && v !in s.threads
    ensures Leads(cfg, s, denied) && HasStatus(denied, id, Denied) && NobodyDecides(denied, id)
    ensures Leads(cfg, denied, s') && HasStatus(s', id, Approved)
  {
    var mid := ApprovedMeanwhile(cfg, s, id, now, approver, denier, t, u);
    LeadsThen(cfg, START, s, mid);
    denied, s' := CollectAround(cfg, s, mid, id, t, u, v, Refused(s.store.approvals[id], now, ByHuman(denier)));
    LeadsThen(cfg, s, mid, denied);
  }

  /** From the empty store: a denied request, nobody deciding, and a continuation that approves it again. */
  lemma DecisionRevived(cfg: Config, scope: Scope) returns (denied: System, s': System, id: string)
    requires ValidConfig(cfg) && scope in cfg.sensitive && 0 <= cfg.approvalTimeout
    ensures Arises(cfg, denied) && HasStatus(denied, id, Denied) && NobodyDecides(denied, id)
    ensures Leads(cfg, denied, s') && HasStatus(s', id, Approved)
  {
    var s: System;
    s, id := PendingArises(cfg, scope);
    denied, s' := CollectRevives(cfg, s, id, 0, "approver", "denier", 3, 4, 5);
    LeadsThen(cfg, START, s, denied);
  }

  /** From the empty store: a token for a denied request, with nobody left in flight on it. */
  lemma TokenForDenied(cfg: Config, scope: Scope) returns (s': System, id: string)
    requires ValidConfig(cfg) && scope in cfg.sensitive && 0 <= cfg.approvalTimeout
    ensures Arises(cfg, s') && HasStatus(s', id, Denied) && !Ungranted(s', id) && NobodyDecides(s', id)
  {
    var s, mid: System;
    s, id := PendingArises(cfg, scope);
    mid, s' := DeniedWithToken(cfg, s, id, 0, "approver", "denier", 3, 4);
    LeadsThen(cfg, s, mid, s');
    LeadsThen(cfg, START, s, s');
  }
}
