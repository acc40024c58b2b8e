/**
 When a decision on a request stays for good although other calls interleave.

 Besides an approve, a deny or a timeout in flight, a `collect` in flight can change a decision: it
 writes back the record that it loaded.
 */
module InterleavedFinality {
  import opened Core
  import opened Tokens
  import opened Records
  import opened Storage
  import opened Authority
  import opened AuthorityInvariant
  import opened Interleaving
  import opened InterleavedApprovals
  import opened InterleavedDecisions

  // ------------------------------------------------------------------
  // Decisions that stay
  // ------------------------------------------------------------------

  ghost predicate AlwaysThis(cfg: Config, s: System, id: string, a: Approval) {
    forall s' :: Leads(cfg, s, s') ==> id in s'.store.approvals && s'.store.approvals[id] == a
  }

  /** Thread th will write something else than the decision that the request has. */
  predicate Overwrites(th: Thread, a: Approval) {
    || (Decides(th, a.approvalId) && (!Formed(th) || Carried(th).value != a))
    || (Collects(th, a.approvalId) && th.approval != a)
  }

  ghost predicate Fixed(s: System, id: string, a: Approval) {
    && id == a.approvalId && a.status != Pending && id in s.store.approvals && s.store.approvals[id] == a
    && forall u :: u in s.threads ==> !Overwrites(s.threads[u], a)
  }

  lemma CallStaysFixed(cfg: Config, s: System, t: nat, now: Time, uuid: string, id: string, a: Approval)
    requires ApprovalInv(s) && Fixed(s, id, a) && t in s.threads
    ensures Fixed(Do(cfg, s, Advance(t, now, uuid)), id, a)
  {
    var s', th := Do(cfg, s, Advance(t, now, uuid)), s.threads[t];
    assert ShapeOk(s.store, s.grants, th) && !Overwrites(th, a);
    if !Decides(th, id) {
      CallStaysElsewhere(cfg, s.store, th, now, uuid, id);
    }
    FixedCall(cfg, s.store, th, now, uuid, a);
  }

  lemma FixedCall(cfg: Config, st: Store, th: Thread, now: Time, uuid: string, a: Approval)
    requires !Overwrites(th, a) && a.approvalId in st.approvals && st.approvals[a.approvalId] == a
    requires th.Parking? ==> th.approval.approvalId != a.approvalId
    ensures !Overwrites(StorageCall(cfg, st, th, now, uuid).1, a)
    ensures Decides(th, a.approvalId) || Collects(th, a.approvalId) ==> StorageCall(cfg, st, th, now, uuid).0.approvals == st.approvals
  {
  }

  lemma BeginStaysFixed(s: System, t: nat, th: Thread, id: string, a: Approval)
    requires Fixed(s, id, a) && t !in s.threads && !Overwrites(th, a)
    ensures Fixed(Begin(s, t, th), id, a)
  {
  }

  lemma StepStaysFixed(cfg: Config, s: System, step: Step, id: string, a: Approval)
    requires ApprovalInv(s) && Fixed(s, id, a) && Enabled(cfg, s, step)
    ensures Fixed(Do(cfg, s, step), id, a)
  {
    if step.Advance? {
      CallStaysFixed(cfg, s, step.t, step.now, step.uuid, id, a);
    } else {
      StartBegins(cfg, s, step);
      StartedOn(cfg, s, step, id);
      BeginStaysFixed(Base(s, step), step.t, Started(s, step), id, a);
    }
  }

  lemma {:induction false} RunStaysFixed(cfg: Config, s: System, steps: seq<Step>, s': System, id: string, a: Approval)
    requires SystemInv(cfg, s) && ApprovalInv(s) && Fixed(s, id, a) && Runs(cfg, s, steps, s')
    ensures Fixed(s', id, a)
    decreases |steps|
  {
    if steps != [] {
      StepKeepsSystem(cfg, s, steps[0]);
      StepKeepsApprovals(cfg, s, steps[0]);
      StepStaysFixed(cfg, s, steps[0], id, a);
      RunStaysFixed(cfg, Do(cfg, s, steps[0]), steps[1..], s', id, a);
    }
  }

  lemma OverwriteHappens(cfg: Config, s: System, u: nat, a: Approval) returns (s': System)
    requires SystemInv(cfg, s) && u in s.threads && Overwrites(s.threads[u], a)
    ensures Leads(cfg, s, s') && a.approvalId in s'.store.approvals && s'.store.approvals[a.approvalId] != a
  {
    if s.threads[u].Collecting? {
      s' := StepOn(cfg, s, u);
    } else if Formed(s.threads[u]) {
      s' := DecisionLands(cfg, s, u);
    } else {
      var now := if a.decidedAt.Some? then a.decidedAt.value + 1 else 0;
      var mid := DecisionForms(cfg, s, u, now);
      s' := DecisionLands(cfg, mid, u);
      LeadsThen(cfg, s, mid, s');
    }
  }

  /**
   A decision stays for good, in every continuation, if and only if no other decision on the request is
   in flight and no collect that loaded another record of it.
   */
  lemma DecisionStaysIff(cfg: Config, s: System, id: string)
    requires Arises(cfg, s) && id in s.store.approvals && s.store.approvals[id].status != Pending
    ensures AlwaysThis(cfg, s, id, s.store.approvals[id])
            <==> forall u :: u in s.threads ==> !Overwrites(s.threads[u], s.store.approvals[id])
  {
    var a := s.store.approvals[id];
    ArisesApprovals(cfg, s);
    assert a.approvalId == id;
    if Fixed(s, id, a) {
      forall s' | Leads(cfg, s, s')
        ensures id in s'.store.approvals && s'.store.approvals[id] == a
      {
        var steps :| Runs(cfg, s, steps, s');
        RunStaysFixed(cfg, s, steps, s', id, a);
      }
    } else if AlwaysThis(cfg, s, id, a) {
      var u :| u in s.threads && Overwrites(s.threads[u], a);
      var s' := OverwriteHappens(cfg, s, u, a);
      assert false;
    }
  }

  /** At most one decision on id is in flight, of whatever kind. */
  ghost predicate Alone(s: System, id: string) {
    forall t, u :: t in s.threads && u in s.threads && Decides(s.threads[t], id) && Decides(s.threads[u], id) ==> t == u
  }

  ghost predicate RunsAlone(cfg: Config, s: System, steps: seq<Step>, s': System, id: string)
    decreases |steps|
  {
    Alone(s, id)
    && if steps == [] then s' == s
       else Enabled(cfg, s, steps[0]) && RunsAlone(cfg, Do(cfg, s, steps[0]), steps[1..], s', id)
  }

  ghost predicate DecidersFacePending(s: System, id: string) {
    forall u :: u in s.threads && Decides(s.threads[u], id) ==> HasStatus(s, id, Pending)
  }

  lemma AdvanceFacesPending(cfg: Config, s: System, t: nat, now: Time, uuid: string, id: string)
    requires ApprovalInv(s) && DecidersFacePending(s, id) && CollectsCurrent(s, id) && Alone(s, id) && t in s.threads
    ensures DecidersFacePending(Do(cfg, s, Advance(t, now, uuid)), id)
  {
    var s', th := Do(cfg, s, Advance(t, now, uuid)), s.threads[t];
    assert ShapeOk(s.store, s.grants, th);
    if Decides(th, id) {
      assert th.Writing? ==> !Decides(s'.threads[t], id);
      assert !th.Writing? ==> s'.store.approvals == s.store.approvals;
    } else if th.Parking? && th.approval.approvalId == id {
      UnknownIsUntouched(s, id);
    } else {
      CallStaysElsewhere(cfg, s.store, th, now, uuid, id);
    }
  }

  lemma BeginFacesPending(s: System, t: nat, th: Thread, id: string)
    requires DecidersFacePending(s, id) && t !in s.threads && (Decides(th, id) ==> HasStatus(s, id, Pending))
    ensures DecidersFacePending(Begin(s, t, th), id)
  {
  }

  lemma StepFacesPending(cfg: Config, s: System, step: Step, id: string)
    requires ApprovalInv(s) && DecidersFacePending(s, id) && CollectsCurrent(s, id) && Alone(s, id)
    requires Enabled(cfg, s, step)
    ensures DecidersFacePending(Do(cfg, s, step), id) && CollectsCurrent(Do(cfg, s, step), id)
  {
    assert HasStatus(s, id, Approved) ==> NobodyDecides(s, id);
    StepKeepsCurrent(cfg, s, step, id);
    if step.Advance? {
      AdvanceFacesPending(cfg, s, step.t, step.now, step.uuid, id);
    } else {
      StartBegins(cfg, s, step);
      StartedOn(cfg, s, step, id);
      BeginFacesPending(Base(s, step), step.t, Started(s, step), id);
    }
  }

  lemma {:induction false} RunFacesPending(cfg: Config, s: System, steps: seq<Step>, s': System, id: string)
    requires SystemInv(cfg, s) && ApprovalInv(s) && DecidersFacePending(s, id) && CollectsCurrent(s, id)
    requires RunsAlone(cfg, s, steps, s', id)
    ensures DecidersFacePending(s', id) && CollectsCurrent(s', id) && Leads(cfg, s, s')
    decreases |steps|
  {
    LeadsNowhere(cfg, s);
    if steps != [] {
      var mid := Do(cfg, s, steps[0]);
      StepKeepsSystem(cfg, s, steps[0]);
      StepKeepsApprovals(cfg, s, steps[0]);
      StepFacesPending(cfg, s, steps[0], id);
      RunFacesPending(cfg, mid, steps[1..], s', id);
      LeadsOneStep(cfg, s, steps[0]);
      LeadsThen(cfg, s, mid, s');
    }
  }

  /** If no two decisions on a request were ever in flight together, a decided one is decided for good. */
  lemma DecidedIsFinalWhenAlone(cfg: Config, steps: seq<Step>, s: System, id: string)
    requires RunsAlone(cfg, START, steps, s, id)
    requires id in s.store.approvals && s.store.approvals[id].status != Pending
    ensures AlwaysThis(cfg, s, id, s.store.approvals[id])
  {
    StartsUngranted(id);
    RunFacesPending(cfg, START, steps, s, id);
    DecisionStaysIff(cfg, s, id);
    ArisesApprovals(cfg, s);
  }
}
