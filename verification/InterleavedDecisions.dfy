/**
 One token per request, exactly when it is approved; and decisions that stay.

 Both hold as long as no approval overlaps another decision on the same request, and both can be
 broken from every state in which one does.
 */
module InterleavedDecisions {
  import opened Core
  import opened Tokens
  import opened Lineage
  import opened Records
  import opened Storage
  import opened Authority
  import opened AuthorityInvariant
  import opened Interleaving
  import opened InterleavedApprovals

  // ------------------------------------------------------------------
  // Overlap
  // ------------------------------------------------------------------

  /** The request that a thread in the middle of an approve, a deny or a timeout has loaded. */
  function Carried(th: Thread): Option<Approval> {
    match th
    case Loaded(a, _) => Some(a)
    case FoundParent(a, _) => Some(a)
    case Storing(_, after) => after
    case Linking(_, after) => after
    case Writing(a) => Some(a)
    case _ => None
  }

  /** A collect of request id is about to write its record back. */
  predicate Collects(th: Thread, id: string) {
    th.Collecting? && th.approval.approvalId == id
  }

  predicate Decides(th: Thread, id: string) {
    Carried(th).Some? && Carried(th).value.approvalId == id
  }

  /** The token is stored, the decision is not. */
  predicate Completes(th: Thread, id: string) {
    Decides(th, id) && (th.Linking? || (th.Writing? && th.approval.status == Approved))
  }

  /** An approve that has minted, or that nothing recorded so far keeps from minting. */
  predicate LiveApprove(st: Store, th: Thread, id: string) {
    && Decides(th, id)
    && match th
       case Loaded(a, _) => a.parentJti !in st.revoked
       case FoundParent(a, _) => a.parentJti !in st.revoked
       case Storing(_, _) => true
       case _ => Completes(th, id)
  }

  ghost predicate Overlap(s: System, id: string) {
    exists t, u :: t in s.threads && u in s.threads && t != u
                   && LiveApprove(s.store, s.threads[t], id) && Decides(s.threads[u], id)
  }

  /** A run in whose every state no live approve of id overlaps another decision on it. */
  ghost predicate RunsSerially(cfg: Config, s: System, steps: seq<Step>, s': System, id: string)
    decreases |steps|
  {
    !Overlap(s, id)
    && if steps == [] then s' == s
       else Enabled(cfg, s, steps[0]) && RunsSerially(cfg, Do(cfg, s, steps[0]), steps[1..], s', id)
  }

  // ------------------------------------------------------------------
  // What serial runs keep
  // ------------------------------------------------------------------

  ghost predicate Ungranted(s: System, id: string) {
    forall j :: !Granted(s.grants, j, id)
  }

  ghost predicate SomeCompletes(s: System, id: string) {
    exists t :: t in s.threads && Completes(s.threads[t], id)
  }

  predicate HasStatus(s: System, id: string, status: Status) {
    id in s.store.approvals && s.store.approvals[id].status == status
  }

  ghost predicate AtMostOne(s: System, id: string) {
    forall j, k :: Granted(s.grants, j, id) && Granted(s.grants, k, id) ==> j == k
  }

  ghost predicate LiveOnPending(s: System, id: string) {
    forall t :: t in s.threads && LiveApprove(s.store, s.threads[t], id) ==>
      HasStatus(s, id, Pending) && (Completes(s.threads[t], id) || Ungranted(s, id))
  }

  ghost predicate NobodyDecides(s: System, id: string) {
    forall u :: u in s.threads ==> !Decides(s.threads[u], id)
  }

  /** Whatever a collect will write back is what the request says. */
  ghost predicate CollectsCurrent(s: System, id: string) {
    forall u :: u in s.threads && Collects(s.threads[u], id) ==>
      HasStatus(s, id, Approved) && s.store.approvals[id] == s.threads[u].approval
  }

  ghost predicate OneGrant(s: System, id: string) {
    && AtMostOne(s, id)
    && LiveOnPending(s, id)
    && (Ungranted(s, id) || HasStatus(s, id, Approved) || SomeCompletes(s, id))
    && (HasStatus(s, id, Approved) ==> NobodyDecides(s, id))
  }

  /** Nothing about request id differs between s and s'. */
  ghost predicate SameFor(s: System, s': System, id: string) {
    && (id in s.store.approvals <==> id in s'.store.approvals)
    && (id in s.store.approvals ==> s'.store.approvals[id] == s.store.approvals[id])
    && s.store.revoked.Keys <= s'.store.revoked.Keys
    && (forall j :: Granted(s'.grants, j, id) <==> Granted(s.grants, j, id))
    && (forall u :: u in s'.threads && Decides(s'.threads[u], id) ==> u in s.threads && s.threads[u] == s'.threads[u])
    && (forall u :: u in s.threads && Decides(s.threads[u], id) ==> u in s'.threads && s.threads[u] == s'.threads[u])
  }

  lemma ElsewhereKeepsOneGrant(s: System, s': System, id: string)
    requires OneGrant(s, id) && SameFor(s, s', id)
    ensures OneGrant(s', id)
  {
    forall t | t in s'.threads && LiveApprove(s'.store, s'.threads[t], id)
      ensures HasStatus(s', id, Pending) && (Completes(s'.threads[t], id) || Ungranted(s', id))
    {
      assert LiveApprove(s.store, s.threads[t], id);
    }
    if t :| t in s.threads && Completes(s.threads[t], id) {
      assert t in s'.threads && Completes(s'.threads[t], id);
    }
  }

  /** A decider beside which nobody is a live approve; if it is live itself, it is alone. */
  lemma AloneIfLive(s: System, t: nat, id: string)
    requires !Overlap(s, id) && t in s.threads && Decides(s.threads[t], id)
    ensures forall u :: u in s.threads && u != t ==> !LiveApprove(s.store, s.threads[u], id)
    ensures LiveApprove(s.store, s.threads[t], id) ==>
              forall u :: u in s.threads && u != t ==> !Decides(s.threads[u], id)
  {
  }

  lemma CompletesIsLive(st: Store, th: Thread, id: string)
    requires Completes(th, id)
    ensures LiveApprove(st, th, id)
  {
  }

  lemma NobodyElseCompletes(s: System, t: nat, id: string)
    requires !Overlap(s, id) && t in s.threads && Decides(s.threads[t], id)
    ensures forall u :: u in s.threads && u != t ==> !Completes(s.threads[u], id)
  {
    AloneIfLive(s, t, id);
    forall u | u in s.threads && Completes(s.threads[u], id)
      ensures LiveApprove(s.store, s.threads[u], id)
    {
      CompletesIsLive(s.store, s.threads[u], id);
    }
  }

  /** A decision on a pending request begins. */
  lemma BeginKeepsOneGrant(s: System, t: nat, th: Thread, id: string)
    requires OneGrant(s, id) && t !in s.threads && HasStatus(s, id, Pending)
    requires Decides(th, id) && !Completes(th, id) && !Overlap(Begin(s, t, th), id)
    ensures OneGrant(Begin(s, t, th), id)
  {
    var s' := Begin(s, t, th);
    AloneIfLive(s', t, id);
    NobodyElseCompletes(s', t, id);
    forall u | u in s.threads
      ensures !Completes(s.threads[u], id)
    {
      assert s'.threads[u] == s.threads[u];
    }
    assert Ungranted(s, id) && Ungranted(s', id);
  }

  /** A decider takes a look: it stays what it is, becomes a refusal, or is ready to store. */
  lemma LookKeepsOneGrant(s: System, t: nat, th': Thread, id: string)
    requires OneGrant(s, id) && !Overlap(s, id) && t in s.threads && Decides(s.threads[t], id)
    requires !Completes(s.threads[t], id) && !Completes(th', id)
    requires LiveApprove(s.store, th', id) ==> LiveApprove(s.store, s.threads[t], id)
    requires Decides(th', id) || th' == Finished
    ensures OneGrant(s.(threads := s.threads[t := th']), id)
  {
    var s' := s.(threads := s.threads[t := th']);
    AloneIfLive(s, t, id);
    NobodyElseCompletes(s, t, id);
    assert Ungranted(s, id) ==> Ungranted(s', id);
  }

  /** put_token of an approve. */
  lemma StoreKeepsOneGrant(s: System, t: nat, m: TokenMeta, a: Approval, id: string, s': System)
    requires OneGrant(s, id) && !Overlap(s, id) && t in s.threads
    requires s.threads[t] == Storing(m, Some(a)) && a.approvalId == id
    requires s'.store.approvals == s.store.approvals && s'.store.revoked == s.store.revoked
    requires s'.grants == s.grants[m.jti := id] && s'.threads == s.threads[t := Linking(m, Some(a))]
    ensures OneGrant(s', id)
  {
    AloneIfLive(s, t, id);
    assert LiveApprove(s.store, s.threads[t], id) && Ungranted(s, id);
    forall j | Granted(s'.grants, j, id)
      ensures j == m.jti
    {
      assert !Granted(s.grants, j, id);
    }
    assert Completes(s'.threads[t], id);
  }

  /** add_edge of an approve. */
  lemma LinkKeepsOneGrant(s: System, t: nat, a: Approval, id: string, s': System)
    requires OneGrant(s, id) && !Overlap(s, id) && t in s.threads && a.approvalId == id && a.status == Approved
    requires s.threads[t].Linking? && s.threads[t].after == Some(a)
    requires s'.store.approvals == s.store.approvals && s'.store.revoked == s.store.revoked
    requires s'.grants == s.grants && s'.threads == s.threads[t := Writing(a)]
    ensures OneGrant(s', id)
  {
    AloneIfLive(s, t, id);
    assert LiveApprove(s.store, s.threads[t], id);
    assert Completes(s'.threads[t], id);
    assert AtMostOne(s', id);
  }

  /** update_approval: the approve that minted is alone, and a refusal overlaps no live approve. */
  lemma WriteKeepsOneGrant(s: System, t: nat, a: Approval, id: string, s': System)
    requires OneGrant(s, id) && !Overlap(s, id) && t in s.threads
    requires s.threads[t] == Writing(a) && a.approvalId == id && a.status != Pending
    requires s'.store == SetApproval(s.store, a) && s'.grants == s.grants
    requires t in s'.threads && s'.threads == s.threads[t := s'.threads[t]] && !Decides(s'.threads[t], id)
    ensures OneGrant(s', id)
  {
    AloneIfLive(s, t, id);
    NobodyElseCompletes(s, t, id);
    assert AtMostOne(s', id);
    if a.status == Approved {
      assert Completes(s.threads[t], id);
      CompletesIsLive(s.store, s.threads[t], id);
    } else {
      assert Decides(s.threads[t], id);
      assert Ungranted(s, id) && Ungranted(s', id);
    }
  }

  /** Before a request is stored, nobody decides it and nothing was minted for it. */
  lemma UnknownIsUntouched(s: System, id: string)
    requires ApprovalInv(s) && id !in s.store.approvals
    ensures NobodyDecides(s, id) && Ungranted(s, id)
  {
    forall u | u in s.threads
      ensures !Decides(s.threads[u], id)
    {
      assert ShapeOk(s.store, s.grants, s.threads[u]);
    }
  }

  lemma ParkKeepsOneGrant(s: System, t: nat, a: Approval, s': System)
    requires ApprovalInv(s) && t in s.threads && s.threads[t] == Parking(a)
    requires s'.store == SetApproval(s.store, a) && s'.grants == s.grants && s'.threads == s.threads[t := Finished]
    ensures OneGrant(s', a.approvalId)
  {
    assert ShapeOk(s.store, s.grants, s.threads[t]);
    UnknownIsUntouched(s, a.approvalId);
    forall u | u in s'.threads
      ensures !Decides(s'.threads[u], a.approvalId)
    {
    }
    assert Ungranted(s', a.approvalId);
  }

  /** A storage call of a thread that decides something else, or nothing. */
  lemma OtherCallIsElsewhere(cfg: Config, s: System, t: nat, now: Time, uuid: string, id: string)
    requires t in s.threads && !Decides(s.threads[t], id) && CollectsCurrent(s, id)
    requires s.threads[t].Parking? ==> s.threads[t].approval.approvalId != id
    requires s.threads[t].Storing? ==> s.threads[t].meta.jti !in s.grants
    ensures SameFor(s, Do(cfg, s, Advance(t, now, uuid)), id)
  {
    var th := s.threads[t];
    var (st, th') := StorageCall(cfg, s.store, th, now, uuid);
    CallKeepsRevocations(cfg, s.store, th, now, uuid);
    CallStaysElsewhere(cfg, s.store, th, now, uuid, id);
  }

  lemma CallStaysElsewhere(cfg: Config, st: Store, th: Thread, now: Time, uuid: string, id: string)
    requires !Decides(th, id) && (th.Parking? ==> th.approval.approvalId != id)
    requires Collects(th, id) ==> id in st.approvals && st.approvals[id] == th.approval
    ensures var (st', th') := StorageCall(cfg, st, th, now, uuid);
            && !Decides(th', id) && !th'.Collecting?
            && (id in st'.approvals <==> id in st.approvals)
            && (id in st.approvals ==> st'.approvals[id] == st.approvals[id])
  {
  }

  lemma LookingDecider(cfg: Config, s: System, t: nat, now: Time, uuid: string, id: string)
    requires OneGrant(s, id) && !Overlap(s, id) && t in s.threads && Decides(s.threads[t], id)
    requires s.threads[t].Loaded? || s.threads[t].FoundParent?
    ensures OneGrant(Do(cfg, s, Advance(t, now, uuid)), id)
  {
    var th := s.threads[t];
    if th.FoundParent? {
      FoundParentCall(cfg, s.store, th.approval, th.approver, now, uuid);
    }
    LookLeavesStore(cfg, s.store, th, now, uuid);
    LookKeepsOneGrant(s, t, StorageCall(cfg, s.store, th, now, uuid).1, id);
  }

  lemma MintingDecider(cfg: Config, s: System, t: nat, now: Time, uuid: string, id: string)
    requires OneGrant(s, id) && !Overlap(s, id) && t in s.threads && Decides(s.threads[t], id)
    requires ShapeOk(s.store, s.grants, s.threads[t]) && (s.threads[t].Storing? || s.threads[t].Linking?)
    ensures OneGrant(Do(cfg, s, Advance(t, now, uuid)), id)
  {
    var s', th := Do(cfg, s, Advance(t, now, uuid)), s.threads[t];
    if th.Storing? {
      StoreKeepsOneGrant(s, t, th.meta, th.after.value, id, s');
    } else {
      LinkKeepsOneGrant(s, t, th.after.value, id, s');
    }
  }

  lemma DeciderCallKeepsOneGrant(cfg: Config, s: System, t: nat, now: Time, uuid: string, id: string)
    requires ApprovalInv(s) && OneGrant(s, id) && !Overlap(s, id)
    requires t in s.threads && Decides(s.threads[t], id)
    ensures OneGrant(Do(cfg, s, Advance(t, now, uuid)), id)
  {
    assert ShapeOk(s.store, s.grants, s.threads[t]);
    if s.threads[t].Writing? {
      WriteCall(cfg, s, t, now, uuid);
      WriteKeepsOneGrant(s, t, s.threads[t].approval, id, Do(cfg, s, Advance(t, now, uuid)));
    } else if s.threads[t].Storing? || s.threads[t].Linking? {
      MintingDecider(cfg, s, t, now, uuid, id);
    } else {
      LookingDecider(cfg, s, t, now, uuid, id);
    }
  }

  lemma FoundParentCall(cfg: Config, st: Store, a: Approval, approver: string, now: Time, uuid: string)
    ensures var (st', th') := StorageCall(cfg, st, FoundParent(a, approver), now, uuid);
            && st' == st && (Decides(th', a.approvalId) || th' == Finished) && !Completes(th', a.approvalId)
            && (LiveApprove(st, th', a.approvalId) ==> a.parentJti !in st.revoked)
  {
  }

  lemma AdvanceKeepsOneGrant(cfg: Config, s: System, t: nat, now: Time, uuid: string, id: string)
    requires SystemInv(cfg, s) && ApprovalInv(s) && OneGrant(s, id) && !Overlap(s, id) && t in s.threads
    requires CollectsCurrent(s, id)
    ensures OneGrant(Do(cfg, s, Advance(t, now, uuid)), id)
  {
    var s' := Do(cfg, s, Advance(t, now, uuid));
    if Decides(s.threads[t], id) {
      DeciderCallKeepsOneGrant(cfg, s, t, now, uuid, id);
    } else if s.threads[t].Parking? && s.threads[t].approval.approvalId == id {
      ParkKeepsOneGrant(s, t, s.threads[t].approval, s');
    } else {
      if s.threads[t].Storing? {
        StoreExtends(cfg, s, t, now, uuid);
      }
      OtherCallIsElsewhere(cfg, s, t, now, uuid, id);
      ElsewhereKeepsOneGrant(s, s', id);
    }
  }

  lemma StartKeepsOneGrant(s: System, t: nat, th: Thread, id: string)
    requires OneGrant(s, id) && t !in s.threads && !Completes(th, id) && !Overlap(Begin(s, t, th), id)
    requires Decides(th, id) ==> HasStatus(s, id, Pending)
    ensures OneGrant(Begin(s, t, th), id)
  {
    if Decides(th, id) {
      BeginKeepsOneGrant(s, t, th, id);
    } else {
      ElsewhereKeepsOneGrant(s, Begin(s, t, th), id);
    }
  }

  /** What a new call makes of request id: a decision of a pending one, or a collect of what is stored. */
  lemma StartedOn(cfg: Config, s: System, step: Step, id: string)
    requires RecordsOk(s.store, s.grants) && Enabled(cfg, s, step) && !step.Advance?
    ensures var th := Started(s, step);
            && !Completes(th, id) && !NamesChild(th)
            && (Decides(th, id) ==> HasStatus(s, id, Pending))
            && (Collects(th, id) ==> HasStatus(s, id, Approved) && s.store.approvals[id] == th.approval)
  {
  }

  lemma StepKeepsOneGrant(cfg: Config, s: System, step: Step, id: string)
    requires SystemInv(cfg, s) && ApprovalInv(s) && OneGrant(s, id) && CollectsCurrent(s, id) && Enabled(cfg, s, step)
    requires !Overlap(s, id) && !Overlap(Do(cfg, s, step), id)
    ensures OneGrant(Do(cfg, s, step), id)
  {
    if step.Advance? {
      AdvanceKeepsOneGrant(cfg, s, step.t, step.now, step.uuid, id);
    } else {
      StartBegins(cfg, s, step);
      StartedOn(cfg, s, step, id);
      ElsewhereKeepsOneGrant(s, Base(s, step), id);
      StartKeepsOneGrant(Base(s, step), step.t, Started(s, step), id);
    }
  }

  /** Before a request is stored, nobody collects it. */
  lemma UnknownIsUncollected(s: System, id: string)
    requires ApprovalInv(s) && id !in s.store.approvals
    ensures forall u :: u in s.threads ==> !Collects(s.threads[u], id)
  {
    forall u | u in s.threads
      ensures !Collects(s.threads[u], id)
    {
      assert ShapeOk(s.store, s.grants, s.threads[u]);
    }
  }

  /** While an approved request is not being decided, every collect carries what it says. */
  lemma AdvanceKeepsCurrent(cfg: Config, s: System, t: nat, now: Time, uuid: string, id: string)
    requires ApprovalInv(s) && CollectsCurrent(s, id) && t in s.threads
    requires HasStatus(s, id, Approved) ==> NobodyDecides(s, id)
    ensures CollectsCurrent(Do(cfg, s, Advance(t, now, uuid)), id)
  {
    var s', th := Do(cfg, s, Advance(t, now, uuid)), s.threads[t];
    assert ShapeOk(s.store, s.grants, th);
    NobodyStartsCollecting(cfg, s.store, th, now, uuid);
    if Decides(th, id) {
      assert forall u :: u in s.threads ==> !Collects(s.threads[u], id);
    } else if th.Parking? && th.approval.approvalId == id {
      UnknownIsUncollected(s, id);
    } else {
      CallStaysElsewhere(cfg, s.store, th, now, uuid, id);
    }
    forall u | u in s'.threads && Collects(s'.threads[u], id)
      ensures HasStatus(s', id, Approved) && s'.store.approvals[id] == s'.threads[u].approval
    {
      assert u != t && Collects(s.threads[u], id);
    }
  }

  lemma NobodyStartsCollecting(cfg: Config, st: Store, th: Thread, now: Time, uuid: string)
    ensures !StorageCall(cfg, st, th, now, uuid).1.Collecting?
  {
  }

  lemma BeginKeepsCurrent(s: System, t: nat, th: Thread, id: string)
    requires CollectsCurrent(s, id) && t !in s.threads
    requires Collects(th, id) ==> HasStatus(s, id, Approved) && s.store.approvals[id] == th.approval
    ensures CollectsCurrent(Begin(s, t, th), id)
  {
  }

  lemma StepKeepsCurrent(cfg: Config, s: System, step: Step, id: string)
    requires ApprovalInv(s) && CollectsCurrent(s, id) && Enabled(cfg, s, step)
    requires HasStatus(s, id, Approved) ==> NobodyDecides(s, id)
    ensures CollectsCurrent(Do(cfg, s, step), id)
  {
    if step.Advance? {
      AdvanceKeepsCurrent(cfg, s, step.t, step.now, step.uuid, id);
    } else {
      StartBegins(cfg, s, step);
      StartedOn(cfg, s, step, id);
      BeginKeepsCurrent(Base(s, step), step.t, Started(s, step), id);
    }
  }

  lemma {:induction false} SerialRunKeeps(cfg: Config, s: System, steps: seq<Step>, s': System, id: string)
    requires SystemInv(cfg, s) && ApprovalInv(s) && OneGrant(s, id) && CollectsCurrent(s, id)
    requires RunsSerially(cfg, s, steps, s', id)
    ensures SystemInv(cfg, s') && ApprovalInv(s') && OneGrant(s', id) && CollectsCurrent(s', id)
    decreases |steps|
  {
    if steps != [] {
      var mid := Do(cfg, s, steps[0]);
      StepKeepsSystem(cfg, s, steps[0]);
      StepKeepsApprovals(cfg, s, steps[0]);
      StepKeepsOneGrant(cfg, s, steps[0], id);
      StepKeepsCurrent(cfg, s, steps[0], id);
      SerialRunKeeps(cfg, mid, steps[1..], s', id);
    }
  }

  // ------------------------------------------------------------------
  // One token per request
  // ------------------------------------------------------------------

  lemma CompletesIsGranted(s: System, t: nat, id: string) returns (j: Jti)
    requires ApprovalInv(s) && t in s.threads && Completes(s.threads[t], id)
    ensures Granted(s.grants, j, id) && Carried(s.threads[t]).value.childJti == Some(j)
  {
    assert ShapeOk(s.store, s.grants, s.threads[t]);
    j := Carried(s.threads[t]).value.childJti.value;
  }

  lemma StartsUngranted(id: string)
    ensures OneGrant(START, id) && CollectsCurrent(START, id) && ApprovalInv(START)
  {
  }

  /**
   As long as no live approve of a request overlaps another decision on it, at most one token is ever
   minted for it, one exists exactly if the request is approved or its approve is about to say so, and
   the approved record names it, its approver and what was asked.
   */
  lemma OneTokenPerRequest(cfg: Config, steps: seq<Step>, s: System, id: string)
    requires RunsSerially(cfg, START, steps, s, id)
    ensures AtMostOne(s, id)
    ensures !Ungranted(s, id) <==> HasStatus(s, id, Approved) || SomeCompletes(s, id)
    ensures SomeCompletes(s, id) ==> HasStatus(s, id, Pending)
    ensures HasStatus(s, id, Approved) ==>
              var a := s.store.approvals[id];
              && a.childJti.Some? && Granted(s.grants, a.childJti.value, id)
              && a.childJti.value in s.store.tokens && MintedFor(a, s.store.tokens[a.childJti.value])
              && s.store.tokens[a.childJti.value].approvedBy == a.approvedBy
  {
    StartsUngranted(id);
    SerialRunKeeps(cfg, START, steps, s, id);
    if t :| t in s.threads && Completes(s.threads[t], id) {
      var j := CompletesIsGranted(s, t, id);
      CompletesIsLive(s.store, s.threads[t], id);
    }
  }

  /** What must never be: two tokens for one request, or a token for a request that was refused. */
  ghost predicate Broken(s: System, id: string) {
    || !AtMostOne(s, id)
    || (!Ungranted(s, id) && (HasStatus(s, id, Denied) || HasStatus(s, id, Expired)))
  }

  lemma SerialRunsNeverBreak(cfg: Config, steps: seq<Step>, s: System, id: string)
    requires RunsSerially(cfg, START, steps, s, id)
    ensures !Broken(s, id)
  {
    OneTokenPerRequest(cfg, steps, s, id);
  }

  // ------------------------------------------------------------------
  // A decision in flight lands
  // ------------------------------------------------------------------

  /** The outcome is decided and only has to be written. */
  predicate Formed(th: Thread) {
    Carried(th).Some? && (th.Storing? || th.Linking? || th.Writing?)
  }

  /** s' is s with thread t moved on, and nothing stored differently. */
  ghost predicate OnlyMoved(s: System, s': System, t: nat) {
    && s'.store == s.store && s'.grants == s.grants && s'.began == s.began
    && t in s'.threads && s'.threads == s.threads[t := s'.threads[t]]
  }

  lemma DeciderIsGrantable(cfg: Config, s: System, t: nat)
    requires SystemInv(cfg, s) && t in s.threads && (s.threads[t].Loaded? || s.threads[t].FoundParent?)
    ensures s.threads[t].approval.parentJti in s.store.tokens
    ensures s.store.tokens[s.threads[t].approval.parentJti].jti == s.threads[t].approval.parentJti
  {
    assert ThreadOk(cfg, s.store, s.threads[t], s.began[t]);
    assert WellPlaced(s.store.tokens, cfg.maxTtl, s.threads[t].approval.parentJti);
  }

  lemma FindsParent(cfg: Config, s: System, t: nat) returns (s': System)
    requires SystemInv(cfg, s) && t in s.threads && s.threads[t].Loaded?
    ensures Leads(cfg, s, s') && OnlyMoved(s, s', t)
    ensures s'.threads[t] == FoundParent(s.threads[t].approval, s.threads[t].approver)
  {
    DeciderIsGrantable(cfg, s, t);
    var uuid := UnusedIn(s);
    s' := Do(cfg, s, Advance(t, 0, uuid));
    LeadsOneStep(cfg, s, Advance(t, 0, uuid));
  }

  /** What an approve makes of its request once it has seen the parent. */
  ghost predicate FormedFrom(a: Approval, th: Thread, st: Store, now: Time) {
    && Formed(th) && Carried(th).value.approvalId == a.approvalId && Carried(th).value.decidedAt == Some(now)
    && (if a.parentJti !in st.revoked && now <= a.parentExp then th.Storing?
        else th.Writing? && th.approval.status in {Denied, Expired})
  }

  lemma MakesUp(cfg: Config, s: System, t: nat, now: Time) returns (s': System)
    requires SystemInv(cfg, s) && t in s.threads && s.threads[t].FoundParent?
    ensures Leads(cfg, s, s') && OnlyMoved(s, s', t)
    ensures FormedFrom(s.threads[t].approval, s'.threads[t], s.store, now)
  {
    DeciderIsGrantable(cfg, s, t);
    var uuid := UnusedIn(s);
    FormedCall(cfg, s.store, s.threads[t].approval, s.threads[t].approver, now, uuid);
    s' := Do(cfg, s, Advance(t, now, uuid));
    LeadsOneStep(cfg, s, Advance(t, now, uuid));
  }

  lemma FormedCall(cfg: Config, st: Store, a: Approval, approver: string, now: Time, uuid: string)
    requires a.parentJti in st.tokens
    ensures var (st', th') := StorageCall(cfg, st, FoundParent(a, approver), now, uuid);
            st' == st && FormedFrom(a, th', st, now)
  {
  }

  lemma DecisionForms(cfg: Config, s: System, t: nat, now: Time) returns (s': System)
    requires SystemInv(cfg, s) && t in s.threads && (s.threads[t].Loaded? || s.threads[t].FoundParent?)
    ensures Leads(cfg, s, s') && OnlyMoved(s, s', t)
    ensures FormedFrom(s.threads[t].approval, s'.threads[t], s.store, now)
  {
    if s.threads[t].Loaded? {
      var mid := FindsParent(cfg, s, t);
      LeadsInv(cfg, s, mid);
      s' := MakesUp(cfg, mid, t, now);
      LeadsThen(cfg, s, mid, s');
    } else {
      s' := MakesUp(cfg, s, t, now);
    }
  }

  lemma LeadsInv(cfg: Config, s: System, s': System)
    requires SystemInv(cfg, s) && Leads(cfg, s, s')
    ensures SystemInv(cfg, s')
  {
    var steps :| Runs(cfg, s, steps, s');
    RunKeepsSystem(cfg, s, steps, s');
  }

  lemma LeadsApprovals(cfg: Config, s: System, s': System)
    requires SystemInv(cfg, s) && ApprovalInv(s) && Leads(cfg, s, s')
    ensures SystemInv(cfg, s') && ApprovalInv(s')
  {
    var steps :| Runs(cfg, s, steps, s');
    RunKeepsApprovals(cfg, s, steps, s');
  }

  /** Whatever a formed decision carries is what the request says once it has landed. */
  lemma DecisionLands(cfg: Config, s: System, t: nat) returns (s': System)
    requires t in s.threads && Formed(s.threads[t])
    ensures var a := Carried(s.threads[t]).value;
            Leads(cfg, s, s') && a.approvalId in s'.store.approvals && s'.store.approvals[a.approvalId] == a
    decreases if s.threads[t].Storing? then 2 else if s.threads[t].Linking? then 1 else 0
  {
    s' := StepOn(cfg, s, t);
    if !s.threads[t].Writing? {
      var mid := s';
      s' := DecisionLands(cfg, mid, t);
      LeadsThen(cfg, s, mid, s');
    }
  }

  // ------------------------------------------------------------------
  // Every overlap can break it
  // ------------------------------------------------------------------

  /** The token that an approved record in flight names is its own. */
  ghost predicate DistinctChildren(threads: map<nat, Thread>) {
    forall t, u :: (t in threads && u in threads && NamesChild(threads[t]) && NamesChild(threads[u])
                    && Carried(threads[t]).value.childJti == Carried(threads[u]).value.childJti) ==> t == u
  }

  predicate NamesChild(th: Thread) {
    Formed(th) && Carried(th).value.childJti.Some?
  }

  lemma ChildIsNotNew(s: System, t: nat, uuid: string)
    requires ApprovalInv(s) && t in s.threads && NamesChild(s.threads[t]) && FreshIn(s, uuid)
    ensures Carried(s.threads[t]).value.childJti != Some(uuid)
  {
    assert ShapeOk(s.store, s.grants, s.threads[t]);
  }

  lemma CallNamesChild(cfg: Config, st: Store, grants: map<Jti, string>, th: Thread, now: Time, uuid: string)
    requires Forest(st.tokens, cfg.maxTtl) && ShapeOk(st, grants, th)
    ensures var th' := StorageCall(cfg, st, th, now, uuid).1;
            NamesChild(th') ==> || (NamesChild(th) && Carried(th').value.childJti == Carried(th).value.childJti)
                                || (th.FoundParent? && Carried(th').value.childJti == Some(uuid))
  {
    if th.FoundParent? && th.approval.parentJti in st.tokens {
      assert WellPlaced(st.tokens, cfg.maxTtl, th.approval.parentJti);
      ApprovedShape(cfg, st.tokens[th.approval.parentJti], th.approval, th.approver, now, uuid);
    }
  }

  lemma AdvanceKeepsDistinct(cfg: Config, s: System, t: nat, now: Time, uuid: string)
    requires Forest(s.store.tokens, cfg.maxTtl) && ApprovalInv(s) && DistinctChildren(s.threads)
    requires t in s.threads && FreshIn(s, uuid)
    ensures DistinctChildren(Do(cfg, s, Advance(t, now, uuid)).threads)
  {
    assert ShapeOk(s.store, s.grants, s.threads[t]);
    CallNamesChild(cfg, s.store, s.grants, s.threads[t], now, uuid);
    forall u | u in s.threads && NamesChild(s.threads[u])
      ensures Carried(s.threads[u]).value.childJti != Some(uuid)
    {
      ChildIsNotNew(s, u, uuid);
    }
    MoveKeepsDistinct(s.threads, t, StorageCall(cfg, s.store, s.threads[t], now, uuid).1, uuid);
  }

  lemma BeginKeepsDistinct(s: System, t: nat, th: Thread)
    requires DistinctChildren(s.threads) && t !in s.threads && !NamesChild(th)
    ensures DistinctChildren(Begin(s, t, th).threads)
  {
  }

  lemma StepKeepsDistinct(cfg: Config, s: System, step: Step)
    requires Forest(s.store.tokens, cfg.maxTtl) && ApprovalInv(s) && DistinctChildren(s.threads) && Enabled(cfg, s, step)
    ensures DistinctChildren(Do(cfg, s, step).threads)
  {
    if step.Advance? {
      AdvanceKeepsDistinct(cfg, s, step.t, step.now, step.uuid);
    } else {
      StartBegins(cfg, s, step);
      StartedOn(cfg, s, step, "");
      BeginKeepsDistinct(Base(s, step), step.t, Started(s, step));
    }
  }

  lemma MoveKeepsDistinct(threads: map<nat, Thread>, t: nat, th': Thread, uuid: string)
    requires DistinctChildren(threads) && t in threads
    requires forall u :: u in threads && NamesChild(threads[u]) ==> Carried(threads[u]).value.childJti != Some(uuid)
    requires NamesChild(th') ==> || (NamesChild(threads[t]) && Carried(th').value.childJti == Carried(threads[t]).value.childJti)
                                 || Carried(th').value.childJti == Some(uuid)
    ensures DistinctChildren(threads[t := th'])
  {
  }

  lemma {:induction false} RunKeepsDistinct(cfg: Config, s: System, steps: seq<Step>, s': System)
    requires SystemInv(cfg, s) && ApprovalInv(s) && DistinctChildren(s.threads) && Runs(cfg, s, steps, s')
    ensures DistinctChildren(s'.threads)
    decreases |steps|
  {
    if steps != [] {
      StepKeepsSystem(cfg, s, steps[0]);
      StepKeepsApprovals(cfg, s, steps[0]);
      StepKeepsDistinct(cfg, s, steps[0]);
      RunKeepsDistinct(cfg, Do(cfg, s, steps[0]), steps[1..], s');
    }
  }

  lemma ArisesDistinct(cfg: Config, s: System)
    requires Arises(cfg, s)
    ensures DistinctChildren(s.threads)
  {
    var steps :| Runs(cfg, START, steps, s);
    RunKeepsDistinct(cfg, START, steps, s);
  }

  /** A live approve that has not stored its token can store it now, whatever else is in flight. */
  lemma LiveApproveMints(cfg: Config, s: System, t: nat, id: string) returns (s': System, j: Jti)
    requires SystemInv(cfg, s) && ApprovalInv(s) && t in s.threads
    requires LiveApprove(s.store, s.threads[t], id) && !Completes(s.threads[t], id)
    ensures Leads(cfg, s, s') && j !in s.grants && s'.grants == s.grants[j := id]
    ensures t in s'.threads && s'.threads == s.threads[t := s'.threads[t]] && s'.store.revoked == s.store.revoked
  {
    var mid := LiveApproveForms(cfg, s, t, id);
    s', j := StoresGrant(cfg, mid, t);
    LeadsThen(cfg, s, mid, s');
    MovedTwice(s, mid, s', t);
  }

  lemma MovedTwice(s: System, mid: System, s': System, t: nat)
    requires OnlyMoved(s, mid, t) && t in s'.threads && s'.threads == mid.threads[t := s'.threads[t]]
    ensures s'.threads == s.threads[t := s'.threads[t]]
  {
  }

  lemma LiveApproveForms(cfg: Config, s: System, t: nat, id: string) returns (s': System)
    requires SystemInv(cfg, s) && ApprovalInv(s) && t in s.threads
    requires LiveApprove(s.store, s.threads[t], id) && !Completes(s.threads[t], id)
    ensures SystemInv(cfg, s') && ApprovalInv(s') && Leads(cfg, s, s') && OnlyMoved(s, s', t)
    ensures s'.threads[t].Storing? && Decides(s'.threads[t], id)
  {
    if s.threads[t].Storing? {
      LeadsNowhere(cfg, s);
      s' := s;
    } else {
      s' := DecisionForms(cfg, s, t, s.threads[t].approval.parentExp);
      LeadsApprovals(cfg, s, s');
    }
  }

  lemma StoresGrant(cfg: Config, s: System, t: nat) returns (s': System, j: Jti)
    requires SystemInv(cfg, s) && ApprovalInv(s) && t in s.threads && s.threads[t].Storing? && s.threads[t].after.Some?
    ensures Leads(cfg, s, s') && j !in s.grants && s'.grants == s.grants[j := s.threads[t].after.value.approvalId]
    ensures t in s'.threads && s'.threads == s.threads[t := s'.threads[t]] && s'.store.revoked == s.store.revoked
  {
    j := s.threads[t].meta.jti;
    assert ThreadOk(cfg, s.store, s.threads[t], s.began[t]);
    s' := StepOn(cfg, s, t);
  }

  /** With a token stored for the request, any formed decision of another thread that does not name that
      token breaks the request when it stores its own or lands. */
  lemma SecondDecisionBreaks(cfg: Config, s: System, u: nat, id: string, j: Jti) returns (s': System)
    requires SystemInv(cfg, s) && ApprovalInv(s) && Granted(s.grants, j, id)
    requires u in s.threads && Decides(s.threads[u], id) && Formed(s.threads[u])
    requires Carried(s.threads[u]).value.childJti != Some(j)
    ensures Leads(cfg, s, s') && Broken(s', id)
  {
    if Completes(s.threads[u], id) {
      var k := CompletesIsGranted(s, u, id);
      LeadsNowhere(cfg, s);
      s' := s;
    } else if s.threads[u].Storing? {
      var k: Jti;
      s', k := StoresGrant(cfg, s, u);
      assert Granted(s'.grants, j, id) && Granted(s'.grants, k, id);
    } else {
      s' := RefusalLands(cfg, s, u, id);
      assert Granted(s'.grants, j, id);
    }
  }

  lemma RefusalLands(cfg: Config, s: System, u: nat, id: string) returns (s': System)
    requires ApprovalInv(s) && u in s.threads && Decides(s.threads[u], id) && s.threads[u].Writing?
    requires s.threads[u].approval.status != Approved
    ensures Leads(cfg, s, s') && s'.grants == s.grants && (HasStatus(s', id, Denied) || HasStatus(s', id, Expired))
  {
    assert ShapeOk(s.store, s.grants, s.threads[u]);
    s' := StepOn(cfg, s, u);
  }

  /** The same for any decision in flight: an approve that has only loaded makes up its mind first. */
  lemma AnyDecisionBreaks(cfg: Config, s: System, u: nat, id: string, j: Jti) returns (s': System)
    requires SystemInv(cfg, s) && ApprovalInv(s) && Granted(s.grants, j, id)
    requires u in s.threads && Decides(s.threads[u], id)
    requires Formed(s.threads[u]) ==> Carried(s.threads[u]).value.childJti != Some(j)
    ensures Leads(cfg, s, s') && Broken(s', id)
  {
    if Formed(s.threads[u]) {
      s' := SecondDecisionBreaks(cfg, s, u, id, j);
    } else {
      var mid := DecisionForms(cfg, s, u, s.threads[u].approval.parentExp);
      LeadsApprovals(cfg, s, mid);
      FormedNamesNew(cfg, mid, u, j);
      s' := SecondDecisionBreaks(cfg, mid, u, id, j);
      LeadsThen(cfg, s, mid, s');
    }
  }

  lemma FormedNamesNew(cfg: Config, s: System, u: nat, j: Jti)
    requires SystemInv(cfg, s) && ApprovalInv(s) && u in s.threads && Formed(s.threads[u]) && j in s.grants
    requires s.threads[u].Storing? || (s.threads[u].Writing? && s.threads[u].approval.status in {Denied, Expired})
    ensures Carried(s.threads[u]).value.childJti != Some(j)
  {
    assert ShapeOk(s.store, s.grants, s.threads[u]);
    assert ThreadOk(cfg, s.store, s.threads[u], s.began[u]);
  }

  /** From every state in which a live approve overlaps another decision, some continuation breaks it. */
  lemma OverlapCanBreak(cfg: Config, s: System, id: string) returns (s': System)
    requires Arises(cfg, s) && Overlap(s, id)
    ensures Leads(cfg, s, s') && Broken(s', id)
  {
    ArisesApprovals(cfg, s);
    var t, u :| t in s.threads && u in s.threads && t != u
                && LiveApprove(s.store, s.threads[t], id) && Decides(s.threads[u], id);
    if Completes(s.threads[t], id) {
      s' := AfterCompletion(cfg, s, t, u, id);
    } else {
      s' := AfterMint(cfg, s, t, u, id);
    }
  }

  lemma AfterCompletion(cfg: Config, s: System, t: nat, u: nat, id: string) returns (s': System)
    requires Arises(cfg, s) && SystemInv(cfg, s) && ApprovalInv(s) && t in s.threads && u in s.threads && t != u
    requires Completes(s.threads[t], id) && Decides(s.threads[u], id)
    ensures Leads(cfg, s, s') && Broken(s', id)
  {
    var j := CompletesIsGranted(s, t, id);
    ArisesDistinct(cfg, s);
    assert NamesChild(s.threads[t]);
    s' := AnyDecisionBreaks(cfg, s, u, id, j);
  }

  lemma AfterMint(cfg: Config, s: System, t: nat, u: nat, id: string) returns (s': System)
    requires SystemInv(cfg, s) && ApprovalInv(s) && t in s.threads && u in s.threads && t != u
    requires LiveApprove(s.store, s.threads[t], id) && !Completes(s.threads[t], id) && Decides(s.threads[u], id)
    ensures Leads(cfg, s, s') && Broken(s', id)
  {
    var mid, j := LiveApproveMints(cfg, s, t, id);
    LeadsApprovals(cfg, s, mid);
    if Formed(s.threads[u]) {
      NamesNotYetGranted(cfg, s, mid, t, u, j);
    }
    s' := AnyDecisionBreaks(cfg, mid, u, id, j);
    LeadsThen(cfg, s, mid, s');
  }

  /** The token that t has just stored is not the one that u names. */
  lemma NamesNotYetGranted(cfg: Config, s: System, mid: System, t: nat, u: nat, j: Jti)
    requires SystemInv(cfg, mid) && ApprovalInv(s) && ApprovalInv(mid) && u in s.threads && u in mid.threads
    requires mid.threads[u] == s.threads[u] && Formed(s.threads[u]) && j !in s.grants && j in mid.grants
    ensures Carried(s.threads[u]).value.childJti != Some(j)
  {
    assert ShapeOk(s.store, s.grants, s.threads[u]) && ShapeOk(mid.store, mid.grants, mid.threads[u]);
    assert ThreadOk(cfg, mid.store, mid.threads[u], mid.began[u]);
  }

  /**
   So whenever a request is pending in time under an unrevoked parent, two approvals that both load it
   before either decides it can store two tokens for it.
   */
  lemma OverlappingApprovalsMintTwice(cfg: Config, s: System, id: string, now: Time, approver: string, t: nat, u: nat)
    returns (s': System, j: Jti, k: Jti)
    requires Arises(cfg, s) && PendingInTime(s, id, now) && s.store.approvals[id].parentJti !in s.store.revoked
    requires t != u && t !in s.threads && u !in s.threads
    ensures Leads(cfg, s, s') && j != k && Granted(s'.grants, j, id) && Granted(s'.grants, k, id)
  {
    ArisesApprovals(cfg, s);
    var s2 := BothLoad(cfg, s, id, now, approver, t, u);
    LeadsApprovals(cfg, s, s2);
    var s3: System;
    s3, j := LiveApproveMints(cfg, s2, t, id);
    LeadsApprovals(cfg, s2, s3);
    s', k := LiveApproveMints(cfg, s3, u, id);
    LeadsThen(cfg, s, s2, s3);
    LeadsThen(cfg, s, s3, s');
  }

  lemma BothLoad(cfg: Config, s: System, id: string, now: Time, approver: string, t: nat, u: nat) returns (s2: System)
    requires RecordsOk(s.store, s.grants) && PendingInTime(s, id, now)
    requires t != u && t !in s.threads && u !in s.threads
    ensures Leads(cfg, s, s2) && s2.store == s.store && s2.grants == s.grants
    ensures var th := Loaded(s.store.approvals[id], approver);
            s2.threads == s.threads[t := th][u := th] && Decides(th, id)
  {
    var s1 := Do(cfg, s, StartApprove(t, id, now, approver));
    LeadsOneStep(cfg, s, StartApprove(t, id, now, approver));
    s2 := Do(cfg, s1, StartApprove(u, id, now, approver));
    LeadsOneMore(cfg, s, s1, StartApprove(u, id, now, approver));
  }
}
