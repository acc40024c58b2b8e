/**
 When a revoke takes in the whole subtree although other operations interleave with it.

 `revoke` walks the edges, and records what the walk returned with a later storage call.  A mint that
 is in flight meanwhile may end below the revoked token without being recorded.
 */
module InterleavedRevocation {
  import opened Core
  import opened Tokens
  import opened Lineage
  import opened Records
  import opened Storage
  import opened Walk
  import opened Authority
  import opened AuthorityInvariant
  import opened Interleaving

  // ------------------------------------------------------------------
  // The exact condition, at any moment after j is recorded
  // ------------------------------------------------------------------

  /** Every stored token in the subtree of j is itself in the revoked set. */
  ghost predicate SubtreeRevoked(st: Store, j: Jti) {
    forall x :: x in st.tokens && InSubtree(st.tokens, j, x) ==> x in st.revoked
  }

  ghost predicate AlwaysRevokedBelow(cfg: Config, s: System, j: Jti) {
    forall s' :: Leads(cfg, s, s') ==> SubtreeRevoked(s'.store, j)
  }

  predicate ClearFrom(c: Claims, n: nat, revoked: set<Jti>) {
    forall i :: n <= i < |Path(c)| ==> Path(c)[i] !in revoked
  }

  /** What `delegate` still has to find after its lookups of the presented token. */
  predicate Mintable(cfg: Config, st: Store, c: Claims, r: Request) {
    && c.rootJti !in st.revoked && r.scopes <= c.scopes && c.depth + 1 <= c.maxDepth
    && r.scopes * cfg.sensitive == {}
  }

  /** Nothing recorded so far will keep this thread from storing an unrevoked token below j. */
  predicate Armed(cfg: Config, st: Store, th: Thread, j: Jti) {
    match th
    case Storing(m, _) => j in Jtis(m.chain) && m.jti !in st.revoked
    case Checking(c, r, n) => j in Path(c) && ClearFrom(c, n, st.revoked.Keys) && Mintable(cfg, st, c, r)
    case FindingRoot(c, r) => j in Path(c) && Mintable(cfg, st, c, r)
    case CheckingRoot(c, r) => j in Path(c) && Mintable(cfg, st, c, r)
    case _ => false
  }

  ghost predicate SomeArmed(cfg: Config, s: System, j: Jti) {
    exists t :: t in s.threads && Armed(cfg, s.store, s.threads[t], j)
  }

  ghost predicate Sealed(cfg: Config, s: System, j: Jti) {
    j in s.store.revoked && SubtreeRevoked(s.store, j) && !SomeArmed(cfg, s, j)
  }

  lemma StillUnarmed(cfg: Config, a: Store, b: Store, th: Thread, j: Jti)
    requires a.revoked.Keys <= b.revoked.Keys && Armed(cfg, b, th, j)
    ensures Armed(cfg, a, th, j)
  {
  }

  /** Thread t moves on, unarmed; no thread becomes armed by a growing revoked set. */
  lemma MoveUnarmed(cfg: Config, s: System, t: nat, s': System, j: Jti)
    requires !SomeArmed(cfg, s, j) && s.store.revoked.Keys <= s'.store.revoked.Keys
    requires t in s'.threads && s'.threads == s.threads[t := s'.threads[t]]
    requires !Armed(cfg, s'.store, s'.threads[t], j)
    ensures !SomeArmed(cfg, s', j)
  {
    forall u | u in s'.threads
      ensures !Armed(cfg, s'.store, s'.threads[u], j)
    {
      if u != t && Armed(cfg, s'.store, s'.threads[u], j) {
        StillUnarmed(cfg, s.store, s'.store, s'.threads[u], j);
      }
    }
  }

  lemma ChildChain(cfg: Config, now: Time, c: Claims, r: Request)
    ensures var child := GrantedChild(cfg, now, c, r);
            child.jti == r.freshJti && Jtis(child.chain) == Jtis(c.chain) + [c.jti]
  {
  }

  lemma ApprovedChain(cfg: Config, pm: TokenMeta, a: Approval, approver: string, now: Time, jti: Jti)
    ensures var m := ApproveMint(cfg, pm, a, approver, now, jti).meta;
            m.jti == jti && Jtis(m.chain) == Jtis(pm.chain) + [pm.jti]
  {
  }

  lemma CheckingStaysUnarmed(cfg: Config, st: Store, c: Claims, r: Request, n: nat, now: Time, uuid: string, j: Jti)
    requires !Armed(cfg, st, Checking(c, r, n), j) && n <= |Path(c)|
    ensures !Armed(cfg, st, StorageCall(cfg, st, Checking(c, r, n), now, uuid).1, j)
  {
    if n < |Path(c)| && Path(c)[n] !in st.revoked {
      assert ClearFrom(c, n + 1, st.revoked.Keys) ==> ClearFrom(c, n, st.revoked.Keys);
    }
  }

  lemma CheckingRootStaysUnarmed(cfg: Config, st: Store, c: Claims, r: Request, now: Time, uuid: string, j: Jti)
    requires !Armed(cfg, st, CheckingRoot(c, r), j)
    ensures !Armed(cfg, st, StorageCall(cfg, st, CheckingRoot(c, r), now, uuid).1, j)
  {
    ChildChain(cfg, now, c, r.(freshJti := uuid));
  }

  /** An approve below j finds its own parent revoked, so what it stores is not below j. */
  lemma FoundParentStaysUnarmed(cfg: Config, st: Store, a: Approval, approver: string, now: Time, uuid: string, j: Jti)
    requires Forest(st.tokens, cfg.maxTtl) && SubtreeRevoked(st, j)
    ensures !Armed(cfg, st, StorageCall(cfg, st, FoundParent(a, approver), now, uuid).1, j)
  {
    FoundParentBecomes(cfg, st, a, approver, now, uuid);
    if StorageCall(cfg, st, FoundParent(a, approver), now, uuid).1.Storing? {
      UnrevokedIsNotBelow(cfg, st, a.parentJti, j);
      NotBelowIsUnarmed(cfg, st, a, approver, now, uuid, j);
    }
  }

  lemma UnrevokedIsNotBelow(cfg: Config, st: Store, p: Jti, j: Jti)
    requires Forest(st.tokens, cfg.maxTtl) && SubtreeRevoked(st, j) && p in st.tokens && p !in st.revoked
    ensures !InSubtree(st.tokens, j, p) && st.tokens[p].jti == p
  {
    assert WellPlaced(st.tokens, cfg.maxTtl, p);
  }

  lemma FoundParentBecomes(cfg: Config, st: Store, a: Approval, approver: string, now: Time, uuid: string)
    ensures var th := StorageCall(cfg, st, FoundParent(a, approver), now, uuid).1;
            || th.Writing? || th.Finished?
            || (a.parentJti !in st.revoked && a.parentJti in st.tokens
                && th == ApproveMint(cfg, st.tokens[a.parentJti], a, approver, now, uuid))
  {
  }

  lemma NotBelowIsUnarmed(cfg: Config, st: Store, a: Approval, approver: string, now: Time, uuid: string, j: Jti)
    requires a.parentJti in st.tokens && st.tokens[a.parentJti].jti == a.parentJti
    requires !InSubtree(st.tokens, j, a.parentJti)
    ensures !Armed(cfg, st, ApproveMint(cfg, st.tokens[a.parentJti], a, approver, now, uuid), j)
  {
    ApprovedChain(cfg, st.tokens[a.parentJti], a, approver, now, uuid);
  }

  /** A call that only looks leaves its thread unarmed. */
  lemma LookStaysUnarmed(cfg: Config, st: Store, th: Thread, began: set<Jti>, now: Time, uuid: string, j: Jti)
    requires Forest(st.tokens, cfg.maxTtl) && ThreadOk(cfg, st, th, began)
    requires SubtreeRevoked(st, j) && !Armed(cfg, st, th, j) && Looks(th)
    ensures !Armed(cfg, st, StorageCall(cfg, st, th, now, uuid).1, j)
  {
    match th
    case Checking(c, r, n) => CheckingStaysUnarmed(cfg, st, c, r, n, now, uuid, j);
    case CheckingRoot(c, r) => CheckingRootStaysUnarmed(cfg, st, c, r, now, uuid, j);
    case FoundParent(a, approver) => FoundParentStaysUnarmed(cfg, st, a, approver, now, uuid, j);
    case _ =>
  }

  lemma StoreStaysRevokedBelow(st: Store, m: TokenMeta, j: Jti)
    requires j in st.revoked && SubtreeRevoked(st, j) && m.jti !in st.tokens
    requires j in Jtis(m.chain) ==> m.jti in st.revoked
    ensures SubtreeRevoked(PutToken(st, m), j)
  {
    var st' := PutToken(st, m);
    forall x | x in st'.tokens && InSubtree(st'.tokens, j, x)
      ensures x in st'.revoked
    {
      if x != m.jti {
        assert InSubtree(st.tokens, j, x);
      }
    }
  }

  /** What one storage call of an unarmed thread leaves behind. */
  ghost predicate CallSealed(cfg: Config, st: Store, th: Thread, now: Time, uuid: string, j: Jti) {
    var (st', th') := StorageCall(cfg, st, th, now, uuid);
    st.revoked.Keys <= st'.revoked.Keys && SubtreeRevoked(st', j) && !Armed(cfg, st', th', j)
  }

  lemma CallStaysSealed(cfg: Config, st: Store, th: Thread, began: set<Jti>, now: Time, uuid: string, j: Jti)
    requires Forest(st.tokens, cfg.maxTtl) && ThreadOk(cfg, st, th, began)
    requires j in st.revoked && SubtreeRevoked(st, j) && !Armed(cfg, st, th, j)
    ensures CallSealed(cfg, st, th, now, uuid, j)
  {
    if Looks(th) {
      LookStaysUnarmed(cfg, st, th, began, now, uuid, j);
      LookLeavesStore(cfg, st, th, now, uuid);
    } else if th.Storing? {
      StoreStaysRevokedBelow(st, th.meta, j);
    } else {
      WriteStaysSealed(cfg, st, th, now, uuid, j);
    }
  }

  lemma WriteStaysSealed(cfg: Config, st: Store, th: Thread, now: Time, uuid: string, j: Jti)
    requires SubtreeRevoked(st, j) && !Looks(th) && !th.Storing?
    ensures CallSealed(cfg, st, th, now, uuid, j)
  {
    var (st', th') := StorageCall(cfg, st, th, now, uuid);
    assert st'.tokens == st.tokens && st.revoked.Keys <= st'.revoked.Keys;
    assert th'.Writing? || th'.Logging? || th'.Finished?;
  }

  lemma AdvanceStaysSealed(cfg: Config, s: System, t: nat, now: Time, uuid: string, j: Jti)
    requires SystemInv(cfg, s) && Sealed(cfg, s, j) && t in s.threads
    ensures Sealed(cfg, Do(cfg, s, Advance(t, now, uuid)), j)
  {
    var s', th := Do(cfg, s, Advance(t, now, uuid)), s.threads[t];
    assert ThreadOk(cfg, s.store, th, s.began[t]) && !Armed(cfg, s.store, th, j);
    CallStaysSealed(cfg, s.store, th, s.began[t], now, uuid, j);
    MoveUnarmed(cfg, s, t, s', j);
  }

  lemma RootPutStaysSealed(cfg: Config, s: System, c: Claims, j: Jti)
    requires Sealed(cfg, s, j) && FreshIn(s, c.jti) && IsRoot(MetaOf(c, None), cfg.maxTtl)
    ensures Sealed(cfg, RootPut(s, c), j)
  {
    var s' := RootPut(s, c);
    StoreStaysRevokedBelow(s.store, MetaOf(c, None), j);
    forall t | t in s'.threads
      ensures !Armed(cfg, s'.store, s'.threads[t], j)
    {
      assert !Armed(cfg, s.store, s.threads[t], j);
    }
  }

  /** Whatever starts, starts unarmed. */
  lemma StartedUnarmed(cfg: Config, s: System, step: Step, j: Jti)
    requires Sealed(cfg, s, j) && Enabled(cfg, s, step) && !step.Advance?
    ensures !Armed(cfg, Base(s, step).store, Started(s, step), j)
  {
    if step.StartDelegate? && j in Path(step.c) {
      assert InSubtree(s.store.tokens, j, step.c.jti);
      assert Path(step.c)[0] == step.c.jti;
    }
  }

  lemma BeginStaysSealed(cfg: Config, s: System, t: nat, th: Thread, j: Jti)
    requires Sealed(cfg, s, j) && !Armed(cfg, s.store, th, j)
    ensures Sealed(cfg, Begin(s, t, th), j)
  {
    MoveUnarmed(cfg, s, t, Begin(s, t, th), j);
  }

  lemma StepStaysSealed(cfg: Config, s: System, step: Step, j: Jti)
    requires SystemInv(cfg, s) && Sealed(cfg, s, j) && Enabled(cfg, s, step)
    ensures Sealed(cfg, Do(cfg, s, step), j)
  {
    if step.Advance? {
      AdvanceStaysSealed(cfg, s, step.t, step.now, step.uuid, j);
    } else {
      StartBegins(cfg, s, step);
      StartedUnarmed(cfg, s, step, j);
      if step.StartRoot? {
        RootPutStaysSealed(cfg, s, step.c, j);
      }
      BeginStaysSealed(cfg, Base(s, step), step.t, Started(s, step), j);
    }
  }

  lemma {:induction false} RunStaysSealed(cfg: Config, s: System, steps: seq<Step>, s': System, j: Jti)
    requires SystemInv(cfg, s) && Sealed(cfg, s, j) && Runs(cfg, s, steps, s')
    ensures Sealed(cfg, s', j)
    decreases |steps|
  {
    if steps != [] {
      StepKeepsSystem(cfg, s, steps[0]);
      StepStaysSealed(cfg, s, steps[0], j);
      RunStaysSealed(cfg, Do(cfg, s, steps[0]), steps[1..], s', j);
    }
  }

  // ------------------------------------------------------------------
  // An armed thread does store its token
  // ------------------------------------------------------------------

  /** s' differs from s in where thread t stands, and in nothing that is stored. */
  ghost predicate OnlyMoved(s: System, s': System, t: nat) {
    s'.store == s.store && t in s'.threads && s'.threads == s.threads[t := s'.threads[t]]
  }

  lemma StepMoved(cfg: Config, s: System, mid: System, t: nat, now: Time, uuid: string) returns (s': System)
    requires Leads(cfg, s, mid) && OnlyMoved(s, mid, t) && FreshIn(s, uuid)
    requires !mid.threads[t].Storing? && !mid.threads[t].Parking? && Looks(mid.threads[t])
    requires SystemInv(cfg, s)
    ensures Leads(cfg, s, s') && OnlyMoved(s, s', t)
    ensures s'.threads[t] == StorageCall(cfg, s.store, mid.threads[t], now, uuid).1
  {
    s' := Do(cfg, mid, Advance(t, now, uuid));
    LeadsOneMore(cfg, s, mid, Advance(t, now, uuid));
    assert StorageCall(cfg, s.store, mid.threads[t], now, uuid).0 == s.store;
  }

  /** The lookups of a delegate that finds nothing revoked. */
  lemma {:induction false} LookupsPass(cfg: Config, s: System, mid: System, t: nat, c: Claims, r: Request, n: nat, uuid: string)
    returns (s': System)
    requires SystemInv(cfg, s) && Leads(cfg, s, mid) && OnlyMoved(s, mid, t) && FreshIn(s, uuid)
    requires n <= |Path(c)| && mid.threads[t] == Checking(c, r, n) && ClearFrom(c, n, s.store.revoked.Keys)
    ensures Leads(cfg, s, s') && OnlyMoved(s, s', t) && s'.threads[t] == FindingRoot(c, r)
    decreases |Path(c)| - n
  {
    s' := StepMoved(cfg, s, mid, t, 0, uuid);
    if n < |Path(c)| {
      s' := LookupsPass(cfg, s, s', t, c, r, n + 1, uuid);
    }
  }

  lemma RootIsStored(cfg: Config, s: System, c: Claims)
    requires SystemInv(cfg, s) && Presentable(cfg, s.store.tokens, c)
    ensures c.rootJti in s.store.tokens && s.store.tokens[c.rootJti].depth == 0
  {
    RootOf(s.store.tokens, cfg.maxTtl, c.jti);
  }

  lemma RootPasses(cfg: Config, s: System, mid: System, t: nat, c: Claims, r: Request, uuid: string)
    returns (s': System)
    requires SystemInv(cfg, s) && Leads(cfg, s, mid) && OnlyMoved(s, mid, t) && FreshIn(s, uuid)
    requires mid.threads[t] == FindingRoot(c, r) && Presentable(cfg, s.store.tokens, c)
    ensures Leads(cfg, s, s') && OnlyMoved(s, s', t) && s'.threads[t] == CheckingRoot(c, r)
  {
    RootIsStored(cfg, s, c);
    s' := StepMoved(cfg, s, mid, t, s.store.tokens[c.rootJti].expiresAt, uuid);
  }

  /** From wherever an armed thread stands to its put_token. */
  lemma ArmedReachesStoring(cfg: Config, s: System, t: nat, j: Jti, uuid: string) returns (s': System)
    requires SystemInv(cfg, s) && t in s.threads && Armed(cfg, s.store, s.threads[t], j) && FreshIn(s, uuid)
    ensures Leads(cfg, s, s') && OnlyMoved(s, s', t)
    ensures s'.threads[t].Storing? && Armed(cfg, s.store, s'.threads[t], j)
  {
    var th := s.threads[t];
    assert ThreadOk(cfg, s.store, th, s.began[t]);
    LeadsNowhere(cfg, s);
    s' := s;
    if !th.Storing? {
      if th.Checking? {
        s' := LookupsPass(cfg, s, s', t, th.c, th.request, th.next, uuid);
      }
      if !th.CheckingRoot? {
        s' := RootPasses(cfg, s, s', t, th.c, th.request, uuid);
      }
      s' := StepMoved(cfg, s, s', t, 0, uuid);
      ChildChain(cfg, 0, th.c, th.request.(freshJti := uuid));
    }
  }

  /** The put_token of an armed thread: an unrevoked token below j. */
  lemma ArmedStores(cfg: Config, s: System, t: nat, j: Jti) returns (s': System, x: Jti)
    requires SystemInv(cfg, s) && t in s.threads && s.threads[t].Storing? && Armed(cfg, s.store, s.threads[t], j)
    ensures Leads(cfg, s, s') && s'.store.revoked == s.store.revoked
    ensures x in s'.store.tokens && x !in s'.store.revoked && j in Jtis(s'.store.tokens[x].chain)
  {
    s' := StepOn(cfg, s, t);
    x := s.threads[t].meta.jti;
  }

  lemma ArmedLeaks(cfg: Config, s: System, t: nat, j: Jti) returns (s': System, x: Jti)
    requires Arises(cfg, s) && t in s.threads && Armed(cfg, s.store, s.threads[t], j)
    ensures Leads(cfg, s, s') && s'.store.revoked == s.store.revoked
    ensures x in s'.store.tokens && x !in s'.store.revoked && j in Jtis(s'.store.tokens[x].chain)
  {
    ArisesInv(cfg, s);
    var uuid := UnusedIn(s);
    var mid := ArmedReachesStoring(cfg, s, t, j, uuid);
    LeadsThen(cfg, START, s, mid);
    ArisesInv(cfg, mid);
    s', x := ArmedStores(cfg, mid, t, j);
    LeadsThen(cfg, s, mid, s');
  }

  /**
   Once j is recorded, every token in its subtree is and stays revoked in every continuation, if and
   only if every stored one is and no thread is armed below j.
   */
  lemma StaysRevokedBelowIff(cfg: Config, s: System, j: Jti)
    requires Arises(cfg, s) && j in s.store.revoked
    ensures AlwaysRevokedBelow(cfg, s, j) <==> SubtreeRevoked(s.store, j) && !SomeArmed(cfg, s, j)
  {
    ArisesInv(cfg, s);
    if Sealed(cfg, s, j) {
      forall s' | Leads(cfg, s, s')
        ensures SubtreeRevoked(s'.store, j)
      {
        var steps :| Runs(cfg, s, steps, s');
        RunStaysSealed(cfg, s, steps, s', j);
      }
    } else if AlwaysRevokedBelow(cfg, s, j) {
      LeadsNowhere(cfg, s);
      var t :| t in s.threads && Armed(cfg, s.store, s.threads[t], j);
      var s', x := ArmedLeaks(cfg, s, t, j);
      assert SubtreeRevoked(s'.store, j) && InSubtree(s'.store.tokens, j, x);
      assert false;
    }
  }

  // ------------------------------------------------------------------
  // The same, for a whole revoke
  // ------------------------------------------------------------------

  /** A mint below j is about to store its token or to store its edge. */
  predicate Mints(th: Thread, j: Jti) {
    (th.Storing? || th.Linking?) && j in Jtis(th.meta.chain)
  }

  ghost predicate NoMintBelow(s: System, j: Jti) {
    forall t :: t in s.threads ==> !Mints(s.threads[t], j)
  }

  ghost predicate NoDelegateBelow(s: System, j: Jti) {
    forall t :: t in s.threads ==>
      var th := s.threads[t];
      !((th.Checking? || th.FindingRoot? || th.CheckingRoot?) && j in Path(th.c))
  }

  /** A run in whose every state no mint below j is at its storage calls. */
  ghost predicate RunsQuietly(cfg: Config, s: System, steps: seq<Step>, s': System, j: Jti)
    decreases |steps|
  {
    NoMintBelow(s, j)
    && if steps == [] then s' == s
       else Enabled(cfg, s, steps[0]) && RunsQuietly(cfg, Do(cfg, s, steps[0]), steps[1..], s', j)
  }

  /** The stored subtree of j lies within the targets of the walk. */
  ghost predicate Covers(s: System, j: Jti, targets: seq<Jti>) {
    forall x :: x in s.store.tokens && InSubtree(s.store.tokens, j, x) ==> x in targets
  }

  lemma StoreStaysWithin(s: System, m: TokenMeta, j: Jti, targets: seq<Jti>, s': System)
    requires Covers(s, j, targets) && j in targets && m.jti !in s.store.tokens && j !in Jtis(m.chain)
    requires s'.store.tokens == s.store.tokens[m.jti := m]
    ensures Covers(s', j, targets)
  {
    forall x | x in s'.store.tokens && InSubtree(s'.store.tokens, j, x)
      ensures x in targets
    {
      if x != m.jti {
        assert InSubtree(s.store.tokens, j, x);
      }
    }
  }

  lemma CallLeavesTokens(cfg: Config, st: Store, th: Thread, now: Time, uuid: string)
    requires !th.Storing?
    ensures StorageCall(cfg, st, th, now, uuid).0.tokens == st.tokens
  {
  }

  lemma StepStaysWithin(cfg: Config, s: System, step: Step, j: Jti, targets: seq<Jti>)
    requires SystemInv(cfg, s) && Enabled(cfg, s, step) && NoMintBelow(s, j)
    requires Covers(s, j, targets) && j in targets
    ensures Covers(Do(cfg, s, step), j, targets)
  {
    var s' := Do(cfg, s, step);
    if step.StartRoot? {
      StoreStaysWithin(s, MetaOf(step.c, None), j, targets, s');
    } else if step.Advance? {
      var th := s.threads[step.t];
      if th.Storing? {
        assert ThreadOk(cfg, s.store, th, s.began[step.t]) && !Mints(th, j);
        StoreStaysWithin(s, th.meta, j, targets, s');
      } else {
        CallLeavesTokens(cfg, s.store, th, step.now, step.uuid);
      }
    } else {
      assert s'.store == s.store;
    }
  }

  /** A revoke keeps the targets of its walk until it has recorded them. */
  predicate StillWalked(s: System, t: nat, j: Jti, targets: seq<Jti>) {
    t in s.threads && (s.threads[t] == Walked(j, targets) || s.threads[t].Logging? || s.threads[t].Finished?)
  }

  lemma StepStillWalked(cfg: Config, s: System, step: Step, t: nat, j: Jti, targets: seq<Jti>)
    requires Enabled(cfg, s, step) && StillWalked(s, t, j, targets)
    ensures StillWalked(Do(cfg, s, step), t, j, targets)
  {
  }

  lemma {:induction false} RunStaysWithin(cfg: Config, s: System, steps: seq<Step>, s': System, t: nat, j: Jti, targets: seq<Jti>)
    requires SystemInv(cfg, s) && RunsQuietly(cfg, s, steps, s', j)
    requires Covers(s, j, targets) && j in targets && StillWalked(s, t, j, targets)
    ensures SystemInv(cfg, s') && NoMintBelow(s', j) && Covers(s', j, targets) && StillWalked(s', t, j, targets)
    ensures Leads(cfg, s, s')
    decreases |steps|
  {
    LeadsNowhere(cfg, s);
    if steps != [] {
      var mid := Do(cfg, s, steps[0]);
      StepKeepsSystem(cfg, s, steps[0]);
      StepStaysWithin(cfg, s, steps[0], j, targets);
      StepStillWalked(cfg, s, steps[0], t, j, targets);
      RunStaysWithin(cfg, mid, steps[1..], s', t, j, targets);
      LeadsOneStep(cfg, s, steps[0]);
      LeadsThen(cfg, s, mid, s');
    }
  }

  lemma WalkIsWithin(cfg: Config, s: System, j: Jti)
    requires Arises(cfg, s) && NoMintBelow(s, j)
    ensures Covers(s, j, DescendantsOf(s.store, j)) && j in DescendantsOf(s.store, j)
  {
    assert !HalfMintedBelow(s, j) by {
      assert forall t :: t in s.threads ==> !Mints(s.threads[t], j);
    }
    WalkIsCompleteIff(cfg, s, j);
    assert InSubtree(s.store.tokens, j, j);
  }

  /** The record, made of a walk that covers the stored subtree. */
  lemma RecordSeals(cfg: Config, s: System, t: nat, now: Time, uuid: string, j: Jti, targets: seq<Jti>)
    requires t in s.threads && s.threads[t] == Walked(j, targets) && j in targets
    requires Covers(s, j, targets) && NoMintBelow(s, j) && NoDelegateBelow(s, j)
    ensures Sealed(cfg, Do(cfg, s, Advance(t, now, uuid)), j)
  {
    var s' := Do(cfg, s, Advance(t, now, uuid));
    assert s'.store == RevokeMany(s.store, targets, j, now) && s'.threads == s.threads[t := s'.threads[t]];
    forall u | u in s'.threads
      ensures !Armed(cfg, s'.store, s'.threads[u], j)
    {
      if u != t {
        assert !Mints(s.threads[u], j);
      }
    }
    forall x | x in s'.store.tokens && InSubtree(s'.store.tokens, j, x)
      ensures x in s'.store.revoked
    {
      assert InSubtree(s.store.tokens, j, x);
      assert x in Elements(targets);
    }
    assert j in Elements(targets);
  }

  /**
   A revoke of j takes in the whole subtree for good if, from its walk to its record, no mint below j
   is at its storage calls, and at the record no delegate below j is between its lookups.  Approvals
   may be in flight: one below j finds its parent revoked.
   */
  lemma RevokeTakesTheSubtree(cfg: Config, s: System, t: nat, j: Jti, steps: seq<Step>, s2: System, now: Time, uuid: string)
    requires Arises(cfg, s) && t !in s.threads
    requires RunsQuietly(cfg, Do(cfg, s, StartRevoke(t, j)), steps, s2, j)
    requires t in s2.threads && s2.threads[t].Walked? && NoDelegateBelow(s2, j) && FreshIn(s2, uuid)
    ensures var s3 := Do(cfg, s2, Advance(t, now, uuid));
            Arises(cfg, s3) && j in s3.store.revoked && AlwaysRevokedBelow(cfg, s3, j)
  {
    var s1, targets := Do(cfg, s, StartRevoke(t, j)), DescendantsOf(s.store, j);
    LeadsOneMore(cfg, START, s, StartRevoke(t, j));
    ArisesInv(cfg, s1);
    QuietBefore(cfg, s, t, j);
    WalkIsWithin(cfg, s, j);
    RunStaysWithin(cfg, s1, steps, s2, t, j, targets);
    LeadsThen(cfg, START, s1, s2);
    RecordSeals(cfg, s2, t, now, uuid, j, targets);
    LeadsOneMore(cfg, START, s2, Advance(t, now, uuid));
    StaysRevokedBelowIff(cfg, Do(cfg, s2, Advance(t, now, uuid)), j);
  }

  lemma QuietBefore(cfg: Config, s: System, t: nat, j: Jti)
    requires t !in s.threads && NoMintBelow(Do(cfg, s, StartRevoke(t, j)), j)
    ensures NoMintBelow(s, j)
  {
    var s1 := Do(cfg, s, StartRevoke(t, j));
    forall u | u in s.threads
      ensures !Mints(s.threads[u], j)
    {
      assert s1.threads[u] == s.threads[u];
    }
  }

  // ------------------------------------------------------------------
  // And what an unquiet revoke misses
  // ------------------------------------------------------------------

  lemma NoEdgeNoWalk(e: Edges, j: Jti, x: Jti)
    requires x != j && forall p :: !Edge(e, p, x)
    ensures !Reachable(e, j, x)
  {
    if Reachable(e, j, x) {
      var n: nat :| x in Within(e, j, n);
      var p := ReachedOverAnEdge(e, j, x, n);
      assert false;
    }
  }

  /** The walk from j does not reach a token that is about to be stored or linked. */
  lemma WalkMisses(cfg: Config, s: System, u: nat, j: Jti)
    requires Arises(cfg, s) && u in s.threads && Mints(s.threads[u], j)
    ensures s.threads[u].meta.jti !in DescendantsOf(s.store, j)
  {
    ArisesInv(cfg, s);
    ArisesLinks(cfg, s);
    var m, e := s.threads[u].meta, s.store.edges;
    assert ThreadOk(cfg, s.store, s.threads[u], s.began[u]);
    assert forall p :: Edge(e, p, m.jti) ==> ParentLink(s.store.tokens, p, m.jti);
    NewbornIsNotAbove(cfg, s, m, j);
    NoEdgeNoWalk(e, j, m.jti);
    InMemoryLists(e);
    DescendantsMeaning(e, InMemory(e), j);
  }

  lemma NewbornIsNotAbove(cfg: Config, s: System, m: TokenMeta, j: Jti)
    requires Forest(s.store.tokens, cfg.maxTtl) && j in Jtis(m.chain)
    requires m.parentJti.Some? && m.parentJti.value in s.store.tokens
    requires IsChild(s.store.tokens[m.parentJti.value], m)
    requires m.jti in s.store.tokens ==> s.store.tokens[m.jti] == m
    ensures m.jti != j
  {
    if m.jti in s.store.tokens {
      NotInOwnChain(s.store.tokens, cfg.maxTtl, m.jti, j);
    } else {
      var p := m.parentJti.value;
      assert WellPlaced(s.store.tokens, cfg.maxTtl, p);
      JtisOfExtended(s.store.tokens[p].chain, m.chain);
      if j != p {
        var i :| 0 <= i < |s.store.tokens[p].chain| && Jtis(s.store.tokens[p].chain)[i] == j;
        Ancestor(s.store.tokens, cfg.maxTtl, p, i);
      }
    }
  }

  /**
   If a mint below j is at its storage calls when a revoke of j walks, and its token is not revoked
   already, the revoke can end with j revoked and that token stored below it and not revoked.
   */
  lemma UnquietRevokeMisses(cfg: Config, s: System, t: nat, u: nat, j: Jti, now: Time) returns (s': System)
    requires Arises(cfg, s) && t !in s.threads && u in s.threads && Mints(s.threads[u], j)
    requires s.threads[u].meta.jti !in s.store.revoked
    ensures Leads(cfg, Do(cfg, s, StartRevoke(t, j)), s') && j in s'.store.revoked
    ensures var m := s.threads[u].meta;
            && m.jti in s'.store.tokens && s'.store.tokens[m.jti] == m
            && InSubtree(s'.store.tokens, j, m.jti) && m.jti !in s'.store.revoked
  {
    ArisesInv(cfg, s);
    assert ThreadOk(cfg, s.store, s.threads[u], s.began[u]);
    WalkMisses(cfg, s, u, j);
    StartIsTarget(s.store, j);
    s' := RecordAtOnce(cfg, s, t, u, j, now);
    if s.threads[u].Storing? {
      s' := StoreAfterwards(cfg, Do(cfg, s, StartRevoke(t, j)), s', u);
    }
  }

  lemma RecordAtOnce(cfg: Config, s: System, t: nat, u: nat, j: Jti, now: Time) returns (s2: System)
    requires t !in s.threads && u in s.threads
    ensures Leads(cfg, Do(cfg, s, StartRevoke(t, j)), s2)
    ensures s2.store == RevokeMany(s.store, DescendantsOf(s.store, j), j, now)
    ensures u in s2.threads && s2.threads[u] == s.threads[u]
  {
    s2 := RecordsTargets(cfg, Do(cfg, s, StartRevoke(t, j)), t, j, DescendantsOf(s.store, j), now);
  }

  lemma RecordsTargets(cfg: Config, s1: System, t: nat, j: Jti, targets: seq<Jti>, now: Time) returns (s2: System)
    requires t in s1.threads && s1.threads[t] == Walked(j, targets)
    ensures Leads(cfg, s1, s2) && s2.store == RevokeMany(s1.store, targets, j, now)
    ensures t in s2.threads && s2.threads == s1.threads[t := s2.threads[t]]
  {
    var uuid := UnusedIn(s1);
    s2 := Do(cfg, s1, Advance(t, now, uuid));
    LeadsOneStep(cfg, s1, Advance(t, now, uuid));
  }

  lemma StoreAfterwards(cfg: Config, s1: System, s2: System, u: nat) returns (s': System)
    requires Leads(cfg, s1, s2) && u in s2.threads && s2.threads[u].Storing?
    ensures Leads(cfg, s1, s') && s'.store == PutToken(s2.store, s2.threads[u].meta)
  {
    s' := StepOn(cfg, s2, u);
    LeadsThen(cfg, s1, s2, s');
  }

  lemma StartIsTarget(st: Store, j: Jti)
    ensures j in DescendantsOf(st, j)
  {
    InMemoryLists(st.edges);
    DescendantsMeaning(st.edges, InMemory(st.edges), j);
  }

  /**
   Such a state does arise: a delegate that has passed its lookups is overtaken by the whole revoke of
   its root, and only the signed chain still connects its token to the revoked set.
   */
  lemma WalkMissesALateMint(cfg: Config, scope: Scope) returns (s: System, child: Jti, root: Jti)
    requires ValidConfig(cfg) && scope !in cfg.sensitive
    ensures Arises(cfg, s) && root in s.store.revoked
    ensures child in s.store.tokens && child !in s.store.revoked && root in Jtis(s.store.tokens[child].chain)
  {
    root := "root";
    var c := MintRoot(cfg.issuer, root, "human", {scope}, cfg.maxTtl, 1, 0);
    var r := Request(Encoded(c), "agent", "agent", {scope}, 0, false, "", "");
    var s2 := DelegateOnRoot(cfg, c, r);
    assert Path(c)[0] == root;
    ArisesInv(cfg, s2);
    assert Armed(cfg, s2.store, s2.threads[0], root);
    var uuid := UnusedIn(s2);
    var s3 := ArmedReachesStoring(cfg, s2, 0, root, uuid);
    LeadsThen(cfg, START, s2, s3);
    child := s3.threads[0].meta.jti;
    s := UnquietRevokeMisses(cfg, s3, 1, 0, root, 0);
    LeadsOneMore(cfg, START, s3, StartRevoke(1, root));
    LeadsThen(cfg, START, Do(cfg, s3, StartRevoke(1, root)), s);
  }

  lemma DelegateOnRoot(cfg: Config, c: Claims, r: Request) returns (s: System)
    requires IsRoot(MetaOf(c, None), cfg.maxTtl) && ClaimsOf(cfg.issuer, MetaOf(c, None)) == c && r.scopes != {}
    ensures Arises(cfg, s) && s.store == PutToken(EMPTY, MetaOf(c, None)) && s.threads.Keys == {0, 2} && s.threads[0] == Checking(c, r, 0)
  {
    LeadsNowhere(cfg, START);
    var s1 := Do(cfg, START, StartRoot(2, c));
    LeadsOneMore(cfg, START, START, StartRoot(2, c));
    s := Do(cfg, s1, StartDelegate(0, c, r));
    LeadsOneMore(cfg, START, s1, StartDelegate(0, c, r));
  }
}
