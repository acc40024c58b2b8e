/**
 Concurrent operations at the grain of single storage calls.

 `Firewall` takes no lock of its own while every `MemoryStorage` method takes one, so the calls of
 concurrent `delegate`, `approve`, `revoke` and `verify` may interleave in any order.  Each step
 below is one storage call together with the local work up to the next one.  There are two history
 variables: `began` is what was revoked when a thread started, and `grants` names the request that a
 stored token was minted for.

 A capability leaves the firewall only after its record is stored, so a token can be presented
 exactly when the stored record rebuilds its claims.
 */
module Interleaving {
  import opened Core
  import opened Tokens
  import opened Lineage
  import opened Records
  import opened Storage
  import opened Walk
  import opened Authority
  import opened AuthorityInvariant

  datatype Verdict = Accepted | FoundRevoked(jti: Jti) | ScopeMissing

  datatype Thread =
    // verify: is_revoked on the token, then on each ancestor
    | Verifying(c: Claims, scope: Scope, next: nat)
    | Verified(c: Claims, scope: Scope, verdict: Verdict)
    // delegate: is_revoked as above, get_token(root), is_revoked(root)
    | Checking(c: Claims, request: Request, next: nat)
    | FindingRoot(c: Claims, request: Request)
    | CheckingRoot(c: Claims, request: Request)
    | Parking(approval: Approval)
    // approve: get_token(parent), is_revoked(parent)
    | Loaded(approval: Approval, approver: string)
    | FoundParent(approval: Approval, approver: string)
    // either mint: put_token, add_edge, and for approve update_approval
    | Storing(meta: TokenMeta, after: Option<Approval>)
    | Linking(meta: TokenMeta, after: Option<Approval>)
    // update_approval, also of a deny or a timeout that has loaded its request
    | Writing(approval: Approval)
    // collect: update_approval of the record as it was loaded
    | Collecting(approval: Approval)
    // append_audit_batch of the row that tells what was stored
    | Logging(row: Event)
    // revoke: revoke_many after the walk
    | Walked(jti: Jti, targets: seq<Jti>)
    | Finished

  datatype System = System(
    store: Store, threads: map<nat, Thread>, began: map<nat, set<Jti>>, grants: map<Jti, string>,
    log: seq<Event>)

  datatype Step =
    | StartVerify(t: nat, c: Claims, scope: Scope)
    | StartDelegate(t: nat, c: Claims, request: Request)
    | StartApprove(t: nat, approvalId: string, now: Time, approver: string)
    | StartRefuse(t: nat, approvalId: string, now: Time, refusal: Refusal)
    | StartCollect(t: nat, approvalId: string)
    | StartRevoke(t: nat, jti: Jti)
    | StartRoot(t: nat, c: Claims)   // mint_root, with its put_token
    | Advance(t: nat, now: Time, uuid: string)

  /** A deny names its approver; a timeout has none. */
  datatype Refusal = ByHuman(approver: string) | ByTimeout

  function Path(c: Claims): seq<Jti> {
    [c.jti] + Jtis(c.chain)
  }

  predicate Presentable(cfg: Config, tokens: TokenMap, c: Claims) {
    c.jti in tokens && ClaimsOf(cfg.issuer, tokens[c.jti]) == c
  }

  // ------------------------------------------------------------------
  // One storage call
  // ------------------------------------------------------------------

  /** The child that `approve` mints, with the record it will write afterwards. */
  function ApproveMint(cfg: Config, pm: TokenMeta, a: Approval, approver: string, now: Time, jti: Jti): Thread {
    var c := MintChild(cfg.issuer, jti, ClaimsOf(cfg.issuer, pm), a.childSubject, a.requested,
                       Min(now + a.ttl, a.parentExp), true, Some(approver), now);
    Storing(MetaOf(c, Some(pm.jti)), Some(ApprovedRecord(a, now, approver, c)))
  }

  function Closed(a: Approval, now: Time, status: Status, approver: Option<string>): Approval {
    a.(status := status, decidedAt := Some(now), approvedBy := approver, childJti := None, childToken := None)
  }

  function Refused(a: Approval, now: Time, refusal: Refusal): Approval {
    match refusal
    case ByHuman(approver) => Closed(a, now, Denied, Some(approver))
    case ByTimeout => Closed(a, now, Expired, None)
  }

  function RootRow(c: Claims): Event {
    RootMinted(c.jti, c.scopes, c.exp - c.iat, c.maxDepth)
  }

  function ChildRow(m: TokenMeta): Event {
    Delegated(m.jti, if m.parentJti.Some? then m.parentJti.value else m.jti, m.rootJti, m.scopes, m.depth, m.expiresAt)
  }

  /** The row of an approved grant, told from the claims as they were stored. */
  function GrantRow(m: TokenMeta, a: Approval): Event {
    ApprovalGranted(m.jti, a.parentJti, m.rootJti, m.scopes, m.depth, a.approvalId,
                    if a.approvedBy.Some? then a.approvedBy.value else "")
  }

  /** An approve goes on to write its row; a refusal's row rebuilds nothing and is left out. */
  function AfterDecision(st: Store, a: Approval): Thread {
    if a.childJti.Some? && a.childJti.value in st.tokens then Logging(GrantRow(st.tokens[a.childJti.value], a))
    else Finished
  }

  /** What thread th does to the store with its next call, and where it stands afterwards. */
  function StorageCall(cfg: Config, st: Store, th: Thread, now: Time, uuid: string): (Store, Thread) {
    match th
    case Verifying(c, scope, i) =>
      if i < |Path(c)| then
        (st, if Path(c)[i] in st.revoked then Verified(c, scope, FoundRevoked(Path(c)[i]))
             else Verifying(c, scope, i + 1))
      else (st, Verified(c, scope, if scope in c.scopes then Accepted else ScopeMissing))
    case Checking(c, r, i) =>
      if i < |Path(c)| then
        (st, if Path(c)[i] in st.revoked then Finished else Checking(c, r, i + 1))
      else (st, FindingRoot(c, r))
    case FindingRoot(c, r) =>
      (st, if c.rootJti in st.tokens && st.tokens[c.rootJti].depth == 0 && now <= st.tokens[c.rootJti].expiresAt
           then CheckingRoot(c, r) else Finished)
    case CheckingRoot(c, r) =>
      (st, if c.rootJti in st.revoked || !(r.scopes <= c.scopes) || c.depth + 1 > c.maxDepth then Finished
           else if r.scopes * cfg.sensitive != {} then Parking(ParkedApproval(cfg, now, c, r.(freshApproval := uuid)))
           else Storing(MetaOf(GrantedChild(cfg, now, c, r.(freshJti := uuid)), Some(c.jti)), None))
    case Parking(a) => (SetApproval(st, a), Finished)
    case Loaded(a, approver) => (st, if a.parentJti in st.tokens then FoundParent(a, approver) else Finished)
    case FoundParent(a, approver) =>
      (st, if a.parentJti in st.revoked then Writing(Closed(a, now, Denied, Some(approver)))
           else if a.parentExp < now then Writing(Closed(a, now, Expired, Some(approver)))
           else if a.parentJti in st.tokens then ApproveMint(cfg, st.tokens[a.parentJti], a, approver, now, uuid)
           else Finished)
    case Storing(m, a) => (PutToken(st, m), Linking(m, a))
    case Linking(m, a) =>
      (if m.parentJti.Some? then LinkTokens(st, m.parentJti.value, m.jti) else st,
       AfterLink(m, a))
    case Writing(a) => (SetApproval(st, a), AfterDecision(st, a))
    case Collecting(a) => (SetApproval(st, a), Finished)
    case Walked(j, targets) => (RevokeMany(st, targets, j, now), AfterRecord(j, targets))
    case Logging(_) => (st, Finished)
    case Verified(_, _, _) => (st, th)
    case Finished => (st, th)
  }

  /** A new uuid names no token and no request, stored or about to be. */
  predicate FreshIn(s: System, uuid: string) {
    && uuid !in s.store.tokens && uuid !in s.store.revoked && uuid !in s.store.approvals
    && (forall t :: t in s.threads && s.threads[t].Storing? ==> s.threads[t].meta.jti != uuid)
    && (forall t :: t in s.threads && s.threads[t].Parking? ==> s.threads[t].approval.approvalId != uuid)
  }

  predicate PendingInTime(s: System, id: string, now: Time) {
    && id in s.store.approvals && s.store.approvals[id].status == Pending
    && now <= s.store.approvals[id].expiresAt
  }

  predicate PendingTooLong(s: System, id: string, now: Time) {
    && id in s.store.approvals && s.store.approvals[id].status == Pending
    && s.store.approvals[id].expiresAt < now
  }

  ghost predicate Enabled(cfg: Config, s: System, step: Step) {
    match step
    case StartVerify(t, c, _) => t !in s.threads && Presentable(cfg, s.store.tokens, c)
    case StartDelegate(t, c, r) => t !in s.threads && Presentable(cfg, s.store.tokens, c) && r.scopes != {}
    case StartApprove(t, id, now, _) => t !in s.threads && PendingInTime(s, id, now)
    case StartRefuse(t, id, now, ByHuman(_)) => t !in s.threads && PendingInTime(s, id, now)
    case StartRefuse(t, id, now, ByTimeout) => t !in s.threads && PendingTooLong(s, id, now)
    case StartCollect(t, id) =>
      && t !in s.threads && id in s.store.approvals
      && s.store.approvals[id].status == Approved && s.store.approvals[id].childToken.Some?
    case StartRevoke(t, _) => t !in s.threads
    case StartRoot(t, c) => t !in s.threads && FreshIn(s, c.jti) && IsRoot(MetaOf(c, None), cfg.maxTtl)
    case Advance(t, _, uuid) => t in s.threads && FreshIn(s, uuid)
  }

  function GrantsAfter(grants: map<Jti, string>, th: Thread): map<Jti, string> {
    if th.Storing? && th.after.Some? then grants[th.meta.jti := th.after.value.approvalId] else grants
  }

  function LogAfter(log: seq<Event>, th: Thread): seq<Event> {
    if th.Logging? then log + [th.row] else log
  }

  function RootPut(s: System, c: Claims): System {
    s.(store := PutToken(s.store, MetaOf(c, None)))
  }

  function Begin(s: System, t: nat, th: Thread): System {
    s.(threads := s.threads[t := th], began := s.began[t := s.store.revoked.Keys])
  }

  function Do(cfg: Config, s: System, step: Step): System {
    match step
    case StartVerify(t, c, scope) => Begin(s, t, Verifying(c, scope, 0))
    case StartDelegate(t, c, r) => Begin(s, t, Checking(c, r, 0))
    case StartApprove(t, id, _, approver) =>
      if id in s.store.approvals then Begin(s, t, Loaded(s.store.approvals[id], approver)) else s
    case StartRefuse(t, id, now, refusal) =>
      if id in s.store.approvals then Begin(s, t, Writing(Refused(s.store.approvals[id], now, refusal))) else s
    case StartCollect(t, id) =>
      if id in s.store.approvals then Begin(s, t, Collecting(s.store.approvals[id])) else s
    case StartRevoke(t, j) => Begin(s, t, Walked(j, DescendantsOf(s.store, j)))
    case StartRoot(t, c) => Begin(RootPut(s, c), t, Logging(RootRow(c)))
    case Advance(t, now, uuid) =>
      if t !in s.threads then s
      else
        var (st, th) := StorageCall(cfg, s.store, s.threads[t], now, uuid);
        s.(store := st, threads := s.threads[t := th], grants := GrantsAfter(s.grants, s.threads[t]),
           log := LogAfter(s.log, s.threads[t]))
  }

  /** Where the thread of a new call stands. */
  function Started(s: System, step: Step): Thread {
    match step
    case StartVerify(_, c, scope) => Verifying(c, scope, 0)
    case StartDelegate(_, c, r) => Checking(c, r, 0)
    case StartApprove(_, id, _, approver) =>
      if id in s.store.approvals then Loaded(s.store.approvals[id], approver) else Finished
    case StartRefuse(_, id, now, refusal) =>
      if id in s.store.approvals then Writing(Refused(s.store.approvals[id], now, refusal)) else Finished
    case StartCollect(_, id) => if id in s.store.approvals then Collecting(s.store.approvals[id]) else Finished
    case StartRevoke(_, j) => Walked(j, DescendantsOf(s.store, j))
    case StartRoot(_, c) => Logging(RootRow(c))
    case Advance(_, _, _) => Finished
  }

  /** Only mint_root writes with its first storage call. */
  function Base(s: System, step: Step): System {
    if step.StartRoot? then RootPut(s, step.c) else s
  }

  lemma StartBegins(cfg: Config, s: System, step: Step)
    requires Enabled(cfg, s, step) && !step.Advance?
    ensures Do(cfg, s, step) == Begin(Base(s, step), step.t, Started(s, step))
  {
  }

  ghost predicate Runs(cfg: Config, s: System, steps: seq<Step>, s': System)
    decreases |steps|
  {
    if steps == [] then s' == s
    else Enabled(cfg, s, steps[0]) && Runs(cfg, Do(cfg, s, steps[0]), steps[1..], s')
  }

  ghost predicate Leads(cfg: Config, s: System, s': System) {
    exists steps :: Runs(cfg, s, steps, s')
  }

  const START := System(EMPTY, map[], map[], map[], [])

  ghost predicate Arises(cfg: Config, s: System) {
    Leads(cfg, START, s)
  }

  lemma {:induction false} RunsThen(cfg: Config, s: System, steps: seq<Step>, mid: System, more: seq<Step>, s': System)
    requires Runs(cfg, s, steps, mid) && Runs(cfg, mid, more, s')
    ensures Runs(cfg, s, steps + more, s')
    decreases |steps|
  {
    if steps == [] {
      assert steps + more == more;
    } else {
      assert (steps + more)[0] == steps[0] && (steps + more)[1..] == steps[1..] + more;
      RunsThen(cfg, Do(cfg, s, steps[0]), steps[1..], mid, more, s');
    }
  }

  lemma LeadsThen(cfg: Config, s: System, mid: System, s': System)
    requires Leads(cfg, s, mid) && Leads(cfg, mid, s')
    ensures Leads(cfg, s, s')
  {
    var steps :| Runs(cfg, s, steps, mid);
    var more :| Runs(cfg, mid, more, s');
    RunsThen(cfg, s, steps, mid, more, s');
  }

  lemma LeadsNowhere(cfg: Config, s: System)
    ensures Leads(cfg, s, s)
  {
    assert Runs(cfg, s, [], s);
  }

  lemma LeadsOneStep(cfg: Config, s: System, step: Step)
    requires Enabled(cfg, s, step)
    ensures Leads(cfg, s, Do(cfg, s, step))
  {
    assert [step][1..] == [];
    assert Runs(cfg, Do(cfg, s, step), [], Do(cfg, s, step));
    assert Runs(cfg, s, [step], Do(cfg, s, step));
  }

  lemma LeadsOneMore(cfg: Config, s: System, mid: System, step: Step)
    requires Leads(cfg, s, mid) && Enabled(cfg, mid, step)
    ensures Leads(cfg, s, Do(cfg, mid, step))
  {
    LeadsOneStep(cfg, mid, step);
    LeadsThen(cfg, s, mid, Do(cfg, mid, step));
  }

  // ------------------------------------------------------------------
  // The invariant of every interleaving
  // ------------------------------------------------------------------

  /** The first n lookups of a thread found nothing that was revoked before it started. */
  ghost predicate ClearUpTo(c: Claims, n: nat, began: set<Jti>) {
    forall i :: 0 <= i < n && i < |Path(c)| ==> Path(c)[i] !in began
  }

  ghost predicate ThreadOk(cfg: Config, st: Store, th: Thread, began: set<Jti>) {
    match th
    case Verifying(c, _, n) => n <= |Path(c)| && ClearUpTo(c, n, began)
    case Verified(c, scope, Accepted) => scope in c.scopes && ClearUpTo(c, |Path(c)|, began)
    case Verified(c, scope, FoundRevoked(j)) => j in Path(c) && j in st.revoked
    case Verified(c, scope, ScopeMissing) => scope !in c.scopes
    case Checking(c, _, n) => Presentable(cfg, st.tokens, c) && n <= |Path(c)| && ClearUpTo(c, n, began)
    case FindingRoot(c, _) => Presentable(cfg, st.tokens, c) && ClearUpTo(c, |Path(c)|, began)
    case CheckingRoot(c, _) => Presentable(cfg, st.tokens, c) && ClearUpTo(c, |Path(c)|, began)
    case Parking(a) => Grantable(cfg, st.tokens, a)
    case Loaded(a, _) => Grantable(cfg, st.tokens, a)
    case FoundParent(a, _) => Grantable(cfg, st.tokens, a)
    case Storing(m, a) => m.jti !in st.tokens && AboutToMint(cfg, st.tokens, m, a, began)
    case Linking(m, a) => m.jti in st.tokens && st.tokens[m.jti] == m && AboutToMint(cfg, st.tokens, m, a, began)
    case Writing(a) => Grantable(cfg, st.tokens, a)
    case Collecting(a) => Grantable(cfg, st.tokens, a)
    case Logging(_) => true
    case Walked(_, _) => true
    case Finished => true
  }

  /** A minted child hangs below a stored parent.  By `delegate` no ancestor, and by `approve` not
      the parent, was revoked when the operation began. */
  ghost predicate AboutToMint(cfg: Config, tokens: TokenMap, m: TokenMeta, a: Option<Approval>, began: set<Jti>) {
    && m.parentJti.Some? && m.parentJti.value in tokens && IsChild(tokens[m.parentJti.value], m)
    && (a.None? ==> forall j :: j in Jtis(m.chain) ==> j !in began)
    && (a.Some? ==> Grantable(cfg, tokens, a.value) && m.parentJti.value !in began)
  }

  ghost predicate LinkPending(threads: map<nat, Thread>, c: Jti) {
    exists t :: t in threads && threads[t].Linking? && threads[t].meta.jti == c
  }

  /** The edge table lacks only the edges of mints between put_token and add_edge. */
  ghost predicate EdgesCatchUp(st: Store, threads: map<nat, Thread>) {
    forall p, c :: ParentLink(st.tokens, p, c) ==> Edge(st.edges, p, c) || LinkPending(threads, c)
  }

  ghost predicate AllGrantable(cfg: Config, st: Store) {
    forall id :: id in st.approvals ==> Grantable(cfg, st.tokens, st.approvals[id])
  }

  ghost predicate DistinctNewborns(threads: map<nat, Thread>) {
    forall t, u :: (t in threads && u in threads && threads[t].Storing? && threads[u].Storing?
                    && threads[t].meta.jti == threads[u].meta.jti) ==> t == u
  }

  ghost predicate AllThreadsOk(cfg: Config, s: System) {
    forall t :: t in s.threads ==>
      && t in s.began && s.began[t] <= s.store.revoked.Keys
      && ThreadOk(cfg, s.store, s.threads[t], s.began[t])
  }

  ghost predicate SystemInv(cfg: Config, s: System) {
    && Forest(s.store.tokens, cfg.maxTtl)
    && EdgesSound(s.store.tokens, s.store.edges)
    && EdgesCatchUp(s.store, s.threads)
    && AllGrantable(cfg, s.store)
    && DistinctNewborns(s.threads)
    && AllThreadsOk(cfg, s)
  }

  // ------------------------------------------------------------------
  // Every step keeps it
  // ------------------------------------------------------------------

  ghost predicate Grew(a: Store, b: Store) {
    && (forall j :: j in a.tokens ==> j in b.tokens && b.tokens[j] == a.tokens[j])
    && a.revoked.Keys <= b.revoked.Keys
  }

  lemma ThreadStays(cfg: Config, a: Store, b: Store, th: Thread, began: set<Jti>)
    requires Grew(a, b) && ThreadOk(cfg, a, th, began)
    requires th.Storing? ==> th.meta.jti !in b.tokens
    ensures ThreadOk(cfg, b, th, began)
  {
  }

  /** Thread t moves on; the others see at most a larger store. */
  lemma AdvanceThreads(cfg: Config, s: System, t: nat, st: Store, th: Thread)
    requires AllThreadsOk(cfg, s) && Grew(s.store, st) && t in s.threads
    requires ThreadOk(cfg, st, th, s.began[t])
    requires forall u :: u in s.threads && u != t && s.threads[u].Storing? ==> s.threads[u].meta.jti !in st.tokens
    ensures AllThreadsOk(cfg, s.(store := st, threads := s.threads[t := th]))
  {
    var s' := s.(store := st, threads := s.threads[t := th]);
    forall u | u in s'.threads
      ensures u in s'.began && s'.began[u] <= st.revoked.Keys && ThreadOk(cfg, st, s'.threads[u], s'.began[u])
    {
      if u != t {
        ThreadStays(cfg, s.store, st, s.threads[u], s.began[u]);
      }
    }
  }

  lemma LinksStay(st: Store, threads: map<nat, Thread>, t: nat, th: Thread)
    requires EdgesCatchUp(st, threads) && t in threads && !threads[t].Linking?
    ensures EdgesCatchUp(st, threads[t := th])
  {
    forall p, c | ParentLink(st.tokens, p, c) && !Edge(st.edges, p, c)
      ensures LinkPending(threads[t := th], c)
    {
      var u :| u in threads && threads[u].Linking? && threads[u].meta.jti == c;
      assert threads[t := th][u].Linking?;
    }
  }

  /** The calls that write a request. */
  predicate WritesRequest(th: Thread) {
    th.Parking? || th.Writing? || th.Collecting?
  }

  // What each writing call does to the whole system.

  lemma StoreCall(cfg: Config, s: System, t: nat, now: Time, uuid: string)
    requires t in s.threads && s.threads[t].Storing?
    ensures var m, after := s.threads[t].meta, s.threads[t].after;
            Do(cfg, s, Advance(t, now, uuid))
            == s.(store := PutToken(s.store, m), threads := s.threads[t := Linking(m, after)],
                  grants := GrantsAfter(s.grants, s.threads[t]))
  {
  }

  function AfterLink(m: TokenMeta, after: Option<Approval>): Thread {
    if after.Some? then Writing(after.value) else Logging(ChildRow(m))
  }

  lemma LinkCall(cfg: Config, s: System, t: nat, now: Time, uuid: string)
    requires t in s.threads && s.threads[t].Linking? && s.threads[t].meta.parentJti.Some?
    ensures var m := s.threads[t].meta;
            Do(cfg, s, Advance(t, now, uuid))
            == s.(store := LinkTokens(s.store, m.parentJti.value, m.jti),
                  threads := s.threads[t := AfterLink(m, s.threads[t].after)])
  {
  }

  function AfterWrite(st: Store, th: Thread): Thread {
    if th.Writing? then AfterDecision(st, th.approval) else Finished
  }

  lemma WriteCall(cfg: Config, s: System, t: nat, now: Time, uuid: string)
    requires t in s.threads && WritesRequest(s.threads[t])
    ensures Do(cfg, s, Advance(t, now, uuid))
            == s.(store := SetApproval(s.store, s.threads[t].approval),
                  threads := s.threads[t := AfterWrite(s.store, s.threads[t])])
  {
  }

  function AfterRecord(j: Jti, targets: seq<Jti>): Thread {
    Logging(RevokedTree(j, targets, 0, []))
  }

  lemma RecordCall(cfg: Config, s: System, t: nat, now: Time, uuid: string)
    requires t in s.threads && s.threads[t].Walked?
    ensures var j, targets := s.threads[t].jti, s.threads[t].targets;
            Do(cfg, s, Advance(t, now, uuid))
            == s.(store := RevokeMany(s.store, targets, j, now), threads := s.threads[t := AfterRecord(j, targets)])
  {
  }

  /** The calls that only look. */
  predicate Looks(th: Thread) {
    th.Verifying? || th.Checking? || th.FindingRoot? || th.CheckingRoot? || th.Loaded? || th.FoundParent?
    || th.Verified? || th.Logging? || th.Finished?
  }

  lemma PathOfChild(c: Claims, now: Time)
    ensures Jtis(c.chain + [ChainEntryFor(c, now)]) == Jtis(c.chain) + [c.jti]
  {
  }

  lemma DelegateNewborn(cfg: Config, st: Store, c: Claims, r: Request, now: Time, jti: Jti, began: set<Jti>)
    requires Forest(st.tokens, cfg.maxTtl) && Presentable(cfg, st.tokens, c) && ClearUpTo(c, |Path(c)|, began)
    requires r.scopes <= c.scopes && c.depth + 1 <= c.maxDepth
    ensures AboutToMint(cfg, st.tokens, MetaOf(GrantedChild(cfg, now, c, r.(freshJti := jti)), Some(c.jti)), None, began)
  {
    var r' := r.(freshJti := jti);
    var child := GrantedChild(cfg, now, c, r');
    assert WellPlaced(st.tokens, cfg.maxTtl, c.jti);
    MintedIsChild(cfg.issuer, st.tokens[c.jti], jti, r.childSubject, r.scopes, child.exp, false, None, now);
    PathOfChild(c, now);
    forall j | j in Jtis(child.chain)
      ensures j !in began
    {
      assert j in Path(c);
      var i :| 0 <= i < |Path(c)| && Path(c)[i] == j;
    }
  }

  lemma ApproveNewborn(cfg: Config, st: Store, a: Approval, approver: string, now: Time, jti: Jti, began: set<Jti>)
    requires Forest(st.tokens, cfg.maxTtl) && Grantable(cfg, st.tokens, a) && a.parentJti !in began
    ensures var th := ApproveMint(cfg, st.tokens[a.parentJti], a, approver, now, jti);
            th.meta.jti == jti && AboutToMint(cfg, st.tokens, th.meta, th.after, began)
  {
    var pm := st.tokens[a.parentJti];
    assert WellPlaced(st.tokens, cfg.maxTtl, a.parentJti);
    MintedIsChild(cfg.issuer, pm, jti, a.childSubject, a.requested, Min(now + a.ttl, a.parentExp),
                  true, Some(approver), now);
  }

  /** What a call that only looks guarantees about where its thread stands next. */
  ghost predicate LooksOk(cfg: Config, st: Store, th: Thread, now: Time, jti: Jti, began: set<Jti>) {
    var (st', th') := StorageCall(cfg, st, th, now, jti);
    st' == st && !th'.Linking? && (th'.Storing? ==> th'.meta.jti == jti) && ThreadOk(cfg, st, th', began)
  }

  lemma LookLeavesStore(cfg: Config, st: Store, th: Thread, now: Time, uuid: string)
    requires Looks(th)
    ensures StorageCall(cfg, st, th, now, uuid).0 == st
  {
  }

  lemma ClearOneMore(c: Claims, n: nat, began: set<Jti>)
    requires n < |Path(c)| && ClearUpTo(c, n, began) && Path(c)[n] !in began
    ensures ClearUpTo(c, n + 1, began)
  {
  }

  lemma LookupOk(cfg: Config, st: Store, th: Thread, now: Time, jti: Jti, began: set<Jti>)
    requires ThreadOk(cfg, st, th, began) && began <= st.revoked.Keys && (th.Verifying? || th.Checking?)
    ensures LooksOk(cfg, st, th, now, jti, began)
  {
    if th.next < |Path(th.c)| && Path(th.c)[th.next] !in st.revoked {
      ClearOneMore(th.c, th.next, began);
    }
  }

  lemma CheckingRootOk(cfg: Config, st: Store, c: Claims, r: Request, now: Time, jti: Jti, began: set<Jti>)
    requires Forest(st.tokens, cfg.maxTtl) && jti !in st.tokens && ThreadOk(cfg, st, CheckingRoot(c, r), began)
    ensures LooksOk(cfg, st, CheckingRoot(c, r), now, jti, began)
  {
    if c.rootJti !in st.revoked && r.scopes <= c.scopes && c.depth + 1 <= c.maxDepth {
      if r.scopes * cfg.sensitive != {} {
        ParkedOk(cfg, st, c, r.(freshApproval := jti), now, began);
      } else {
        NewbornOk(cfg, st, c, r, now, jti, began);
      }
    }
  }

  lemma ParkedOk(cfg: Config, st: Store, c: Claims, r: Request, now: Time, began: set<Jti>)
    requires Forest(st.tokens, cfg.maxTtl) && Presentable(cfg, st.tokens, c)
    requires r.scopes <= c.scopes && c.depth + 1 <= c.maxDepth && r.scopes * cfg.sensitive != {}
    ensures ThreadOk(cfg, st, Parking(ParkedApproval(cfg, now, c, r)), began)
  {
    assert WellPlaced(st.tokens, cfg.maxTtl, c.jti);
  }

  lemma NewbornOk(cfg: Config, st: Store, c: Claims, r: Request, now: Time, jti: Jti, began: set<Jti>)
    requires Forest(st.tokens, cfg.maxTtl) && jti !in st.tokens
    requires Presentable(cfg, st.tokens, c) && ClearUpTo(c, |Path(c)|, began)
    requires r.scopes <= c.scopes && c.depth + 1 <= c.maxDepth
    ensures var m := MetaOf(GrantedChild(cfg, now, c, r.(freshJti := jti)), Some(c.jti));
            m.jti == jti && ThreadOk(cfg, st, Storing(m, None), began)
  {
    DelegateNewborn(cfg, st, c, r, now, jti, began);
  }

  lemma FoundParentOk(cfg: Config, st: Store, th: Thread, now: Time, jti: Jti, began: set<Jti>)
    requires Forest(st.tokens, cfg.maxTtl) && jti !in st.tokens && began <= st.revoked.Keys
    requires ThreadOk(cfg, st, th, began) && th.FoundParent?
    ensures LooksOk(cfg, st, th, now, jti, began)
  {
    if th.approval.parentJti !in st.revoked {
      ApproveNewborn(cfg, st, th.approval, th.approver, now, jti, began);
    }
  }

  lemma LookOk(cfg: Config, s: System, t: nat, now: Time, jti: Jti)
    requires SystemInv(cfg, s) && t in s.threads && Looks(s.threads[t]) && FreshIn(s, jti)
    ensures LooksOk(cfg, s.store, s.threads[t], now, jti, s.began[t])
  {
    var th := s.threads[t];
    assert ThreadOk(cfg, s.store, th, s.began[t]);
    if th.Verifying? || th.Checking? {
      LookupOk(cfg, s.store, th, now, jti, s.began[t]);
    } else if th.CheckingRoot? {
      CheckingRootOk(cfg, s.store, th.c, th.request, now, jti, s.began[t]);
    } else if th.FoundParent? {
      FoundParentOk(cfg, s.store, th, now, jti, s.began[t]);
    }
  }

  lemma LookKeeps(cfg: Config, s: System, t: nat, now: Time, jti: Jti)
    requires SystemInv(cfg, s) && t in s.threads && Looks(s.threads[t]) && FreshIn(s, jti)
    ensures SystemInv(cfg, Do(cfg, s, Advance(t, now, jti)))
  {
    var (st, th) := StorageCall(cfg, s.store, s.threads[t], now, jti);
    LookOk(cfg, s, t, now, jti);
    forall u | u in s.threads && s.threads[u].Storing?
      ensures s.threads[u].meta.jti !in st.tokens
    {
      assert ThreadOk(cfg, s.store, s.threads[u], s.began[u]);
    }
    AdvanceThreads(cfg, s, t, st, th);
    LinksStay(s.store, s.threads, t, th);
  }

  lemma NewbornsAreOutside(cfg: Config, s: System)
    requires AllThreadsOk(cfg, s)
    ensures forall u :: u in s.threads && s.threads[u].Storing? ==> s.threads[u].meta.jti !in s.store.tokens
  {
    forall u | u in s.threads && s.threads[u].Storing?
      ensures s.threads[u].meta.jti !in s.store.tokens
    {
      assert ThreadOk(cfg, s.store, s.threads[u], s.began[u]);
    }
  }

  /** put_approval and update_approval of a grantable record. */
  lemma WriteKeeps(cfg: Config, s: System, t: nat, now: Time, jti: Jti)
    requires SystemInv(cfg, s) && t in s.threads && WritesRequest(s.threads[t])
    ensures SystemInv(cfg, Do(cfg, s, Advance(t, now, jti)))
  {
    assert ThreadOk(cfg, s.store, s.threads[t], s.began[t]);
    var st := SetApproval(s.store, s.threads[t].approval);
    NewbornsAreOutside(cfg, s);
    var th := AfterWrite(s.store, s.threads[t]);
    WriteCall(cfg, s, t, now, jti);
    AdvanceThreads(cfg, s, t, st, th);
    LinksStay(s.store, s.threads, t, th);
    assert EdgesCatchUp(st, s.threads[t := th]);
  }

  lemma StoreKeeps(cfg: Config, s: System, t: nat, now: Time, jti: Jti)
    requires SystemInv(cfg, s) && t in s.threads && s.threads[t].Storing?
    ensures SystemInv(cfg, Do(cfg, s, Advance(t, now, jti)))
  {
    var m, after := s.threads[t].meta, s.threads[t].after;
    var st, th := PutToken(s.store, m), Linking(m, after);
    StoreCall(cfg, s, t, now, jti);
    assert ThreadOk(cfg, s.store, s.threads[t], s.began[t]);
    GrowForest(s.store.tokens, cfg.maxTtl, m);
    NewbornsAreOutside(cfg, s);
    forall u | u in s.threads && u != t && s.threads[u].Storing?
      ensures s.threads[u].meta.jti !in st.tokens
    {
      assert s.threads[u].meta.jti != m.jti;
    }
    AdvanceThreads(cfg, s, t, st, th);
    StoredEdges(cfg, s, t, m, after);
    forall id | id in st.approvals
      ensures Grantable(cfg, st.tokens, st.approvals[id])
    {
      assert Grantable(cfg, s.store.tokens, st.approvals[id]);
    }
  }

  lemma StoredEdges(cfg: Config, s: System, t: nat, m: TokenMeta, after: Option<Approval>)
    requires SystemInv(cfg, s) && t in s.threads && s.threads[t] == Storing(m, after) && m.jti !in s.store.tokens
    ensures var st := PutToken(s.store, m);
            EdgesSound(st.tokens, st.edges) && EdgesCatchUp(st, s.threads[t := Linking(m, after)])
  {
    var st, threads' := PutToken(s.store, m), s.threads[t := Linking(m, after)];
    assert threads'[t].Linking? && threads'[t].meta.jti == m.jti;
    forall p, c | Edge(st.edges, p, c)
      ensures ParentLink(st.tokens, p, c)
    {
      assert ParentLink(s.store.tokens, p, c);
    }
    forall p, c | ParentLink(st.tokens, p, c) && !Edge(st.edges, p, c)
      ensures LinkPending(threads', c)
    {
      if c != m.jti {
        assert ParentLink(s.store.tokens, p, c);
        var u :| u in s.threads && s.threads[u].Linking? && s.threads[u].meta.jti == c;
        assert threads'[u] == s.threads[u];
      }
    }
  }

  lemma LinkKeeps(cfg: Config, s: System, t: nat, now: Time, jti: Jti)
    requires SystemInv(cfg, s) && t in s.threads && s.threads[t].Linking?
    ensures SystemInv(cfg, Do(cfg, s, Advance(t, now, jti)))
  {
    var m, after := s.threads[t].meta, s.threads[t].after;
    var p := m.parentJti.value;
    assert ThreadOk(cfg, s.store, s.threads[t], s.began[t]);
    var st := LinkTokens(s.store, p, m.jti);
    var th := AfterLink(m, after);
    LinkCall(cfg, s, t, now, jti);
    NewbornsAreOutside(cfg, s);
    AdvanceThreads(cfg, s, t, st, th);
    LinkedEdges(cfg, s, t, p, th);
  }

  lemma LinkedEdges(cfg: Config, s: System, t: nat, p: Jti, th: Thread)
    requires SystemInv(cfg, s) && t in s.threads && s.threads[t].Linking?
    requires ParentLink(s.store.tokens, p, s.threads[t].meta.jti)
    ensures var st := LinkTokens(s.store, p, s.threads[t].meta.jti);
            EdgesSound(st.tokens, st.edges) && EdgesCatchUp(st, s.threads[t := th])
  {
    var child := s.threads[t].meta.jti;
    var st, threads' := LinkTokens(s.store, p, child), s.threads[t := th];
    forall x, c
      ensures Edge(st.edges, x, c) <==> Edge(s.store.edges, x, c) || (x == p && c == child)
    {
    }
    forall x, c | ParentLink(st.tokens, x, c) && !Edge(st.edges, x, c)
      ensures LinkPending(threads', c)
    {
      var u :| u in s.threads && s.threads[u].Linking? && s.threads[u].meta.jti == c;
      assert u != t && threads'[u] == s.threads[u];
    }
  }

  lemma RevokeStepKeeps(cfg: Config, s: System, t: nat, now: Time, jti: Jti)
    requires SystemInv(cfg, s) && t in s.threads && s.threads[t].Walked?
    ensures SystemInv(cfg, Do(cfg, s, Advance(t, now, jti)))
  {
    var st := RevokeMany(s.store, s.threads[t].targets, s.threads[t].jti, now);
    NewbornsAreOutside(cfg, s);
    var th := AfterRecord(s.threads[t].jti, s.threads[t].targets);
    RecordCall(cfg, s, t, now, jti);
    AdvanceThreads(cfg, s, t, st, th);
    LinksStay(s.store, s.threads, t, th);
    assert EdgesCatchUp(st, s.threads[t := th]);
  }

  lemma BeginKeeps(cfg: Config, s: System, t: nat, th: Thread)
    requires SystemInv(cfg, s) && t !in s.threads && !th.Storing? && !th.Linking?
    requires ThreadOk(cfg, s.store, th, s.store.revoked.Keys)
    ensures SystemInv(cfg, Begin(s, t, th))
  {
    var s' := Begin(s, t, th);
    forall u | u in s'.threads
      ensures u in s'.began && s'.began[u] <= s'.store.revoked.Keys && ThreadOk(cfg, s'.store, s'.threads[u], s'.began[u])
    {
      if u != t {
        assert ThreadOk(cfg, s.store, s.threads[u], s.began[u]);
      }
    }
    forall p, c | ParentLink(s.store.tokens, p, c) && !Edge(s.store.edges, p, c)
      ensures LinkPending(s'.threads, c)
    {
      var u :| u in s.threads && s.threads[u].Linking? && s.threads[u].meta.jti == c;
      assert s'.threads[u] == s.threads[u];
    }
  }

  lemma RootPutKeeps(cfg: Config, s: System, c: Claims)
    requires SystemInv(cfg, s) && FreshIn(s, c.jti) && IsRoot(MetaOf(c, None), cfg.maxTtl)
    ensures SystemInv(cfg, RootPut(s, c))
  {
    var m := MetaOf(c, None);
    var st := PutToken(s.store, m);
    var s' := s.(store := st);
    GrowForest(s.store.tokens, cfg.maxTtl, m);
    forall u | u in s.threads
      ensures u in s.began && s.began[u] <= st.revoked.Keys && ThreadOk(cfg, st, s.threads[u], s.began[u])
    {
      ThreadStays(cfg, s.store, st, s.threads[u], s.began[u]);
    }
    forall p, x
      ensures ParentLink(st.tokens, p, x) <==> ParentLink(s.store.tokens, p, x)
    {
    }
    forall id | id in st.approvals
      ensures Grantable(cfg, st.tokens, st.approvals[id])
    {
      assert Grantable(cfg, s.store.tokens, st.approvals[id]);
    }
  }

  lemma StartedIsOk(cfg: Config, s: System, step: Step)
    requires AllGrantable(cfg, s.store) && Enabled(cfg, s, step) && !step.Advance?
    ensures var th := Started(s, step); !th.Storing? && !th.Linking? && ThreadOk(cfg, s.store, th, s.store.revoked.Keys)
  {
  }

  lemma AdvanceKeepsSystem(cfg: Config, s: System, t: nat, now: Time, uuid: string)
    requires SystemInv(cfg, s) && t in s.threads && FreshIn(s, uuid)
    ensures SystemInv(cfg, Do(cfg, s, Advance(t, now, uuid)))
  {
    var th := s.threads[t];
    if Looks(th) {
      LookKeeps(cfg, s, t, now, uuid);
    } else if th.Storing? {
      StoreKeeps(cfg, s, t, now, uuid);
    } else if th.Linking? {
      LinkKeeps(cfg, s, t, now, uuid);
    } else if th.Walked? {
      RevokeStepKeeps(cfg, s, t, now, uuid);
    } else {
      WriteKeeps(cfg, s, t, now, uuid);
    }
  }

  lemma StepKeepsSystem(cfg: Config, s: System, step: Step)
    requires SystemInv(cfg, s) && Enabled(cfg, s, step)
    ensures SystemInv(cfg, Do(cfg, s, step))
  {
    if step.Advance? {
      AdvanceKeepsSystem(cfg, s, step.t, step.now, step.uuid);
    } else {
      StartBegins(cfg, s, step);
      StartedIsOk(cfg, s, step);
      if step.StartRoot? {
        RootPutKeeps(cfg, s, step.c);
      }
      BeginKeeps(cfg, Base(s, step), step.t, Started(s, step));
    }
  }

  lemma {:induction false} RunKeepsSystem(cfg: Config, s: System, steps: seq<Step>, s': System)
    requires SystemInv(cfg, s) && Runs(cfg, s, steps, s')
    ensures SystemInv(cfg, s')
    decreases |steps|
  {
    if steps != [] {
      StepKeepsSystem(cfg, s, steps[0]);
      RunKeepsSystem(cfg, Do(cfg, s, steps[0]), steps[1..], s');
    }
  }

  lemma ArisesInv(cfg: Config, s: System)
    requires Arises(cfg, s)
    ensures SystemInv(cfg, s)
  {
    var steps :| Runs(cfg, START, steps, s);
    RunKeepsSystem(cfg, START, steps, s);
  }

  // ------------------------------------------------------------------
  // What holds under every interleaving
  // ------------------------------------------------------------------

  /** Narrowing at every distance needs no lock: it survives any interleaving. */
  lemma NarrowUnderInterleaving(cfg: Config, s: System, j: Jti, i: nat)
    requires Arises(cfg, s) && j in s.store.tokens && i < |s.store.tokens[j].chain|
    ensures var d := s.store.tokens[j]; var a := d.chain[i].jti;
            a in s.store.tokens && EntryFor(d.chain[i], s.store.tokens[a]) && Narrower(d, s.store.tokens[a])
  {
    ArisesInv(cfg, s);
    Ancestor(s.store.tokens, cfg.maxTtl, j, i);
  }

  /** s' is later than s: nothing recorded is lost, and new threads know what was revoked in s. */
  ghost predicate Later(s: System, s': System) {
    && s.store.revoked.Keys <= s'.store.revoked.Keys
    && s.threads.Keys <= s'.threads.Keys
    && forall t :: t in s'.threads && t !in s.threads ==> t in s'.began && s.store.revoked.Keys <= s'.began[t]
  }

  lemma CallKeepsRevocations(cfg: Config, st: Store, th: Thread, now: Time, jti: Jti)
    ensures st.revoked.Keys <= StorageCall(cfg, st, th, now, jti).0.revoked.Keys
  {
  }

  lemma StepLater(cfg: Config, s0: System, s: System, step: Step)
    requires Later(s0, s) && Enabled(cfg, s, step)
    ensures Later(s0, Do(cfg, s, step))
  {
    if step.Advance? {
      CallKeepsRevocations(cfg, s.store, s.threads[step.t], step.now, step.uuid);
    }
  }

  lemma {:induction false} RunLater(cfg: Config, s0: System, s: System, steps: seq<Step>, s': System)
    requires Later(s0, s) && Runs(cfg, s, steps, s')
    ensures Later(s0, s')
    decreases |steps|
  {
    if steps != [] {
      StepLater(cfg, s0, s, steps[0]);
      RunLater(cfg, s0, Do(cfg, s, steps[0]), steps[1..], s');
    }
  }

  lemma OnPath(c: Claims, j: Jti)
    requires j in Path(c)
    ensures exists i :: 0 <= i < |Path(c)| && Path(c)[i] == j
  {
  }

  /**
   Once revoke_many has recorded j, no check that starts later accepts a token with j in its signed
   chain, whatever interleaves: not even a token minted later by an operation that had already
   passed its liveness lookups.
   */
  lemma RefusedUnderInterleaving(cfg: Config, s: System, steps: seq<Step>, s': System, j: Jti, t: nat)
    requires Arises(cfg, s) && j in s.store.revoked && Runs(cfg, s, steps, s')
    requires t !in s.threads && t in s'.threads && s'.threads[t].Verified?
    ensures j in Path(s'.threads[t].c) ==> s'.threads[t].verdict != Accepted
  {
    ArisesInv(cfg, s);
    RunKeepsSystem(cfg, s, steps, s');
    RunLater(cfg, s, s, steps, s');
    assert ThreadOk(cfg, s'.store, s'.threads[t], s'.began[t]);
    if j in Path(s'.threads[t].c) {
      OnPath(s'.threads[t].c, j);
    }
  }

  /** A refusal as revoked is never a mistake: something on the path is revoked by then. */
  lemma RefusalIsJustified(cfg: Config, s: System, t: nat)
    requires Arises(cfg, s) && t in s.threads && s.threads[t].Verified?
    ensures s.threads[t].verdict.FoundRevoked? ==> exists j :: j in Path(s.threads[t].c) && j in s.store.revoked
    ensures s.threads[t].verdict == ScopeMissing ==> s.threads[t].scope !in s.threads[t].c.scopes
  {
    ArisesInv(cfg, s);
    assert ThreadOk(cfg, s.store, s.threads[t], s.began[t]);
  }

  /** A `delegate` that starts after j is recorded never mints below j. */
  lemma DelegateStopsAtOnce(cfg: Config, s: System, steps: seq<Step>, s': System, j: Jti, t: nat)
    requires Arises(cfg, s) && j in s.store.revoked && Runs(cfg, s, steps, s')
    requires t !in s.threads && t in s'.threads
    requires s'.threads[t].Storing? || s'.threads[t].Linking?
    ensures s'.threads[t].after.None? ==> j !in Jtis(s'.threads[t].meta.chain)
    ensures s'.threads[t].after.Some? ==> s'.threads[t].meta.parentJti != Some(j)
  {
    ArisesInv(cfg, s);
    RunKeepsSystem(cfg, s, steps, s');
    RunLater(cfg, s, s, steps, s');
    assert ThreadOk(cfg, s'.store, s'.threads[t], s'.began[t]);
  }

  // ------------------------------------------------------------------
  // When a walk is complete
  // ------------------------------------------------------------------

  /** A mint between put_token and add_edge has no edge yet, and no two mints share a jti. */
  ghost predicate LinksMissing(s: System) {
    && (forall t, p :: t in s.threads && s.threads[t].Linking? ==> !Edge(s.store.edges, p, s.threads[t].meta.jti))
    && (forall t, u :: (t in s.threads && u in s.threads && s.threads[t].Linking? && s.threads[u].Linking?
                        && s.threads[t].meta.jti == s.threads[u].meta.jti) ==> t == u)
  }

  lemma StoreKeepsLinks(cfg: Config, s: System, t: nat, now: Time, jti: Jti)
    requires SystemInv(cfg, s) && LinksMissing(s) && t in s.threads && s.threads[t].Storing?
    ensures LinksMissing(Do(cfg, s, Advance(t, now, jti)))
  {
    var s' := Do(cfg, s, Advance(t, now, jti));
    var m := s.threads[t].meta;
    assert ThreadOk(cfg, s.store, s.threads[t], s.began[t]);
    forall p
      ensures !Edge(s.store.edges, p, m.jti)
    {
      assert Edge(s.store.edges, p, m.jti) ==> ParentLink(s.store.tokens, p, m.jti);
    }
    forall u | u in s.threads && s.threads[u].Linking?
      ensures s.threads[u].meta.jti != m.jti
    {
      assert ThreadOk(cfg, s.store, s.threads[u], s.began[u]);
    }
    assert s'.store.edges == s.store.edges && s'.threads == s.threads[t := Linking(m, s.threads[t].after)];
  }

  lemma LinkKeepsLinks(cfg: Config, s: System, t: nat, now: Time, jti: Jti)
    requires LinksMissing(s) && t in s.threads && s.threads[t].Linking?
    ensures LinksMissing(Do(cfg, s, Advance(t, now, jti)))
  {
    var s' := Do(cfg, s, Advance(t, now, jti));
    var m := s.threads[t].meta;
    forall u, p | u in s.threads && u != t && s.threads[u].Linking?
      ensures !Edge(s'.store.edges, p, s.threads[u].meta.jti)
    {
      assert s.threads[u].meta.jti != m.jti && !Edge(s.store.edges, p, s.threads[u].meta.jti);
    }
    assert !s'.threads[t].Linking?;
  }

  lemma CallLeavesEdges(cfg: Config, st: Store, th: Thread, now: Time, jti: Jti)
    requires !th.Storing? && !th.Linking?
    ensures var (st', th') := StorageCall(cfg, st, th, now, jti); st'.edges == st.edges && !th'.Linking?
  {
  }

  lemma MoveKeepsLinks(s: System, t: nat, st: Store, th: Thread)
    requires LinksMissing(s) && t in s.threads && st.edges == s.store.edges && !th.Linking?
    ensures LinksMissing(s.(store := st, threads := s.threads[t := th]))
  {
  }

  lemma OtherCallKeepsLinks(cfg: Config, s: System, t: nat, now: Time, jti: Jti)
    requires LinksMissing(s) && t in s.threads && !s.threads[t].Storing? && !s.threads[t].Linking?
    ensures LinksMissing(Do(cfg, s, Advance(t, now, jti)))
  {
    var (st, th) := StorageCall(cfg, s.store, s.threads[t], now, jti);
    CallLeavesEdges(cfg, s.store, s.threads[t], now, jti);
    MoveKeepsLinks(s, t, st, th);
  }

  lemma BeginKeepsLinks(s: System, t: nat, th: Thread)
    requires LinksMissing(s) && t !in s.threads && !th.Linking?
    ensures LinksMissing(Begin(s, t, th))
  {
  }

  lemma AdvanceKeepsLinks(cfg: Config, s: System, t: nat, now: Time, uuid: string)
    requires SystemInv(cfg, s) && LinksMissing(s) && t in s.threads
    ensures LinksMissing(Do(cfg, s, Advance(t, now, uuid)))
  {
    if s.threads[t].Storing? {
      StoreKeepsLinks(cfg, s, t, now, uuid);
    } else if s.threads[t].Linking? {
      LinkKeepsLinks(cfg, s, t, now, uuid);
    } else {
      OtherCallKeepsLinks(cfg, s, t, now, uuid);
    }
  }

  lemma StepKeepsLinks(cfg: Config, s: System, step: Step)
    requires SystemInv(cfg, s) && LinksMissing(s) && Enabled(cfg, s, step)
    ensures LinksMissing(Do(cfg, s, step))
  {
    if step.Advance? {
      AdvanceKeepsLinks(cfg, s, step.t, step.now, step.uuid);
    } else {
      StartBegins(cfg, s, step);
      StartedIsOk(cfg, s, step);
      BeginKeepsLinks(Base(s, step), step.t, Started(s, step));
    }
  }

  lemma {:induction false} RunKeepsLinks(cfg: Config, s: System, steps: seq<Step>, s': System)
    requires SystemInv(cfg, s) && LinksMissing(s) && Runs(cfg, s, steps, s')
    ensures LinksMissing(s')
    decreases |steps|
  {
    if steps != [] {
      StepKeepsSystem(cfg, s, steps[0]);
      StepKeepsLinks(cfg, s, steps[0]);
      RunKeepsLinks(cfg, Do(cfg, s, steps[0]), steps[1..], s');
    }
  }

  lemma ArisesLinks(cfg: Config, s: System)
    requires Arises(cfg, s)
    ensures LinksMissing(s)
  {
    var steps :| Runs(cfg, START, steps, s);
    RunKeepsLinks(cfg, START, steps, s);
  }

  /** Some mint below j has stored its token and not yet its edge. */
  ghost predicate HalfMintedBelow(s: System, j: Jti) {
    exists t :: t in s.threads && s.threads[t].Linking? && j in Jtis(s.threads[t].meta.chain)
  }

  /**
   The walk from j misses a token of its subtree, or none, exactly according to whether some mint
   below j is between put_token and add_edge at that moment.
   */
  lemma WalkIsCompleteIff(cfg: Config, s: System, j: Jti)
    requires Arises(cfg, s)
    ensures (forall x :: x in DescendantsOf(s.store, j) <==> InSubtree(s.store.tokens, j, x))
            <==> !HalfMintedBelow(s, j)
  {
    ArisesInv(cfg, s);
    ArisesLinks(cfg, s);
    InMemoryLists(s.store.edges);
    WalkIsSubtreeIff(s.store.tokens, cfg.maxTtl, s.store.edges, InMemory(s.store.edges), j);
    EdgesBelowIff(cfg, s, j);
  }

  lemma EdgesBelowIff(cfg: Config, s: System, j: Jti)
    requires SystemInv(cfg, s) && LinksMissing(s)
    ensures EdgesBelow(s.store.tokens, s.store.edges, j) <==> !HalfMintedBelow(s, j)
  {
    if t :| t in s.threads && s.threads[t].Linking? && j in Jtis(s.threads[t].meta.chain) {
      var m := s.threads[t].meta;
      assert ThreadOk(cfg, s.store, s.threads[t], s.began[t]);
      assert ParentLink(s.store.tokens, m.parentJti.value, m.jti) && InSubtree(s.store.tokens, j, m.jti);
      NotInOwnChain(s.store.tokens, cfg.maxTtl, m.jti, j);
    } else {
      forall u | u in s.threads && s.threads[u].Linking?
        ensures s.threads[u].meta.jti in s.store.tokens
        ensures s.store.tokens[s.threads[u].meta.jti] == s.threads[u].meta
      {
        assert ThreadOk(cfg, s.store, s.threads[u], s.began[u]);
      }
      forall p, c | ParentLink(s.store.tokens, p, c) && c != j && InSubtree(s.store.tokens, j, c)
        ensures Edge(s.store.edges, p, c)
      {
        assert Edge(s.store.edges, p, c) || LinkPending(s.threads, c);
      }
    }
  }

  lemma NotInOwnChain(tokens: TokenMap, maxTtl: int, t: Jti, j: Jti)
    requires Forest(tokens, maxTtl) && t in tokens && j in Jtis(tokens[t].chain)
    ensures t != j
  {
    ChainIsSimple(tokens, maxTtl, t);
    var path := Jtis(tokens[t].chain);
    var i :| 0 <= i < |path| && path[i] == j;
    assert (path + [t])[i] != (path + [t])[|path|];
  }

  // ------------------------------------------------------------------
  // New identifiers, and steps that are always possible
  // ------------------------------------------------------------------

  lemma UnusedIn(s: System) returns (uuid: string)
    ensures FreshIn(s, uuid)
  {
    var newborn := set t | t in s.threads && s.threads[t].Storing? :: s.threads[t].meta.jti;
    var parked := set t | t in s.threads && s.threads[t].Parking? :: s.threads[t].approval.approvalId;
    uuid := Longer(s.store.tokens.Keys + s.store.revoked.Keys + s.store.approvals.Keys + newborn + parked);
  }

  /** The calls that always write. */
  predicate WritesSomething(th: Thread) {
    th.Storing? || th.Linking? || th.Writing? || th.Collecting?
  }

  /** One writing call of thread t. */
  lemma StepOn(cfg: Config, s: System, t: nat) returns (s': System)
    requires t in s.threads && WritesSomething(s.threads[t])
    ensures Leads(cfg, s, s') && t in s'.threads && s'.threads == s.threads[t := s'.threads[t]]
    ensures s'.threads[t] == match s.threads[t]
              case Storing(m, a) => Linking(m, a)
              case Linking(m, Some(a)) => Writing(a)
              case Linking(m, None) => Logging(ChildRow(m))
              case Writing(a) => AfterDecision(s.store, a)
              case _ => Finished
    ensures s.threads[t].Storing? ==> s'.store == PutToken(s.store, s.threads[t].meta)
    ensures !s.threads[t].Storing? ==> s'.store.tokens == s.store.tokens
    ensures s'.store.revoked == s.store.revoked
    ensures !WritesRequest(s.threads[t]) ==> s'.store.approvals == s.store.approvals
    ensures WritesRequest(s.threads[t]) ==> s'.store == SetApproval(s.store, s.threads[t].approval)
    ensures s'.grants == GrantsAfter(s.grants, s.threads[t])
  {
    var uuid := UnusedIn(s);
    s' := Do(cfg, s, Advance(t, 0, uuid));
    LeadsOneStep(cfg, s, Advance(t, 0, uuid));
  }
}
