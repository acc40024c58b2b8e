/**
 The audit log against the store while operations interleave: what the log does not tell yet is owed
 by a call in flight, and once none owes a row, replaying the log rebuilds the store.
 */
module InterleavedLog {
  import opened Core
  import opened Walk
  import opened Tokens
  import opened Lineage
  import opened Records
  import opened Storage
  import opened Authority
  import opened AuthorityInvariant
  import opened AuditReplay
  import opened Interleaving
  import opened InterleavedApprovals

  // ------------------------------------------------------------------
  // What a thread still has to tell
  // ------------------------------------------------------------------

  /** The token that a row is about. */
  function RowToken(row: Event): Option<Jti> {
    match row
    case RootMinted(j, _, _, _) => Some(j)
    case Delegated(j, _, _, _, _, _) => Some(j)
    case ApprovalGranted(j, _, _, _, _, _, _) => Some(j)
    case _ => None
  }

  predicate OwesToken(th: Thread, j: Jti) {
    match th
    case Linking(m, _) => m.jti == j
    case Writing(a) => a.childJti == Some(j)
    case Logging(row) => RowToken(row) == Some(j)
    case _ => false
  }

  predicate OwesEdge(th: Thread, j: Jti) {
    OwesToken(th, j) && !th.Linking?
  }

  predicate OwesRevocation(th: Thread, j: Jti) {
    th.Logging? && th.row.RevokedTree? && j in th.row.targets
  }

  predicate OwesNothing(th: Thread) {
    !th.Linking? && !th.Logging? && (th.Writing? ==> th.approval.childJti.None?)
  }

  ghost predicate SomeOwesToken(s: System, j: Jti) {
    exists t :: t in s.threads && OwesToken(s.threads[t], j)
  }

  ghost predicate SomeOwesEdge(s: System, j: Jti) {
    exists t :: t in s.threads && OwesEdge(s.threads[t], j)
  }

  ghost predicate SomeOwesRevocation(s: System, j: Jti) {
    exists t :: t in s.threads && OwesRevocation(s.threads[t], j)
  }

  // ------------------------------------------------------------------
  // The log tells the truth, and all that nobody owes
  // ------------------------------------------------------------------

  ghost predicate Told(v: View, st: Store) {
    && (forall j :: j in v.tokens ==> j in st.tokens && v.tokens[j] == NodeOf(st.tokens[j]))
    && (forall p, c :: (p, c) in v.edges ==> Edge(st.edges, p, c))
    && (forall j :: j in v.revoked ==> j in st.revoked)
  }

  ghost predicate TokensOwed(v: View, s: System) {
    forall j :: j in s.store.tokens && j !in v.tokens ==> SomeOwesToken(s, j)
  }

  ghost predicate EdgesOwed(v: View, s: System) {
    forall p, c :: Edge(s.store.edges, p, c) && (p, c) !in v.edges ==> SomeOwesEdge(s, c)
  }

  ghost predicate RevocationsOwed(v: View, s: System) {
    forall j :: j in s.store.revoked && j !in v.revoked ==> SomeOwesRevocation(s, j)
  }

  /** A stored child of p, with its edge. */
  predicate StoredChild(st: Store, j: Jti, p: Jti) {
    j in st.tokens && st.tokens[j].parentJti == Some(p) && Edge(st.edges, p, j)
  }

  predicate RowTrue(st: Store, row: Event) {
    match row
    case RootMinted(j, scopes, _, _) => j in st.tokens && NodeOf(st.tokens[j]) == Node(None, j, 0, scopes)
    case Delegated(j, p, root, scopes, depth, _) =>
      StoredChild(st, j, p) && NodeOf(st.tokens[j]) == Node(Some(p), root, depth, scopes)
    case ApprovalGranted(j, p, root, scopes, depth, _, _) =>
      StoredChild(st, j, p) && NodeOf(st.tokens[j]) == Node(Some(p), root, depth, scopes)
    case RevokedTree(_, targets, _, _) => forall j :: j in targets ==> j in st.revoked
    case _ => true
  }

  predicate ThreadTrue(st: Store, th: Thread) {
    && (th.Logging? ==> RowTrue(st, th.row))
    && (th.Writing? && th.approval.childJti.Some? ==> StoredChild(st, th.approval.childJti.value, th.approval.parentJti))
  }

  ghost predicate ThreadsTrue(s: System) {
    forall t :: t in s.threads ==> ThreadTrue(s.store, s.threads[t])
  }

  ghost predicate LogInv(s: System) {
    var v := Replay(s.log);
    Told(v, s.store) && TokensOwed(v, s) && EdgesOwed(v, s) && RevocationsOwed(v, s) && ThreadsTrue(s)
  }

  // ------------------------------------------------------------------
  // Every step keeps it
  // ------------------------------------------------------------------

  ghost predicate StoreGrew(st: Store, st': Store) {
    && (forall j :: j in st.tokens ==> j in st'.tokens && st'.tokens[j] == st.tokens[j])
    && (forall p, c :: Edge(st.edges, p, c) ==> Edge(st'.edges, p, c))
    && (forall j :: j in st.revoked ==> j in st'.revoked)
  }

  /** Thread t has moved on over a store that has grown; the others owe what they owed. */
  ghost predicate Moved(s: System, t: nat, s': System) {
    StoreGrew(s.store, s'.store) && t in s'.threads && s'.threads == s.threads[t := s'.threads[t]]
  }

  lemma TrueStays(s: System, t: nat, s': System)
    requires ThreadsTrue(s) && Moved(s, t, s') && ThreadTrue(s'.store, s'.threads[t])
    ensures ThreadsTrue(s')
  {
    forall u | u in s'.threads
      ensures ThreadTrue(s'.store, s'.threads[u])
    {
      assert u != t ==> ThreadTrue(s.store, s.threads[u]);
    }
  }

  lemma TokenStillOwed(s: System, t: nat, s': System, j: Jti)
    requires Moved(s, t, s') && SomeOwesToken(s, j)
    requires t in s.threads && OwesToken(s.threads[t], j) ==> OwesToken(s'.threads[t], j)
    ensures SomeOwesToken(s', j)
  {
    var u :| u in s.threads && OwesToken(s.threads[u], j);
    assert OwesToken(s'.threads[if u == t then t else u], j);
  }

  lemma EdgeStillOwed(s: System, t: nat, s': System, j: Jti)
    requires Moved(s, t, s') && SomeOwesEdge(s, j)
    requires t in s.threads && OwesEdge(s.threads[t], j) ==> OwesEdge(s'.threads[t], j)
    ensures SomeOwesEdge(s', j)
  {
    var u :| u in s.threads && OwesEdge(s.threads[u], j);
    assert OwesEdge(s'.threads[if u == t then t else u], j);
  }

  lemma RevocationStillOwed(s: System, t: nat, s': System, j: Jti)
    requires Moved(s, t, s') && SomeOwesRevocation(s, j)
    requires t in s.threads && OwesRevocation(s.threads[t], j) ==> OwesRevocation(s'.threads[t], j)
    ensures SomeOwesRevocation(s', j)
  {
    var u :| u in s.threads && OwesRevocation(s.threads[u], j);
    assert OwesRevocation(s'.threads[if u == t then t else u], j);
  }

  /** What is new in the store is owed by t, which goes on owing what it owed. */
  ghost predicate TakesOn(s: System, t: nat, s': System)
    requires t in s'.threads
  {
    var th, th' := if t in s.threads then s.threads[t] else Finished, s'.threads[t];
    && (forall j :: OwesToken(th, j) ==> OwesToken(th', j))
    && (forall j :: OwesEdge(th, j) ==> OwesEdge(th', j))
    && (forall j :: OwesRevocation(th, j) ==> OwesRevocation(th', j))
    && (forall j :: j in s'.store.tokens && j !in s.store.tokens ==> OwesToken(th', j))
    && (forall p, c :: Edge(s'.store.edges, p, c) && !Edge(s.store.edges, p, c) ==> OwesEdge(th', c))
    && (forall j :: j in s'.store.revoked && j !in s.store.revoked ==> OwesRevocation(th', j))
  }

  /** A step that writes no row. */
  lemma UnloggedKeeps(s: System, t: nat, s': System)
    requires LogInv(s) && t in s'.threads && Moved(s, t, s') && TakesOn(s, t, s') && s'.log == s.log
    requires ThreadTrue(s'.store, s'.threads[t])
    ensures LogInv(s')
  {
    var v := Replay(s.log);
    TrueStays(s, t, s');
    forall j | j in s'.store.tokens && j !in v.tokens
      ensures SomeOwesToken(s', j)
    {
      if j in s.store.tokens {
        TokenStillOwed(s, t, s', j);
      }
    }
    forall p, c | Edge(s'.store.edges, p, c) && (p, c) !in v.edges
      ensures SomeOwesEdge(s', c)
    {
      if Edge(s.store.edges, p, c) {
        EdgeStillOwed(s, t, s', c);
      }
    }
    forall j | j in s'.store.revoked && j !in v.revoked
      ensures SomeOwesRevocation(s', j)
    {
      if j in s.store.revoked {
        RevocationStillOwed(s, t, s', j);
      }
    }
  }

  /** A true row brings the replay up by what its thread owed, and by nothing else. */
  lemma RowTells(v: View, st: Store, row: Event)
    requires Told(v, st) && RowTrue(st, row)
    ensures var v' := Apply(v, row);
            && Told(v', st)
            && (forall j :: j in v.tokens || RowToken(row) == Some(j) ==> j in v'.tokens)
            && (forall p, c :: (p, c) in v.edges ==> (p, c) in v'.edges)
            && (forall j :: j in v.revoked || (row.RevokedTree? && j in row.targets) ==> j in v'.revoked)
  {
  }

  /** The edge of a row's token is the only one that its token has. */
  lemma RowTellsEdge(v: View, st: Store, row: Event, p: Jti, c: Jti)
    requires RowTrue(st, row) && RowToken(row) == Some(c) && EdgesSound(st.tokens, st.edges) && Edge(st.edges, p, c)
    ensures (p, c) in Apply(v, row).edges
  {
    assert ParentLink(st.tokens, p, c);
  }

  lemma LogKeeps(s: System, t: nat, s': System, row: Event)
    requires LogInv(s) && EdgesSound(s.store.tokens, s.store.edges)
    requires t in s.threads && s.threads[t] == Logging(row)
    requires s'.store == s.store && s'.log == s.log + [row] && s'.threads == s.threads[t := Finished]
    ensures LogInv(s')
  {
    var v, v' := Replay(s.log), Replay(s'.log);
    ReplaySnoc(s.log, row);
    assert ThreadTrue(s.store, s.threads[t]);
    RowTells(v, s.store, row);
    TrueStays(s, t, s');
    forall j | j in s'.store.tokens && j !in v'.tokens
      ensures SomeOwesToken(s', j)
    {
      TokenStillOwed(s, t, s', j);
    }
    forall p, c | Edge(s'.store.edges, p, c) && (p, c) !in v'.edges
      ensures SomeOwesEdge(s', c)
    {
      if OwesEdge(s.threads[t], c) {
        RowTellsEdge(v, s.store, row, p, c);
      }
      EdgeStillOwed(s, t, s', c);
    }
    forall j | j in s'.store.revoked && j !in v'.revoked
      ensures SomeOwesRevocation(s', j)
    {
      RevocationStillOwed(s, t, s', j);
    }
  }

  // ------------------------------------------------------------------
  // Call by call
  // ------------------------------------------------------------------

  lemma QuietLook(cfg: Config, s: System, t: nat, now: Time, uuid: string)
    requires LogInv(s) && t in s.threads && Looks(s.threads[t]) && !s.threads[t].Logging?
    ensures LogInv(Do(cfg, s, Advance(t, now, uuid)))
  {
    var s' := Do(cfg, s, Advance(t, now, uuid));
    LookLeavesStore(cfg, s.store, s.threads[t], now, uuid);
    LookOwesNothing(cfg, s.store, s.threads[t], now, uuid);
    UnloggedKeeps(s, t, s');
  }

  lemma LookOwesNothing(cfg: Config, st: Store, th: Thread, now: Time, uuid: string)
    requires Looks(th) && !th.Logging?
    ensures OwesNothing(StorageCall(cfg, st, th, now, uuid).1)
  {
  }

  lemma PutTakesOn(s: System, t: nat, m: TokenMeta, after: Option<Approval>, s': System)
    requires t in s.threads && s.threads[t] == Storing(m, after) && m.jti !in s.store.tokens
    requires s'.store == PutToken(s.store, m) && s'.threads == s.threads[t := Linking(m, after)]
    ensures Moved(s, t, s') && TakesOn(s, t, s') && ThreadTrue(s'.store, s'.threads[t])
  {
  }

  lemma StoreOwes(cfg: Config, s: System, t: nat, now: Time, uuid: string)
    requires LogInv(s) && SystemInv(cfg, s) && ApprovalInv(s) && t in s.threads && s.threads[t].Storing?
    ensures LogInv(Do(cfg, s, Advance(t, now, uuid)))
  {
    var s' := Do(cfg, s, Advance(t, now, uuid));
    StoreCall(cfg, s, t, now, uuid);
    NewbornsAreOutside(cfg, s);
    PutTakesOn(s, t, s.threads[t].meta, s.threads[t].after, s');
    UnloggedKeeps(s, t, s');
  }

  lemma LinkIsTrue(cfg: Config, st: Store, grants: map<Jti, string>, m: TokenMeta, after: Option<Approval>, began: set<Jti>)
    requires ThreadOk(cfg, st, Linking(m, after), began) && ShapeOk(st, grants, Linking(m, after))
    ensures m.parentJti.Some?
    ensures ThreadTrue(LinkTokens(st, m.parentJti.value, m.jti), AfterLink(m, after))
    ensures after.Some? ==> after.value.childJti == Some(m.jti)
  {
  }

  lemma LinkTakesOn(s: System, t: nat, m: TokenMeta, p: Jti, after: Option<Approval>, s': System)
    requires t in s.threads && s.threads[t] == Linking(m, after) && (after.Some? ==> after.value.childJti == Some(m.jti))
    requires s'.store == LinkTokens(s.store, p, m.jti) && s'.threads == s.threads[t := AfterLink(m, after)]
    ensures Moved(s, t, s') && TakesOn(s, t, s')
  {
    forall x, y
      ensures Edge(s'.store.edges, x, y) <==> Edge(s.store.edges, x, y) || (x == p && y == m.jti)
    {
    }
  }

  lemma LinkOwes(cfg: Config, s: System, t: nat, now: Time, uuid: string)
    requires LogInv(s) && SystemInv(cfg, s) && ApprovalInv(s) && t in s.threads && s.threads[t].Linking?
    ensures LogInv(Do(cfg, s, Advance(t, now, uuid)))
  {
    var s', m, after := Do(cfg, s, Advance(t, now, uuid)), s.threads[t].meta, s.threads[t].after;
    assert ThreadOk(cfg, s.store, s.threads[t], s.began[t]) && ShapeOk(s.store, s.grants, s.threads[t]);
    LinkIsTrue(cfg, s.store, s.grants, m, after, s.began[t]);
    LinkCall(cfg, s, t, now, uuid);
    LinkTakesOn(s, t, m, m.parentJti.value, after, s');
    UnloggedKeeps(s, t, s');
  }

  lemma DecisionIsTrue(st: Store, grants: map<Jti, string>, a: Approval)
    requires ShapeOk(st, grants, Writing(a)) && ThreadTrue(st, Writing(a))
    requires a.childJti.Some? && a.childJti.value in st.tokens ==> st.tokens[a.childJti.value].jti == a.childJti.value
    ensures ThreadTrue(SetApproval(st, a), AfterDecision(st, a))
    ensures a.childJti.Some? ==> AfterDecision(st, a).Logging? && RowToken(AfterDecision(st, a).row) == a.childJti
    ensures a.childJti.None? ==> AfterDecision(st, a) == Finished
  {
  }

  lemma WriteTakesOn(s: System, t: nat, a: Approval, th': Thread, s': System)
    requires t in s.threads && WritesRequest(s.threads[t]) && s.threads[t].approval == a
    requires s.threads[t].Writing? && a.childJti.Some? ==> th'.Logging? && RowToken(th'.row) == a.childJti
    requires s'.store == SetApproval(s.store, a) && s'.threads == s.threads[t := th']
    ensures Moved(s, t, s') && TakesOn(s, t, s')
  {
  }

  lemma OwnJti(cfg: Config, st: Store, j: Jti)
    requires Forest(st.tokens, cfg.maxTtl) && j in st.tokens
    ensures st.tokens[j].jti == j
  {
    assert WellPlaced(st.tokens, cfg.maxTtl, j);
  }

  lemma WriteOwes(cfg: Config, s: System, t: nat, now: Time, uuid: string)
    requires LogInv(s) && SystemInv(cfg, s) && ApprovalInv(s) && t in s.threads && WritesRequest(s.threads[t])
    ensures LogInv(Do(cfg, s, Advance(t, now, uuid)))
  {
    var th := s.threads[t];
    assert ShapeOk(s.store, s.grants, th) && ThreadTrue(s.store, th);
    if th.Writing? {
      if th.approval.childJti.Some? {
        OwnJti(cfg, s.store, th.approval.childJti.value);
      }
      DecisionIsTrue(s.store, s.grants, th.approval);
    }
    WriteCall(cfg, s, t, now, uuid);
    WriteTakesOn(s, t, th.approval, AfterWrite(s.store, th), Do(cfg, s, Advance(t, now, uuid)));
    UnloggedKeeps(s, t, Do(cfg, s, Advance(t, now, uuid)));
  }

  lemma RecordTakesOn(s: System, t: nat, j: Jti, targets: seq<Jti>, now: Time, s': System)
    requires t in s.threads && s.threads[t] == Walked(j, targets)
    requires s'.store == RevokeMany(s.store, targets, j, now) && s'.threads == s.threads[t := AfterRecord(j, targets)]
    ensures Moved(s, t, s') && TakesOn(s, t, s') && ThreadTrue(s'.store, s'.threads[t])
  {
  }

  lemma RevokeOwes(cfg: Config, s: System, t: nat, now: Time, uuid: string)
    requires LogInv(s) && t in s.threads && s.threads[t].Walked?
    ensures LogInv(Do(cfg, s, Advance(t, now, uuid)))
  {
    RecordCall(cfg, s, t, now, uuid);
    RecordTakesOn(s, t, s.threads[t].jti, s.threads[t].targets, now, Do(cfg, s, Advance(t, now, uuid)));
    UnloggedKeeps(s, t, Do(cfg, s, Advance(t, now, uuid)));
  }

  lemma AdvanceKeepsLog(cfg: Config, s: System, t: nat, now: Time, uuid: string)
    requires LogInv(s) && SystemInv(cfg, s) && ApprovalInv(s) && t in s.threads
    ensures LogInv(Do(cfg, s, Advance(t, now, uuid)))
  {
    var th := s.threads[t];
    if th.Logging? {
      LogKeeps(s, t, Do(cfg, s, Advance(t, now, uuid)), th.row);
    } else if Looks(th) {
      QuietLook(cfg, s, t, now, uuid);
    } else if th.Storing? {
      StoreOwes(cfg, s, t, now, uuid);
    } else if th.Linking? {
      LinkOwes(cfg, s, t, now, uuid);
    } else if th.Walked? {
      RevokeOwes(cfg, s, t, now, uuid);
    } else {
      WriteOwes(cfg, s, t, now, uuid);
    }
  }

  lemma BeginKeepsLog(s: System, t: nat, th: Thread)
    requires LogInv(s) && t !in s.threads && OwesNothing(th)
    ensures LogInv(Begin(s, t, th))
  {
    UnloggedKeeps(s, t, Begin(s, t, th));
  }

  lemma StartedOwesNothing(cfg: Config, s: System, step: Step)
    requires Enabled(cfg, s, step) && !step.Advance? && !step.StartRoot?
    ensures OwesNothing(Started(s, step))
  {
  }

  lemma RootKeepsLog(cfg: Config, s: System, t: nat, c: Claims)
    requires LogInv(s) && Enabled(cfg, s, StartRoot(t, c))
    ensures LogInv(Do(cfg, s, StartRoot(t, c)))
  {
    UnloggedKeeps(s, t, Do(cfg, s, StartRoot(t, c)));
  }

  lemma StepKeepsLog(cfg: Config, s: System, step: Step)
    requires LogInv(s) && SystemInv(cfg, s) && ApprovalInv(s) && Enabled(cfg, s, step)
    ensures LogInv(Do(cfg, s, step))
  {
    if step.Advance? {
      AdvanceKeepsLog(cfg, s, step.t, step.now, step.uuid);
    } else if step.StartRoot? {
      RootKeepsLog(cfg, s, step.t, step.c);
    } else {
      StartBegins(cfg, s, step);
      StartedOwesNothing(cfg, s, step);
      BeginKeepsLog(s, step.t, Started(s, step));
    }
  }

  lemma {:induction false} RunKeepsLog(cfg: Config, s: System, steps: seq<Step>, s': System)
    requires LogInv(s) && SystemInv(cfg, s) && ApprovalInv(s) && Runs(cfg, s, steps, s')
    ensures LogInv(s')
    decreases |steps|
  {
    if steps != [] {
      StepKeepsSystem(cfg, s, steps[0]);
      StepKeepsApprovals(cfg, s, steps[0]);
      StepKeepsLog(cfg, s, steps[0]);
      RunKeepsLog(cfg, Do(cfg, s, steps[0]), steps[1..], s');
    }
  }

  lemma ArisesLog(cfg: Config, s: System)
    requires Arises(cfg, s)
    ensures LogInv(s)
  {
    var steps :| Runs(cfg, START, steps, s);
    RunKeepsLog(cfg, START, steps, s);
  }

  // ------------------------------------------------------------------
  // The results
  // ------------------------------------------------------------------

  /** In every interleaving the log tells nothing but the truth. */
  lemma LogNeverLies(cfg: Config, s: System)
    requires Arises(cfg, s)
    ensures Told(Replay(s.log), s.store)
  {
    ArisesLog(cfg, s);
  }

  /**
   Once no call owes a row, and so whenever none is in flight, replaying the log rebuilds the token map,
   the edge set and the revoked set exactly, however the calls and their rows interleaved.
   */
  lemma SettledLogRebuildsStore(cfg: Config, s: System)
    requires Arises(cfg, s) && forall t :: t in s.threads ==> OwesNothing(s.threads[t])
    ensures Replay(s.log) == ViewOf(s.store)
  {
    ArisesLog(cfg, s);
    var v, w := Replay(s.log), ViewOf(s.store);
    NothingOwed(s);
    forall q
      ensures q in v.edges <==> q in w.edges
    {
      assert q == (q.0, q.1);
      assert q in w.edges <==> Edge(s.store.edges, q.0, q.1);
    }
    assert v.edges == w.edges;
    assert v.tokens == w.tokens;
    assert v.revoked == w.revoked;
  }

  lemma NothingOwed(s: System)
    requires forall t :: t in s.threads ==> OwesNothing(s.threads[t])
    ensures forall j :: !SomeOwesToken(s, j) && !SomeOwesEdge(s, j) && !SomeOwesRevocation(s, j)
  {
  }
}
