/**
 The in-memory store (storage/memory.py) as a value and one function per storage call.
 `MemoryStorage` in the Firewall file is the class that holds this value.
 */
module Storage {
  import opened Core
  import opened Walk
  import opened Tokens
  import opened Lineage
  import opened Records

  datatype Revocation = Revocation(at: Time, root: Jti)

  datatype Store = Store(
    tokens: TokenMap, edges: Edges, revoked: map<Jti, Revocation>,
    approvals: map<string, Approval>,
    actions: map<string, Action>, actionsByJti: map<Jti, seq<string>>,
    reviews: map<string, Review>, closed: bool)

  const EMPTY := Store(map[], map[], map[], map[], map[], map[], map[], false)

  function PutToken(st: Store, m: TokenMeta): Store {
    st.(tokens := st.tokens[m.jti := m])
  }

  function LinkTokens(st: Store, p: Jti, c: Jti): Store {
    st.(edges := AddEdge(st.edges, p, c))
  }

  function DescendantsOf(st: Store, j: Jti): seq<Jti> {
    InMemoryLists(st.edges);
    Descendants(st.edges, InMemory(st.edges), j)
  }

  /** Earlier revocation records are kept. */
  function AddRevocations(revoked: map<Jti, Revocation>, targets: set<Jti>, root: Jti, now: Time): map<Jti, Revocation> {
    map t | t in revoked.Keys + targets :: if t in revoked then revoked[t] else Revocation(now, root)
  }

  function RevokeMany(st: Store, targets: seq<Jti>, root: Jti, now: Time): Store {
    st.(revoked := AddRevocations(st.revoked, Elements(targets), root, now))
  }

  /** put_approval and update_approval. */
  function SetApproval(st: Store, a: Approval): Store {
    st.(approvals := st.approvals[a.approvalId := a])
  }

  function ActionsOn(byJti: map<Jti, seq<string>>, j: Jti): seq<string> {
    if j in byJti then byJti[j] else []
  }

  function PutAction(st: Store, a: Action): Store {
    st.(actions := st.actions[a.actionId := a],
        actionsByJti := st.actionsByJti[a.jti := ActionsOn(st.actionsByJti, a.jti) + [a.actionId]])
  }

  function CloseActionRow(st: Store, id: string, state: Completion, now: Time): Store {
    if id !in st.actions then st
    else st.(actions := st.actions[id := st.actions[id].(finishedAt := Some(now), state := Some(state))])
  }

  /** put_review and update_review. */
  function SetReview(st: Store, r: Review): Store {
    st.(reviews := st.reviews[r.reviewId := r])
  }

  // ------------------------------------------------------------------
  // actions_for_review
  // ------------------------------------------------------------------

  predicate Questionable(a: Action) {
    a.finishedAt.None? || a.state != Some(Clean)
  }

  function QuestionableOn(actions: map<string, Action>, ids: seq<string>): seq<Action> {
    if ids == [] then []
    else
      var id := ids[|ids| - 1];
      QuestionableOn(actions, ids[..|ids| - 1])
      + if id in actions && Questionable(actions[id]) then [actions[id]] else []
  }

  function QuestionableUnder(st: Store, jtis: seq<Jti>): seq<Action> {
    if jtis == [] then []
    else
      QuestionableUnder(st, jtis[..|jtis| - 1])
      + QuestionableOn(st.actions, ActionsOn(st.actionsByJti, jtis[|jtis| - 1]))
  }

  /** Stable insertion: after everything that did not start later. */
  function InsertByStart(a: Action, sorted: seq<Action>): seq<Action> {
    if sorted == [] || sorted[|sorted| - 1].startedAt <= a.startedAt then sorted + [a]
    else InsertByStart(a, sorted[..|sorted| - 1]) + [sorted[|sorted| - 1]]
  }

  function SortByStart(s: seq<Action>): seq<Action> {
    if s == [] then [] else InsertByStart(s[|s| - 1], SortByStart(s[..|s| - 1]))
  }

  function ActionsForReview(st: Store, jtis: seq<Jti>): seq<Action> {
    SortByStart(QuestionableUnder(st, jtis))
  }

  ghost predicate OldestFirst(s: seq<Action>) {
    forall i, j :: 0 <= i < j < |s| ==> s[i].startedAt <= s[j].startedAt
  }

  lemma {:induction false} InsertKeepsAll(a: Action, s: seq<Action>)
    ensures multiset(InsertByStart(a, s)) == multiset(s) + multiset{a}
    decreases |s|
  {
    var n := |s| - 1;
    if s != [] && s[n].startedAt > a.startedAt {
      InsertKeepsAll(a, s[..n]);
      assert s == s[..n] + [s[n]];
    }
  }

  lemma {:induction false} InsertIsSorted(a: Action, s: seq<Action>)
    requires OldestFirst(s)
    ensures OldestFirst(InsertByStart(a, s))
    decreases |s|
  {
    var n := |s| - 1;
    if s != [] && s[n].startedAt > a.startedAt {
      var r := InsertByStart(a, s[..n]);
      InsertIsSorted(a, s[..n]);
      InsertKeepsAll(a, s[..n]);
      forall i | 0 <= i < |r|
        ensures r[i].startedAt <= s[n].startedAt
      {
        assert r[i] in multiset(r);
        assert r[i] == a || r[i] in s[..n];
      }
    }
  }

  /** The listing holds exactly the collected actions, oldest first. */
  lemma {:induction false} SortIsSorted(s: seq<Action>)
    ensures multiset(SortByStart(s)) == multiset(s) && OldestFirst(SortByStart(s))
    decreases |s|
  {
    if s != [] {
      var n := |s| - 1;
      SortIsSorted(s[..n]);
      InsertKeepsAll(s[|s| - 1], SortByStart(s[..|s| - 1]));
      InsertIsSorted(s[n], SortByStart(s[..n]));
      assert s == s[..n] + [s[n]];
    }
  }

  // ------------------------------------------------------------------
  // What the listing contains
  // ------------------------------------------------------------------

  /** The per-jti index lists each action once, under its own jti and nowhere else. */
  ghost predicate Indexed(actions: map<string, Action>, byJti: map<Jti, seq<string>>) {
    && (forall j, id :: id in ActionsOn(byJti, j) <==> id in actions && actions[id].jti == j)
    && (forall j :: NoDups(ActionsOn(byJti, j)))
    && (forall id :: id in actions ==> actions[id].actionId == id)
  }

  ghost predicate DistinctIds(s: seq<Action>) {
    forall i, j :: 0 <= i < j < |s| ==> s[i].actionId != s[j].actionId
  }

  lemma {:induction false} QuestionableOnMeaning(actions: map<string, Action>, ids: seq<string>)
    requires forall id :: id in ids ==> id in actions && actions[id].actionId == id
    requires NoDups(ids)
    ensures var r := QuestionableOn(actions, ids);
            && (forall a :: a in r <==> a.actionId in ids && a == actions[a.actionId] && Questionable(a))
            && DistinctIds(r)
    decreases |ids|
  {
    if ids != [] {
      var n := |ids| - 1;
      assert ids == ids[..n] + [ids[n]];
      QuestionableOnMeaning(actions, ids[..n]);
      assert ids[n] !in ids[..n];
      var front := QuestionableOn(actions, ids[..n]);
      assert forall i :: 0 <= i < |front| ==> front[i] in front;
    }
  }

  lemma {:induction false} QuestionableUnderMeaning(st: Store, jtis: seq<Jti>)
    requires Indexed(st.actions, st.actionsByJti) && NoDups(jtis)
    ensures var r := QuestionableUnder(st, jtis);
            && (forall a :: a in r <==> a.actionId in st.actions && a == st.actions[a.actionId]
                                        && a.jti in jtis && Questionable(a))
            && DistinctIds(r)
    decreases |jtis|
  {
    if jtis != [] {
      var n := |jtis| - 1;
      var j, ids := jtis[n], ActionsOn(st.actionsByJti, jtis[n]);
      assert jtis == jtis[..n] + [j];
      assert j !in jtis[..n];
      QuestionableUnderMeaning(st, jtis[..n]);
      QuestionableOnMeaning(st.actions, ids);
      var front, last := QuestionableUnder(st, jtis[..n]), QuestionableOn(st.actions, ids);
      DistinctConcat(front, last);
    }
  }

  lemma DistinctConcat(a: seq<Action>, b: seq<Action>)
    requires DistinctIds(a) && DistinctIds(b)
    requires forall x, y :: x in a && y in b ==> x.actionId != y.actionId
    ensures DistinctIds(a + b)
  {
    var r := a + b;
    forall i, j | 0 <= i < j < |r|
      ensures r[i].actionId != r[j].actionId
    {
      if i < |a| <= j {
        assert r[i] in a && r[j] in b;
      }
    }
  }

  lemma DistinctPermutation(a: seq<Action>, b: seq<Action>)
    requires DistinctIds(a) && multiset(a) == multiset(b)
    ensures DistinctIds(b)
  {
    forall i, j | 0 <= i < j < |b|
      ensures b[i].actionId != b[j].actionId
    {
      if b[i].actionId == b[j].actionId {
        assert b[i] in multiset(a) && b[j] in multiset(a);
        var k :| 0 <= k < |a| && a[k] == b[i];
        var m :| 0 <= m < |a| && a[m] == b[j];
        assert k == m;
        TwiceInMultiset(b, i, j);
        OnceInMultiset(a, k);
      }
    }
  }

  lemma TwiceInMultiset(s: seq<Action>, i: nat, j: nat)
    requires i < j < |s| && s[i] == s[j]
    ensures multiset(s)[s[i]] >= 2
  {
    assert s == s[..j] + [s[j]] + s[j + 1..];
    assert s[i] in s[..j];
  }

  lemma OnceInMultiset(s: seq<Action>, k: nat)
    requires k < |s| && DistinctIds(s)
    ensures multiset(s)[s[k]] == 1
  {
    assert s == s[..k] + [s[k]] + s[k + 1..];
    assert s[k] !in s[..k] && s[k] !in s[k + 1..];
  }

  /** The review candidates of a revoke: each questionable action of the given jtis, exactly once. */
  lemma CandidatesMeaning(st: Store, jtis: seq<Jti>)
    requires Indexed(st.actions, st.actionsByJti) && NoDups(jtis)
    ensures var r := ActionsForReview(st, jtis);
            && (forall a :: a in r <==> a.actionId in st.actions && a == st.actions[a.actionId]
                                        && a.jti in jtis && Questionable(a))
            && DistinctIds(r) && OldestFirst(r)
  {
    var found := QuestionableUnder(st, jtis);
    QuestionableUnderMeaning(st, jtis);
    SortIsSorted(found);
    var r := SortByStart(found);
    assert forall a :: a in r <==> a in multiset(r);
    assert forall a :: a in found <==> a in multiset(found);
    DistinctPermutation(found, r);
  }
}
