/** The machine of actions and reviews against the authority: calls that run alone store what the operations store. */
module InterleavedReviewsAlone {
  import opened Core
  import opened Tokens
  import opened Records
  import opened Storage
  import opened Authority
  import opened InterleavedReviews

  // ------------------------------------------------------------------
  // Opening, closing, resolving
  // ------------------------------------------------------------------

  /** The action that an opening describes. */
  function Described(c: Claims, scope: Scope, name: string, rev: Reversibility, id: string, now: Time): Action {
    Action(id, c.jti, c.sub, name, scope, now, None, None, rev)
  }

  /** Accepting an action and storing it, with no call in between, is opening it. */
  lemma OpenAlone(cfg: Config, s: State, m: System, t: nat, now: Time, c: Claims, scope: Scope, name: string,
                  rev: Reversibility, id: string, uuid: string)
    requires m.store == s.store && t !in m.threads
    requires OpenAction(cfg, s, now, Encoded(c), scope, name, rev, id).1.Opened?
    ensures var a := Described(c, scope, name, rev, id, now);
            Do(Do(m, Accept(t, a)), Advance(t, now, uuid)).store
            == OpenAction(cfg, s, now, Encoded(c), scope, name, rev, id).0.store
  {
    CheckKeepsStore(cfg, s, now, c, scope);
  }

  lemma CheckKeepsStore(cfg: Config, s: State, now: Time, c: Claims, scope: Scope)
    ensures var (s1, v) := Verify(cfg, s, now, Encoded(c), scope); s1.store == s.store && (v.Valid? ==> v.claims == c)
  {
  }

  lemma CloseAlone(s: State, m: System, now: Time, id: string, clean: bool)
    requires m.store == s.store
    ensures Do(m, CloseOne(id, clean, now)).store == CloseAction(s, now, id, clean).store
  {
  }

  lemma ResolveAlone(s: State, m: System, t: nat, now: Time, id: string, reviewer: string, uuid: string)
    requires m.store == s.store && Enabled(m, StartResolve(t, id, reviewer))
    ensures Do(Do(m, StartResolve(t, id, reviewer)), Advance(t, now, uuid)).store
            == ResolveReview(s, now, id, false, reviewer).0.store
    ensures ResolveReview(s, now, id, false, reviewer).1 == Done
  {
  }

  // ------------------------------------------------------------------
  // Revoking
  // ------------------------------------------------------------------

  /** The ids that the reviews of a revoke take: one for each candidate that needs a review. */
  function Taken(already: set<string>, candidates: seq<Action>, ids: seq<string>): seq<string>
    requires |ids| == |candidates|
  {
    if candidates == [] then []
    else
      var n := |candidates| - 1;
      Taken(already, candidates[..n], ids[..n]) + if NeedsReview(already, candidates[n]) then [ids[n]] else []
  }

  /** Reviews of these actions, stored one after another. */
  function PutReviews(st: Store, found: seq<Action>, ids: seq<string>, now: Time, root: Jti): Store
    requires |ids| == |found|
  {
    if found == [] then st
    else
      var n := |found| - 1;
      SetReview(PutReviews(st, found[..n], ids[..n], now, root), ReviewOf(found[n], ids[n], now, root))
  }

  lemma {:induction false} TakenLength(already: set<string>, candidates: seq<Action>, ids: seq<string>)
    requires |ids| == |candidates|
    ensures |Taken(already, candidates, ids)| == |Wanted(candidates, already)|
    decreases |ids|
  {
    if candidates != [] {
      TakenLength(already, candidates[..|candidates| - 1], ids[..|candidates| - 1]);
    }
  }

  lemma {:induction false} QueuePuts(s: State, already: set<string>, candidates: seq<Action>, ids: seq<string>, now: Time, root: Jti)
    requires |ids| == |candidates|
    ensures |Taken(already, candidates, ids)| == |Wanted(candidates, already)|
    ensures QueueReviews(s, already, candidates, ids, now, root).0.store
            == PutReviews(s.store, Wanted(candidates, already), Taken(already, candidates, ids), now, root)
    decreases |ids|
  {
    TakenLength(already, candidates, ids);
    if candidates != [] {
      var n := |candidates| - 1;
      var a := candidates[n];
      QueuePuts(s, already, candidates[..n], ids[..n], now, root);
      PutLast(s.store, Wanted(candidates[..n], already), Taken(already, candidates[..n], ids[..n]), a, ids[n], now, root);
    }
  }

  lemma PutLast(st: Store, found: seq<Action>, ids: seq<string>, a: Action, id: string, now: Time, root: Jti)
    requires |ids| == |found|
    ensures PutReviews(st, found + [a], ids + [id], now, root)
            == SetReview(PutReviews(st, found, ids, now, root), ReviewOf(a, id, now, root))
    ensures found + [] == found && ids + [] == ids
  {
    assert (found + [a])[..|found|] == found && (ids + [id])[..|found|] == ids;
  }

  lemma {:induction false} PutFirst(st: Store, found: seq<Action>, ids: seq<string>, now: Time, root: Jti)
    requires |ids| == |found| && found != []
    ensures PutReviews(st, found, ids, now, root)
            == PutReviews(SetReview(st, ReviewOf(found[0], ids[0], now, root)), found[1..], ids[1..], now, root)
    decreases |found|
  {
    var n := |found| - 1;
    if n == 0 {
      assert found[..0] == [] && ids[..0] == [];
    } else {
      PutFirst(st, found[..n], ids[..n], now, root);
      assert found[..n][1..] == found[1..][..n - 1] && ids[..n][1..] == ids[1..][..n - 1];
    }
  }

  /** The calls of one thread, each with its clock and its fresh id. */
  function Calls(m: System, t: nat, now: Time, ids: seq<string>): System
    decreases |ids|
  {
    if ids == [] then m else Calls(Do(m, Advance(t, now, ids[0])), t, now, ids[1..])
  }

  lemma {:induction false} QueueAlone(m: System, t: nat, now: Time, ids: seq<string>, last: string)
    requires t in m.threads && m.threads[t].Queueing? && |m.threads[t].found| == |ids|
    ensures var th := m.threads[t]; var m' := Calls(m, t, now, ids + [last]);
            m'.store == PutReviews(m.store, th.found, ids, now, th.root) && m'.threads == m.threads[t := Finished]
    decreases |ids|
  {
    var th := m.threads[t];
    if ids == [] {
      assert [last][1..] == [];
      assert Calls(m, t, now, [last]) == Do(m, Advance(t, now, last));
    } else {
      assert (ids + [last])[0] == ids[0] && (ids + [last])[1..] == ids[1..] + [last];
      QueueAlone(Do(m, Advance(t, now, ids[0])), t, now, ids[1..], last);
      PutFirst(m.store, th.found, ids, now, th.root);
    }
  }

  lemma RevokeReaches(m: System, t: nat, now: Time, root: Jti, targets: seq<Jti>, u: seq<string>)
    requires t !in m.threads && |u| == 3
    ensures var m1 := Do(m, StartRevoke(t, root, targets));
            var m4 := Do(Do(Do(m1, Advance(t, now, u[0])), Advance(t, now, u[1])), Advance(t, now, u[2]));
            && m4.store == RevokeMany(m.store, targets, root, now)
            && m4.threads == m.threads[t := Queueing(root, targets, Wanted(ActionsForReview(m.store, targets), Reviewed(m.store)))]
  {
    var found, recorded := ActionsForReview(m.store, targets), RevokeMany(m.store, targets, root, now);
    var m1 := Do(m, StartRevoke(t, root, targets));
    var m2 := Do(m1, Advance(t, now, u[0]));
    var m3 := Do(m2, Advance(t, now, u[1]));
    assert m2.store == m.store && m2.threads == m.threads[t := Gathered(root, targets, found)];
    assert m3.store == recorded && m3.threads == m.threads[t := Recorded(root, targets, found)];
    assert Reviewed(recorded) == Reviewed(m.store);
  }

  /**
   A revoke whose calls nobody interrupts, walk included, stores exactly what the operation stores: the
   same revocations and, under the ids that its calls took, the same reviews.
   */
  lemma RevokeAlone(s: State, m: System, t: nat, now: Time, j: Jti, ids: seq<string>, u: seq<string>, last: string)
    requires m.store == s.store && t !in m.threads && |ids| == |Candidates(s.store, j)| && |u| == 3
    ensures var m1 := Do(m, StartRevoke(t, j, DescendantsOf(s.store, j)));
            var m' := Calls(m1, t, now, u + (Taken(Reviewed(s.store), Candidates(s.store, j), ids) + [last]));
            m'.store == Revoke(s, now, j, ids).0.store && m'.threads == m.threads[t := Finished]
  {
    var targets, already, candidates := DescendantsOf(s.store, j), Reviewed(s.store), Candidates(s.store, j);
    var m1 := Do(m, StartRevoke(t, j, targets));
    var m4 := Do(Do(Do(m1, Advance(t, now, u[0])), Advance(t, now, u[1])), Advance(t, now, u[2]));
    RevokeReaches(m, t, now, j, targets, u);
    ThreeCalls(m1, t, now, u, Taken(already, candidates, ids) + [last]);
    QueueEnds(m, m4, t, now, j, targets, already, candidates, ids, last);
    QueuePuts(s.(store := RevokeMany(s.store, targets, j, now)), already, candidates, ids, now, j);
    assert Revoke(s, now, j, ids).0.store
           == QueueReviews(s.(store := RevokeMany(s.store, targets, j, now)), already, candidates, ids, now, j).0.store;
  }

  lemma QueueEnds(m: System, m4: System, t: nat, now: Time, root: Jti, targets: seq<Jti>, already: set<string>,
                  candidates: seq<Action>, ids: seq<string>, last: string)
    requires |ids| == |candidates| && m4.threads == m.threads[t := Queueing(root, targets, Wanted(candidates, already))]
    ensures var m' := Calls(m4, t, now, Taken(already, candidates, ids) + [last]);
            && |Taken(already, candidates, ids)| == |Wanted(candidates, already)|
            && m'.store == PutReviews(m4.store, Wanted(candidates, already), Taken(already, candidates, ids), now, root)
            && m'.threads == m.threads[t := Finished]
  {
    TakenLength(already, candidates, ids);
    QueueAlone(m4, t, now, Taken(already, candidates, ids), last);
    assert m4.threads[t := Finished] == m.threads[t := Finished];
  }

  lemma ThreeCalls(m: System, t: nat, now: Time, u: seq<string>, rest: seq<string>)
    requires |u| == 3
    ensures Calls(m, t, now, u + rest)
            == Calls(Do(Do(Do(m, Advance(t, now, u[0])), Advance(t, now, u[1])), Advance(t, now, u[2])), t, now, rest)
  {
    var m1 := Do(m, Advance(t, now, u[0]));
    FirstCall(m, t, now, u, rest);
    FirstCall(m1, t, now, u[1..], rest);
    FirstCall(Do(m1, Advance(t, now, u[1..][0])), t, now, u[1..][1..], rest);
    assert u[1..][1..][1..] + rest == rest;
  }

  lemma FirstCall(m: System, t: nat, now: Time, u: seq<string>, rest: seq<string>)
    requires u != []
    ensures Calls(m, t, now, u + rest) == Calls(Do(m, Advance(t, now, u[0])), t, now, u[1..] + rest)
  {
    assert (u + rest)[0] == u[0] && (u + rest)[1..] == u[1..] + rest;
  }
}
