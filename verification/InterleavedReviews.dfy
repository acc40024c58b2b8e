/**
 Actions and reviews while a revoke is in progress, at the grain of single storage calls.

 Opening an action checks the token and stores the action with a later call.  A revoke walks, gathers
 the actions of its targets, records the targets, lists the reviews there are, and stores one review
 after another.  Here a check is the one lookup of the action's own token, and the walk may return any
 targets.  Three history variables: `gathered` is every jti whose actions some revoke has gathered,
 `late` is every action stored after the last gathering that covered its token, and `resolutions` counts
 how often each review was resolved.
 */
module InterleavedReviews {
  import opened Core
  import opened Tokens
  import opened Records
  import opened Storage
  import opened Authority
  import opened AuthorityInvariant

  datatype Thread =
    // action: is_revoked, then put_action
    | Opening(action: Action)
    // revoke: the walk, actions_for_review, revoke_many, list_reviews, put_review one by one
    | Walked(root: Jti, targets: seq<Jti>)
    | Gathered(root: Jti, targets: seq<Jti>, found: seq<Action>)
    | Recorded(root: Jti, targets: seq<Jti>, found: seq<Action>)
    | Queueing(root: Jti, targets: seq<Jti>, found: seq<Action>)
    // resolve_review: get_review, then update_review
    | Resolving(review: Review, reviewer: string)
    | Finished

  datatype System = System(
    store: Store, threads: map<nat, Thread>, gathered: set<Jti>, late: set<string>,
    resolutions: multiset<string>)

  datatype Step =
    | Accept(t: nat, action: Action)
    | StartRevoke(t: nat, root: Jti, targets: seq<Jti>)
    | StartResolve(t: nat, reviewId: string, reviewer: string)
    | Advance(t: nat, now: Time, uuid: string)
    | CloseOne(actionId: string, clean: bool, now: Time)

  // ------------------------------------------------------------------
  // The machine
  // ------------------------------------------------------------------

  /** The candidates that still need a review. */
  function Wanted(found: seq<Action>, already: set<string>): seq<Action> {
    if found == [] then []
    else
      var n := |found| - 1;
      Wanted(found[..n], already) + if NeedsReview(already, found[n]) then [found[n]] else []
  }

  function OnTargets(st: Store, targets: seq<Jti>): set<string> {
    set id | id in st.actions && st.actions[id].jti in targets
  }

  function Call(s: System, t: nat, now: Time, uuid: string): System
    requires t in s.threads
  {
    match s.threads[t]
    case Opening(a) =>
      s.(store := PutAction(s.store, a), threads := s.threads[t := Finished],
         late := if a.jti in s.gathered then s.late + {a.actionId} else s.late)
    case Walked(root, targets) =>
      s.(threads := s.threads[t := Gathered(root, targets, ActionsForReview(s.store, targets))],
         gathered := s.gathered + Elements(targets), late := s.late - OnTargets(s.store, targets))
    case Gathered(root, targets, found) =>
      s.(store := RevokeMany(s.store, targets, root, now), threads := s.threads[t := Recorded(root, targets, found)])
    case Recorded(root, targets, found) =>
      s.(threads := s.threads[t := Queueing(root, targets, Wanted(found, Reviewed(s.store)))])
    case Queueing(root, targets, found) =>
      if found == [] then s.(threads := s.threads[t := Finished])
      else s.(store := SetReview(s.store, ReviewOf(found[0], uuid, now, root)),
              threads := s.threads[t := Queueing(root, targets, found[1..])])
    case Resolving(r, reviewer) =>
      s.(store := SetReview(s.store, Resolved(r, reviewer, now)), threads := s.threads[t := Finished],
         resolutions := s.resolutions + multiset{r.reviewId})
    case Finished => s
  }

  function Resolved(r: Review, reviewer: string, now: Time): Review {
    r.(reviewed := true, reviewedBy := Some(reviewer), reviewedAt := Some(now))
  }

  /** A new action: still open, under a new id. */
  ghost predicate NewAction(s: System, a: Action) {
    && a.finishedAt.None? && a.state.None? && a.actionId !in s.store.actions
    && forall t :: t in s.threads && s.threads[t].Opening? ==> s.threads[t].action.actionId != a.actionId
  }

  ghost predicate Enabled(s: System, step: Step) {
    match step
    case Accept(t, a) => t !in s.threads && NewAction(s, a) && a.jti !in s.store.revoked
    case StartRevoke(t, root, targets) => t !in s.threads && NoDups(targets)
    case StartResolve(t, id, _) => t !in s.threads && id in s.store.reviews && !s.store.reviews[id].reviewed
    case Advance(t, _, uuid) => t in s.threads && uuid !in s.store.reviews
    case CloseOne(id, _, _) => id in s.store.actions && s.store.actions[id].finishedAt.None?
  }

  function Do(s: System, step: Step): System {
    match step
    case Accept(t, a) => s.(threads := s.threads[t := Opening(a)])
    case StartRevoke(t, root, targets) => s.(threads := s.threads[t := Walked(root, targets)])
    case StartResolve(t, id, reviewer) =>
      if id in s.store.reviews then s.(threads := s.threads[t := Resolving(s.store.reviews[id], reviewer)]) else s
    case Advance(t, now, uuid) => if t in s.threads then Call(s, t, now, uuid) else s
    case CloseOne(id, clean, now) => s.(store := CloseActionRow(s.store, id, if clean then Clean else Partial, now))
  }

  ghost predicate Runs(s: System, steps: seq<Step>, s': System)
    decreases |steps|
  {
    if steps == [] then s' == s else Enabled(s, steps[0]) && Runs(Do(s, steps[0]), steps[1..], s')
  }

  const START := System(EMPTY, map[], {}, {}, multiset{})

  // ------------------------------------------------------------------
  // Who still has an action to review
  // ------------------------------------------------------------------

  predicate Names(found: seq<Action>, id: string) {
    exists i :: 0 <= i < |found| && found[i].actionId == id
  }

  predicate Holds(th: Thread, id: string) {
    (th.Gathered? || th.Recorded? || th.Queueing?) && Names(th.found, id)
  }

  ghost predicate InHand(s: System, id: string) {
    exists t :: t in s.threads && Holds(s.threads[t], id)
  }

  /** A candidate in hand was questionable, and is a stored action of a gathered token. */
  ghost predicate CandidateOk(s: System, a: Action) {
    && Questionable(a) && a.actionId in s.store.actions && a.jti in s.gathered && a.actionId !in s.late
    && a.jti == s.store.actions[a.actionId].jti
  }

  ghost predicate AllCandidates(s: System, found: seq<Action>) {
    forall i :: 0 <= i < |found| ==> CandidateOk(s, found[i])
  }

  predicate OnTheirTargets(targets: seq<Jti>, found: seq<Action>) {
    forall i :: 0 <= i < |found| ==> found[i].jti in targets
  }

  /** The stored review that a resolution has loaded. */
  predicate SameReview(st: Store, r: Review) {
    r.reviewId in st.reviews && st.reviews[r.reviewId].actionId == r.actionId
  }

  ghost predicate ReviewsKeyed(s: System) {
    forall id :: id in s.store.reviews ==> s.store.reviews[id].reviewId == id
  }

  ghost predicate ThreadOk(s: System, th: Thread) {
    && (th.Opening? ==> th.action.finishedAt.None? && th.action.actionId !in s.store.actions)
    && (th.Walked? ==> NoDups(th.targets))
    && (th.Gathered? ==> forall j :: j in th.targets ==> j in s.gathered)
    && (th.Gathered? || th.Recorded? || th.Queueing? ==> AllCandidates(s, th.found) && OnTheirTargets(th.targets, th.found))
    && (th.Resolving? ==> SameReview(s.store, th.review))
  }

  ghost predicate ThreadsOk(s: System) {
    forall t :: t in s.threads ==> ThreadOk(s, s.threads[t])
  }

  ghost predicate DistinctOpenings(s: System) {
    forall t, u :: (t in s.threads && u in s.threads && s.threads[t].Opening? && s.threads[u].Opening?
                    && s.threads[t].action.actionId == s.threads[u].action.actionId) ==> t == u
  }

  ghost predicate LateOk(s: System) {
    forall id :: id in s.late ==> && id in s.store.actions && s.store.actions[id].jti in s.gathered
                                  && !HasReview(s.store.reviews, id)
  }

  /** A stored action of a gathered token that may not have ended cleanly. */
  predicate Questioned(s: System, id: string) {
    id in s.store.actions && s.store.actions[id].jti in s.gathered && Questionable(s.store.actions[id])
  }

  /** Every gathered action that may not have ended cleanly is late, reviewed or in hand. */
  ghost predicate Attended(s: System) {
    forall id :: Questioned(s, id) && id !in s.late ==> HasReview(s.store.reviews, id) || InHand(s, id)
  }

  ghost predicate ReviewInv(s: System) {
    && Indexed(s.store.actions, s.store.actionsByJti) && s.store.revoked.Keys <= s.gathered
    && ThreadsOk(s) && DistinctOpenings(s) && LateOk(s) && Attended(s) && ReviewedAreStored(s)
    && ReviewsKeyed(s)
  }

  // ------------------------------------------------------------------
  // Every step keeps it
  // ------------------------------------------------------------------

  ghost predicate Grew(s: System, s': System) {
    && s.gathered <= s'.gathered
    && (forall id :: id in s.store.actions ==> id in s'.store.actions && s'.store.actions[id].jti == s.store.actions[id].jti)
    && (forall id :: id in s.store.reviews ==>
          id in s'.store.reviews && s'.store.reviews[id].actionId == s.store.reviews[id].actionId)
    && (forall id :: id in s'.late ==> id in s.late || id !in s.store.actions)
  }

  lemma ThreadStays(s: System, s': System, th: Thread)
    requires Grew(s, s') && ThreadOk(s, th)
    requires th.Opening? ==> th.action.actionId !in s'.store.actions
    ensures ThreadOk(s', th)
  {
    if th.Gathered? || th.Recorded? || th.Queueing? {
      forall i | 0 <= i < |th.found|
        ensures CandidateOk(s', th.found[i])
      {
        assert CandidateOk(s, th.found[i]);
      }
    }
  }

  /** Thread t becomes th' while everything else at most grows. */
  lemma ThreadsStay(s: System, t: nat, s': System)
    requires ThreadsOk(s) && Grew(s, s') && t in s'.threads && s'.threads == s.threads[t := s'.threads[t]]
    requires ThreadOk(s', s'.threads[t])
    requires forall u :: u in s.threads && u != t && s.threads[u].Opening?
                         ==> s.threads[u].action.actionId !in s'.store.actions
    ensures ThreadsOk(s')
  {
    forall u | u in s'.threads
      ensures ThreadOk(s', s'.threads[u])
    {
      if u != t {
        ThreadStays(s, s', s.threads[u]);
      }
    }
  }

  lemma OpeningsAreNew(s: System)
    requires ThreadsOk(s)
    ensures forall u :: u in s.threads && s.threads[u].Opening? ==> s.threads[u].action.actionId !in s.store.actions
  {
    forall u | u in s.threads && s.threads[u].Opening?
      ensures s.threads[u].action.actionId !in s.store.actions
    {
      assert ThreadOk(s, s.threads[u]);
    }
  }

  lemma HoldsStay(s: System, t: nat, s': System, id: string)
    requires t in s'.threads && s'.threads == s.threads[t := s'.threads[t]] && InHand(s, id)
    requires t in s.threads && Holds(s.threads[t], id) ==> Holds(s'.threads[t], id)
    ensures InHand(s', id)
  {
    var u :| u in s.threads && Holds(s.threads[u], id);
    assert Holds(s'.threads[if u == t then t else u], id);
  }

  /** put_action. */
  lemma OpenKeeps(s: System, t: nat, a: Action, now: Time, uuid: string)
    requires ReviewInv(s) && t in s.threads && s.threads[t] == Opening(a)
    ensures ReviewInv(Call(s, t, now, uuid))
  {
    var s' := Call(s, t, now, uuid);
    assert ThreadOk(s, s.threads[t]);
    OpeningsAreNew(s);
    IndexedPut(s.store, a);
    forall u | u in s.threads && u != t && s.threads[u].Opening?
      ensures s.threads[u].action.actionId !in s'.store.actions
    {
      assert s.threads[u].action.actionId != a.actionId;
    }
    ThreadsStay(s, t, s');
    NoReviewYet(s, a.actionId);
    forall id | Questioned(s', id) && id !in s'.late
      ensures HasReview(s'.store.reviews, id) || InHand(s', id)
    {
      assert Questioned(s, id);
      if InHand(s, id) {
        HoldsStay(s, t, s', id);
      }
    }
  }

  ghost predicate ReviewedAreStored(s: System) {
    forall r :: r in s.store.reviews ==> s.store.reviews[r].actionId in s.store.actions
  }

  lemma NoReviewYet(s: System, id: string)
    requires ReviewedAreStored(s) && id !in s.store.actions
    ensures !HasReview(s.store.reviews, id)
  {
  }

  /** actions_for_review. */
  lemma GatherKeeps(s: System, t: nat, root: Jti, targets: seq<Jti>, now: Time, uuid: string)
    requires ReviewInv(s) && t in s.threads && s.threads[t] == Walked(root, targets)
    ensures ReviewInv(Call(s, t, now, uuid))
  {
    var s', found := Call(s, t, now, uuid), ActionsForReview(s.store, targets);
    assert ThreadOk(s, s.threads[t]);
    CandidatesMeaning(s.store, targets);
    OpeningsAreNew(s);
    forall i | 0 <= i < |found|
      ensures CandidateOk(s', found[i])
    {
      assert found[i] in found;
    }
    ThreadsStay(s, t, s');
    forall id | Questioned(s', id) && id !in s'.late
      ensures HasReview(s'.store.reviews, id) || InHand(s', id)
    {
      if s.store.actions[id].jti in targets {
        GatherTakes(s, t, targets, id, s');
      } else {
        assert Questioned(s, id) && id !in s.late;
        if InHand(s, id) {
          HoldsStay(s, t, s', id);
        }
      }
    }
  }

  lemma GatherTakes(s: System, t: nat, targets: seq<Jti>, id: string, s': System)
    requires Indexed(s.store.actions, s.store.actionsByJti) && NoDups(targets)
    requires id in s.store.actions && s.store.actions[id].jti in targets && Questionable(s.store.actions[id])
    requires t in s'.threads && s'.threads[t].Gathered? && s'.threads[t].found == ActionsForReview(s.store, targets)
    ensures InHand(s', id)
  {
    var found := ActionsForReview(s.store, targets);
    CandidatesMeaning(s.store, targets);
    assert s.store.actions[id] in found;
    var i :| 0 <= i < |found| && found[i] == s.store.actions[id];
    assert Holds(s'.threads[t], id);
  }

  /** revoke_many. */
  /** update_review: the same action stays under review. */
  lemma ResolveKeeps(s: System, t: nat, r: Review, reviewer: string, now: Time, uuid: string)
    requires ReviewInv(s) && t in s.threads && s.threads[t] == Resolving(r, reviewer)
    ensures ReviewInv(Call(s, t, now, uuid))
  {
    var s' := Call(s, t, now, uuid);
    assert ThreadOk(s, s.threads[t]);
    OpeningsAreNew(s);
    ThreadsStay(s, t, s');
    SameReviews(s.store, Resolved(r, reviewer, now));
    SameAttention(s, t, s');
  }

  lemma SameReviews(st: Store, r: Review)
    requires SameReview(st, r)
    ensures forall id :: HasReview(SetReview(st, r).reviews, id) <==> HasReview(st.reviews, id)
  {
    var reviews' := SetReview(st, r).reviews;
    forall id
      ensures HasReview(reviews', id) <==> HasReview(st.reviews, id)
    {
      if HasReview(st.reviews, id) {
        var k :| k in st.reviews && st.reviews[k].actionId == id;
        assert reviews'[k].actionId == id;
      }
      if HasReview(reviews', id) {
        var k :| k in reviews' && reviews'[k].actionId == id;
        assert st.reviews[k].actionId == id;
      }
    }
  }

  lemma RecordKeeps(s: System, t: nat, root: Jti, targets: seq<Jti>, found: seq<Action>, now: Time, uuid: string)
    requires ReviewInv(s) && t in s.threads && s.threads[t] == Gathered(root, targets, found)
    ensures ReviewInv(Call(s, t, now, uuid))
  {
    var s' := Call(s, t, now, uuid);
    assert ThreadOk(s, s.threads[t]);
    OpeningsAreNew(s);
    ThreadStays(s, s', Recorded(root, targets, found));
    ThreadsStay(s, t, s');
    SameAttention(s, t, s');
  }

  /** Actions, reviews, gathered and late are as before, and so is what thread t holds. */
  lemma SameAttention(s: System, t: nat, s': System)
    requires Attended(s) && t in s'.threads && s'.threads == s.threads[t := s'.threads[t]]
    requires s'.store.actions == s.store.actions
    requires forall id :: HasReview(s'.store.reviews, id) <==> HasReview(s.store.reviews, id)
    requires s'.gathered == s.gathered && s'.late == s.late
    requires forall id :: t in s.threads && Holds(s.threads[t], id)
                          ==> Holds(s'.threads[t], id) || HasReview(s.store.reviews, id)
    ensures Attended(s')
  {
    forall id | Questioned(s', id) && id !in s'.late
      ensures HasReview(s'.store.reviews, id) || InHand(s', id)
    {
      assert Questioned(s, id);
      if InHand(s, id) && !HasReview(s.store.reviews, id) {
        HoldsStay(s, t, s', id);
      }
    }
  }

  lemma {:induction false} WantedMeaning(found: seq<Action>, already: set<string>)
    ensures var w := Wanted(found, already);
            && (forall a :: a in w <==> a in found && NeedsReview(already, a))
    decreases |found|
  {
    if found != [] {
      var n := |found| - 1;
      WantedMeaning(found[..n], already);
      assert found == found[..n] + [found[n]];
    }
  }

  lemma QuestionableIsWanted(a: Action, already: set<string>)
    requires Questionable(a)
    ensures NeedsReview(already, a) <==> a.actionId !in already
  {
  }

  /** Listing drops exactly the candidates that have a review. */
  lemma WantedHolds(st: Store, found: seq<Action>, id: string)
    requires Names(found, id) && forall i :: 0 <= i < |found| ==> Questionable(found[i])
    ensures Names(Wanted(found, Reviewed(st)), id) || HasReview(st.reviews, id)
  {
    var w, already := Wanted(found, Reviewed(st)), Reviewed(st);
    var i :| 0 <= i < |found| && found[i].actionId == id;
    WantedMeaning(found, already);
    QuestionableIsWanted(found[i], already);
    if id !in already {
      assert found[i] in w;
      var k :| 0 <= k < |w| && w[k] == found[i];
    } else {
      var r :| r in st.reviews && st.reviews[r].actionId == id;
    }
  }

  lemma WantedAreCandidates(s: System, targets: seq<Jti>, found: seq<Action>, already: set<string>)
    requires AllCandidates(s, found) && OnTheirTargets(targets, found)
    ensures AllCandidates(s, Wanted(found, already)) && OnTheirTargets(targets, Wanted(found, already))
  {
    var w := Wanted(found, already);
    WantedMeaning(found, already);
    forall i | 0 <= i < |w|
      ensures CandidateOk(s, w[i]) && w[i].jti in targets
    {
      assert w[i] in w;
      var k :| 0 <= k < |found| && found[k] == w[i];
      assert CandidateOk(s, found[k]);
    }
  }

  lemma ListingHolds(s: System, found: seq<Action>, id: string)
    requires AllCandidates(s, found) && Names(found, id)
    ensures Names(Wanted(found, Reviewed(s.store)), id) || HasReview(s.store.reviews, id)
  {
    forall i | 0 <= i < |found|
      ensures Questionable(found[i])
    {
      assert CandidateOk(s, found[i]);
    }
    WantedHolds(s.store, found, id);
  }

  /** list_reviews. */
  lemma ListKeeps(s: System, t: nat, root: Jti, targets: seq<Jti>, found: seq<Action>, now: Time, uuid: string)
    requires ReviewInv(s) && t in s.threads && s.threads[t] == Recorded(root, targets, found)
    ensures ReviewInv(Call(s, t, now, uuid))
  {
    var s' := Call(s, t, now, uuid);
    assert ThreadOk(s, s.threads[t]);
    OpeningsAreNew(s);
    WantedAreCandidates(s, targets, found, Reviewed(s.store));
    ThreadStays(s, s', Queueing(root, targets, Wanted(found, Reviewed(s.store))));
    ThreadsStay(s, t, s');
    forall id | Holds(s.threads[t], id)
      ensures Holds(s'.threads[t], id) || HasReview(s.store.reviews, id)
    {
      ListingHolds(s, found, id);
    }
    SameAttention(s, t, s');
  }

  lemma ReviewAdds(st: Store, r: Review, id: string)
    requires r.reviewId !in st.reviews
    ensures HasReview(SetReview(st, r).reviews, id) <==> HasReview(st.reviews, id) || r.actionId == id
  {
    var reviews' := SetReview(st, r).reviews;
    if HasReview(st.reviews, id) {
      var k :| k in st.reviews && st.reviews[k].actionId == id;
      assert k in reviews' && reviews'[k].actionId == id;
    }
    if r.actionId == id {
      assert r.reviewId in reviews' && reviews'[r.reviewId].actionId == id;
    }
  }

  lemma NamesRest(found: seq<Action>, id: string)
    requires found != []
    ensures Names(found, id) <==> found[0].actionId == id || Names(found[1..], id)
  {
    if Names(found, id) && found[0].actionId != id {
      var i :| 0 <= i < |found| && found[i].actionId == id;
      assert found[1..][i - 1].actionId == id;
    }
    if Names(found[1..], id) {
      var i :| 0 <= i < |found| - 1 && found[1..][i].actionId == id;
      assert found[i + 1].actionId == id;
    }
  }

  /** put_review of the next candidate. */
  lemma PutKeeps(s: System, t: nat, root: Jti, targets: seq<Jti>, found: seq<Action>, r: Review, s': System)
    requires ReviewInv(s) && t in s.threads && s.threads[t] == Queueing(root, targets, found) && found != []
    requires r.actionId == found[0].actionId && r.reviewId !in s.store.reviews
    requires s' == s.(store := SetReview(s.store, r), threads := s.threads[t := Queueing(root, targets, found[1..])])
    ensures ReviewInv(s')
  {
    assert ThreadOk(s, s.threads[t]) && CandidateOk(s, found[0]);
    OpeningsAreNew(s);
    RestIsOk(s, root, targets, found);
    ThreadStays(s, s', s'.threads[t]);
    ThreadsStay(s, t, s');
    forall id
      ensures HasReview(s'.store.reviews, id) <==> HasReview(s.store.reviews, id) || found[0].actionId == id
    {
      ReviewAdds(s.store, r, id);
    }
    forall id | Questioned(s', id) && id !in s'.late
      ensures HasReview(s'.store.reviews, id) || InHand(s', id)
    {
      assert Questioned(s, id);
      NamesRest(found, id);
      if InHand(s, id) && found[0].actionId != id {
        HoldsStay(s, t, s', id);
      }
    }
  }

  lemma RestIsOk(s: System, root: Jti, targets: seq<Jti>, found: seq<Action>)
    requires ThreadOk(s, Queueing(root, targets, found)) && found != []
    ensures ThreadOk(s, Queueing(root, targets, found[1..]))
  {
    forall i | 0 <= i < |found| - 1
      ensures CandidateOk(s, found[1..][i])
    {
      assert CandidateOk(s, found[i + 1]);
    }
  }

  lemma QueueKeeps(s: System, t: nat, root: Jti, targets: seq<Jti>, found: seq<Action>, now: Time, uuid: string)
    requires ReviewInv(s) && t in s.threads && s.threads[t] == Queueing(root, targets, found) && uuid !in s.store.reviews
    ensures ReviewInv(Call(s, t, now, uuid))
  {
    var s' := Call(s, t, now, uuid);
    if found == [] {
      OpeningsAreNew(s);
      ThreadsStay(s, t, s');
      SameAttention(s, t, s');
    } else {
      PutKeeps(s, t, root, targets, found, ReviewOf(found[0], uuid, now, root), s');
    }
  }

  lemma BeginKeeps(s: System, t: nat, s': System)
    requires ReviewInv(s) && t !in s.threads && t in s'.threads && s' == s.(threads := s.threads[t := s'.threads[t]])
    requires ThreadOk(s, s'.threads[t]) && !s'.threads[t].Gathered? && !s'.threads[t].Recorded? && !s'.threads[t].Queueing?
    requires s'.threads[t].Opening? ==> NewAction(s, s'.threads[t].action)
    ensures ReviewInv(s')
  {
    OpeningsAreNew(s);
    ThreadStays(s, s', s'.threads[t]);
    ThreadsStay(s, t, s');
    SameAttention(s, t, s');
  }

  /** close_action never makes a finished or gathered action questionable again. */
  lemma CloseKeeps(s: System, id: string, clean: bool, now: Time)
    requires ReviewInv(s) && id in s.store.actions && s.store.actions[id].finishedAt.None?
    ensures ReviewInv(Do(s, CloseOne(id, clean, now)))
  {
    var s' := Do(s, CloseOne(id, clean, now));
    forall u | u in s.threads
      ensures ThreadOk(s', s.threads[u])
    {
      assert ThreadOk(s, s.threads[u]);
      ThreadStays(s, s', s.threads[u]);
    }
    forall k | Questioned(s', k) && k !in s'.late
      ensures HasReview(s'.store.reviews, k) || InHand(s', k)
    {
      assert Questioned(s, k);
      if InHand(s, k) {
        var u :| u in s.threads && Holds(s.threads[u], k);
        assert Holds(s'.threads[u], k);
      }
    }
  }

  lemma AdvanceKeeps(s: System, t: nat, now: Time, uuid: string)
    requires ReviewInv(s) && t in s.threads && uuid !in s.store.reviews
    ensures ReviewInv(Call(s, t, now, uuid))
  {
    match s.threads[t]
    case Opening(a) => OpenKeeps(s, t, a, now, uuid);
    case Walked(root, targets) => GatherKeeps(s, t, root, targets, now, uuid);
    case Gathered(root, targets, found) => RecordKeeps(s, t, root, targets, found, now, uuid);
    case Recorded(root, targets, found) => ListKeeps(s, t, root, targets, found, now, uuid);
    case Queueing(root, targets, found) => QueueKeeps(s, t, root, targets, found, now, uuid);
    case Resolving(r, reviewer) => ResolveKeeps(s, t, r, reviewer, now, uuid);
    case Finished =>
  }

  lemma StepKeeps(s: System, step: Step)
    requires ReviewInv(s) && Enabled(s, step)
    ensures ReviewInv(Do(s, step))
  {
    match step {
      case Accept(t, a) => BeginKeeps(s, t, Do(s, step));
      case StartRevoke(t, root, targets) => BeginKeeps(s, t, Do(s, step));
      case StartResolve(t, id, reviewer) => BeginKeeps(s, t, Do(s, step));
      case Advance(t, now, uuid) => AdvanceKeeps(s, t, now, uuid);
      case CloseOne(id, clean, now) => CloseKeeps(s, id, clean, now);
    }
  }

  lemma {:induction false} RunKeeps(s: System, steps: seq<Step>, s': System)
    requires ReviewInv(s) && Runs(s, steps, s')
    ensures ReviewInv(s')
    decreases |steps|
  {
    if steps != [] {
      StepKeeps(s, steps[0]);
      RunKeeps(Do(s, steps[0]), steps[1..], s');
    }
  }

  // ------------------------------------------------------------------
  // Which actions escape review
  // ------------------------------------------------------------------

  /**
   In every reachable state, an action of a revoked token that may not have ended cleanly, and that no
   revoke in progress still holds, lacks a review if and only if it was stored after the last gathering
   that covered its token.
   */
  lemma UnreviewedIffLate(steps: seq<Step>, s: System, id: string)
    requires Runs(START, steps, s)
    requires id in s.store.actions && s.store.actions[id].jti in s.store.revoked && Questionable(s.store.actions[id])
    requires !InHand(s, id)
    ensures !HasReview(s.store.reviews, id) <==> id in s.late
  {
    RunKeeps(START, steps, s);
    assert Questioned(s, id);
  }

  lemma {:induction false} RunsThen(a: System, steps: seq<Step>, b: System, more: seq<Step>, c: System)
    requires Runs(a, steps, b) && Runs(b, more, c)
    ensures Runs(a, steps + more, c)
    decreases |steps|
  {
    if steps == [] {
      assert steps + more == more;
    } else {
      assert (steps + more)[0] == steps[0] && (steps + more)[1..] == steps[1..] + more;
      RunsThen(Do(a, steps[0]), steps[1..], b, more, c);
    }
  }

  ghost predicate Leads(s: System, s': System) {
    exists steps :: Runs(s, steps, s')
  }

  lemma LeadsOneMore(s: System, mid: System, step: Step)
    requires Leads(s, mid) && Enabled(mid, step)
    ensures Leads(s, Do(mid, step))
  {
    var steps :| Runs(s, steps, mid);
    assert [step][1..] == [];
    assert Runs(Do(mid, step), [], Do(mid, step));
    assert Runs(mid, [step], Do(mid, step));
    RunsThen(s, steps, mid, [step], Do(mid, step));
  }

  lemma LeadsNowhere(s: System)
    ensures Leads(s, s)
  {
    assert Runs(s, [], s);
  }

  /** put_action of a token whose actions have been gathered: the action is late, and nobody holds it. */
  lemma PutIsLate(s: System, t: nat, a: Action, now: Time, uuid: string)
    requires ReviewInv(s) && t in s.threads && s.threads[t] == Opening(a) && a.jti in s.gathered
    ensures var s', id := Call(s, t, now, uuid), a.actionId;
            && id in s'.store.actions && s'.store.actions[id] == a && Questionable(a)
            && !HasReview(s'.store.reviews, id) && !InHand(s', id)
  {
    var s' := Call(s, t, now, uuid);
    assert ThreadOk(s, s.threads[t]);
    NoReviewYet(s, a.actionId);
    forall u | u in s.threads
      ensures !Holds(s.threads[u], a.actionId)
    {
      HeldIsStored(s, s.threads[u], a.actionId);
    }
    assert forall u :: u in s'.threads && u != t ==> s'.threads[u] == s.threads[u];
  }

  lemma HeldIsStored(s: System, th: Thread, id: string)
    requires ThreadOk(s, th)
    ensures Holds(th, id) ==> id in s.store.actions
  {
    if Holds(th, id) {
      var i :| 0 <= i < |th.found| && th.found[i].actionId == id;
      assert CandidateOk(s, th.found[i]);
    }
  }

  /** The steps of a revoke of j up to its record. */
  lemma RevokeRecords(s: System, u: nat, j: Jti) returns (s': System)
    requires u !in s.threads
    ensures Leads(s, s') && j in s'.store.revoked && j in s'.gathered
    ensures u in s'.threads && s'.threads == s.threads[u := s'.threads[u]]
  {
    LeadsNowhere(s);
    var x := Longer(s.store.reviews.Keys);
    var s1 := Do(s, StartRevoke(u, j, [j]));
    LeadsOneMore(s, s, StartRevoke(u, j, [j]));
    var s2 := Do(s1, Advance(u, 0, x));
    LeadsOneMore(s, s1, Advance(u, 0, x));
    s' := Do(s2, Advance(u, 0, x));
    LeadsOneMore(s, s2, Advance(u, 0, x));
    assert j in Elements([j]);
  }

  /**
   Whenever the check of an action has passed and the action is not stored yet, a revoke of its token
   can gather and record in between; the action then runs on a revoked token and has no review.
   */
  lemma OpeningCanEscape(steps: seq<Step>, s: System, t: nat, a: Action, u: nat) returns (s': System)
    requires Runs(START, steps, s) && t in s.threads && s.threads[t] == Opening(a) && u !in s.threads
    ensures Leads(s, s') && a.jti in s'.store.revoked
    ensures a.actionId in s'.store.actions && s'.store.actions[a.actionId] == a && Questionable(a)
    ensures !HasReview(s'.store.reviews, a.actionId) && !InHand(s', a.actionId)
  {
    var mid := RevokeRecords(s, u, a.jti);
    var more :| Runs(s, more, mid);
    RunsThen(START, steps, s, more, mid);
    RunKeeps(START, steps + more, mid);
    var x := Longer(mid.store.reviews.Keys);
    s' := Do(mid, Advance(t, 0, x));
    LeadsOneMore(s, mid, Advance(t, 0, x));
    PutIsLate(mid, t, a, 0, x);
  }

  // ------------------------------------------------------------------
  // One review per action
  // ------------------------------------------------------------------

  predicate Queues(th: Thread, id: string) {
    th.Queueing? && Names(th.found, id)
  }

  /** Two revokes have both listed the reviews and both still have to review this action. */
  ghost predicate Contended(s: System, id: string) {
    exists t, u :: t in s.threads && u in s.threads && t != u && Queues(s.threads[t], id) && Queues(s.threads[u], id)
  }

  ghost predicate Doubled(s: System, id: string) {
    exists q, r :: q in s.store.reviews && r in s.store.reviews && q != r
                   && s.store.reviews[q].actionId == id && s.store.reviews[r].actionId == id
  }

  ghost predicate FoundOnce(th: Thread) {
    th.Gathered? || th.Recorded? || th.Queueing? ==> DistinctIds(th.found)
  }

  ghost predicate OneEach(s: System, id: string) {
    && !Doubled(s, id)
    && (forall t :: t in s.threads ==> FoundOnce(s.threads[t]))
    && (forall t :: t in s.threads && Queues(s.threads[t], id) ==> !HasReview(s.store.reviews, id))
  }

  lemma {:induction false} WantedOnce(found: seq<Action>, already: set<string>)
    requires DistinctIds(found)
    ensures DistinctIds(Wanted(found, already))
    decreases |found|
  {
    if found != [] {
      var n := |found| - 1;
      WantedOnce(found[..n], already);
      WantedMeaning(found[..n], already);
      var w := Wanted(found[..n], already);
      forall i | 0 <= i < |w|
        ensures w[i].actionId != found[n].actionId
      {
        assert w[i] in found[..n];
      }
    }
  }

  lemma WantedUnreviewed(st: Store, found: seq<Action>, id: string)
    requires Names(Wanted(found, Reviewed(st)), id)
    ensures !HasReview(st.reviews, id)
  {
    var w := Wanted(found, Reviewed(st));
    var i :| 0 <= i < |w| && w[i].actionId == id;
    WantedMeaning(found, Reviewed(st));
    assert w[i] in w;
  }

  lemma QueueKeepsOneEach(s: System, t: nat, root: Jti, targets: seq<Jti>, found: seq<Action>, now: Time, uuid: string, id: string)
    requires OneEach(s, id) && !Contended(s, id) && t in s.threads && s.threads[t] == Queueing(root, targets, found)
    requires found != [] && uuid !in s.store.reviews
    ensures OneEach(Call(s, t, now, uuid), id)
  {
    var s', r := Call(s, t, now, uuid), ReviewOf(found[0], uuid, now, root);
    NamesRest(found, id);
    ReviewAdds(s.store, r, id);
    assert FoundOnce(s.threads[t]);
    assert DistinctIds(found[1..]);
    if found[0].actionId == id {
      assert Queues(s.threads[t], id);
      assert !Names(found[1..], id);
    }
    forall u | u in s'.threads && Queues(s'.threads[u], id)
      ensures !HasReview(s'.store.reviews, id)
    {
      if u != t {
        assert Queues(s.threads[u], id);
      }
    }
  }

  /** The same reviews of the same actions, resolved or not. */
  ghost predicate SameSubjects(s: System, s': System) {
    && s'.store.reviews.Keys == s.store.reviews.Keys
    && forall r :: r in s.store.reviews ==> s'.store.reviews[r].actionId == s.store.reviews[r].actionId
  }

  lemma MoveKeepsOneEach(s: System, t: nat, s': System, id: string)
    requires OneEach(s, id) && t in s.threads && t in s'.threads && s'.threads == s.threads[t := s'.threads[t]]
    requires SameSubjects(s, s') && FoundOnce(s'.threads[t])
    requires Queues(s'.threads[t], id) ==> !HasReview(s.store.reviews, id)
    ensures OneEach(s', id)
  {
  }

  lemma ListKeepsOneEach(s: System, t: nat, root: Jti, targets: seq<Jti>, found: seq<Action>, now: Time, uuid: string, id: string)
    requires OneEach(s, id) && t in s.threads && s.threads[t] == Recorded(root, targets, found)
    ensures OneEach(Call(s, t, now, uuid), id)
  {
    assert FoundOnce(s.threads[t]);
    WantedOnce(found, Reviewed(s.store));
    if Names(Wanted(found, Reviewed(s.store)), id) {
      WantedUnreviewed(s.store, found, id);
    }
    MoveKeepsOneEach(s, t, Call(s, t, now, uuid), id);
  }

  lemma GatherKeepsOneEach(s: System, t: nat, root: Jti, targets: seq<Jti>, now: Time, uuid: string, id: string)
    requires OneEach(s, id) && t in s.threads && s.threads[t] == Walked(root, targets)
    requires Indexed(s.store.actions, s.store.actionsByJti) && NoDups(targets)
    ensures OneEach(Call(s, t, now, uuid), id)
  {
    CandidatesMeaning(s.store, targets);
    MoveKeepsOneEach(s, t, Call(s, t, now, uuid), id);
  }

  lemma OtherKeepsOneEach(s: System, t: nat, now: Time, uuid: string, id: string)
    requires OneEach(s, id) && t in s.threads
    requires s.threads[t].Opening? || s.threads[t].Gathered? || s.threads[t].Resolving? || s.threads[t].Finished?
    requires s.threads[t].Resolving? ==> SameReview(s.store, s.threads[t].review)
    ensures OneEach(Call(s, t, now, uuid), id)
  {
    assert FoundOnce(s.threads[t]);
    MoveKeepsOneEach(s, t, Call(s, t, now, uuid), id);
  }

  lemma CallKeepsOneEach(s: System, t: nat, now: Time, uuid: string, id: string)
    requires OneEach(s, id) && !Contended(s, id) && t in s.threads && uuid !in s.store.reviews
    requires Indexed(s.store.actions, s.store.actionsByJti) && (s.threads[t].Walked? ==> NoDups(s.threads[t].targets))
    requires s.threads[t].Resolving? ==> SameReview(s.store, s.threads[t].review)
    ensures OneEach(Call(s, t, now, uuid), id)
  {
    match s.threads[t]
    case Walked(root, targets) => GatherKeepsOneEach(s, t, root, targets, now, uuid, id);
    case Recorded(root, targets, found) => ListKeepsOneEach(s, t, root, targets, found, now, uuid, id);
    case Queueing(root, targets, found) =>
      if found == [] {
        MoveKeepsOneEach(s, t, Call(s, t, now, uuid), id);
      } else {
        QueueKeepsOneEach(s, t, root, targets, found, now, uuid, id);
      }
    case _ => OtherKeepsOneEach(s, t, now, uuid, id);
  }

  ghost predicate RunsUncontended(s: System, steps: seq<Step>, s': System, id: string)
    decreases |steps|
  {
    !Contended(s, id)
    && if steps == [] then s' == s else Enabled(s, steps[0]) && RunsUncontended(Do(s, steps[0]), steps[1..], s', id)
  }

  lemma {:induction false} RunKeepsOneEach(s: System, steps: seq<Step>, s': System, id: string)
    requires ReviewInv(s) && OneEach(s, id) && RunsUncontended(s, steps, s', id)
    ensures OneEach(s', id)
    decreases |steps|
  {
    if steps != [] {
      StepKeeps(s, steps[0]);
      if steps[0].Advance? {
        assert ThreadOk(s, s.threads[steps[0].t]);
        CallKeepsOneEach(s, steps[0].t, steps[0].now, steps[0].uuid, id);
      }
      RunKeepsOneEach(Do(s, steps[0]), steps[1..], s', id);
    }
  }

  /** An action never gets two reviews as long as no two revokes are about to review it at once. */
  lemma OneReviewWhenUncontended(steps: seq<Step>, s: System, id: string)
    requires RunsUncontended(START, steps, s, id)
    ensures !Doubled(s, id)
  {
    RunKeepsOneEach(START, steps, s, id);
  }

  /** A revoke that is about to review an action gets to do it. */
  lemma {:induction false} QueueReaches(s: System, mid: System, t: nat, id: string) returns (s': System)
    requires Leads(s, mid) && t in mid.threads && Queues(mid.threads[t], id)
    ensures Leads(s, s') && t in s'.threads && s'.threads == mid.threads[t := s'.threads[t]]
    ensures mid.store.reviews.Keys <= s'.store.reviews.Keys
    ensures forall q :: q in mid.store.reviews ==> s'.store.reviews[q] == mid.store.reviews[q]
    ensures exists r :: r in s'.store.reviews && r !in mid.store.reviews && s'.store.reviews[r].actionId == id
    decreases |mid.threads[t].found|
  {
    var found := mid.threads[t].found;
    var x := Longer(mid.store.reviews.Keys);
    s' := Do(mid, Advance(t, 0, x));
    LeadsOneMore(s, mid, Advance(t, 0, x));
    NamesRest(found, id);
    if found[0].actionId == id {
      assert s'.store.reviews[x].actionId == id;
    } else {
      var next := s';
      s' := QueueReaches(s, next, t, id);
    }
  }

  /** From every state in which two are, some continuation gives the action two reviews. */
  lemma ContentionCanDouble(s: System, id: string) returns (s': System)
    requires Contended(s, id)
    ensures Leads(s, s') && Doubled(s', id)
  {
    var t, u :| t in s.threads && u in s.threads && t != u && Queues(s.threads[t], id) && Queues(s.threads[u], id);
    LeadsNowhere(s);
    var mid := QueueReaches(s, s, t, id);
    var q :| q in mid.store.reviews && q !in s.store.reviews && mid.store.reviews[q].actionId == id;
    s' := QueueReaches(s, mid, u, id);
    var r :| r in s'.store.reviews && r !in mid.store.reviews && s'.store.reviews[r].actionId == id;
    assert s'.store.reviews[q].actionId == id;
  }

  // ------------------------------------------------------------------
  // The same, as a caller sees it
  // ------------------------------------------------------------------

  /** Two revokes that both cover token j are between their list_reviews and their last put_review. */
  ghost predicate Overlapping(s: System, j: Jti) {
    exists t, u :: t in s.threads && u in s.threads && t != u && Covers(s.threads[t], j) && Covers(s.threads[u], j)
  }

  predicate Covers(th: Thread, j: Jti) {
    th.Queueing? && j in th.targets
  }

  ghost predicate RunsApart(s: System, steps: seq<Step>, s': System, j: Jti)
    decreases |steps|
  {
    !Overlapping(s, j)
    && if steps == [] then s' == s else Enabled(s, steps[0]) && RunsApart(Do(s, steps[0]), steps[1..], s', j)
  }

  lemma QueuerCovers(s: System, th: Thread, id: string)
    requires ThreadOk(s, th) && Queues(th, id)
    ensures id in s.store.actions && Covers(th, s.store.actions[id].jti)
  {
    var i :| 0 <= i < |th.found| && th.found[i].actionId == id;
    assert CandidateOk(s, th.found[i]);
  }

  lemma ContendersOverlap(s: System, id: string)
    requires ThreadsOk(s) && Contended(s, id)
    ensures id in s.store.actions && Overlapping(s, s.store.actions[id].jti)
  {
    var t, u :| t in s.threads && u in s.threads && t != u && Queues(s.threads[t], id) && Queues(s.threads[u], id);
    assert ThreadOk(s, s.threads[t]) && ThreadOk(s, s.threads[u]);
    QueuerCovers(s, s.threads[t], id);
    QueuerCovers(s, s.threads[u], id);
  }

  lemma StepKeepsJti(s: System, step: Step, id: string)
    requires ThreadsOk(s) && Enabled(s, step) && id in s.store.actions
    ensures id in Do(s, step).store.actions && Do(s, step).store.actions[id].jti == s.store.actions[id].jti
  {
    if step.Advance? {
      assert ThreadOk(s, s.threads[step.t]);
    }
  }

  lemma {:induction false} ApartIsUncontended(s: System, steps: seq<Step>, s': System, id: string, j: Jti)
    requires ReviewInv(s) && RunsApart(s, steps, s', j) && id in s'.store.actions && s'.store.actions[id].jti == j
    ensures RunsUncontended(s, steps, s', id)
    ensures id in s.store.actions ==> s.store.actions[id].jti == j
    decreases |steps|
  {
    if steps != [] {
      StepKeeps(s, steps[0]);
      ApartIsUncontended(Do(s, steps[0]), steps[1..], s', id, j);
      if id in s.store.actions {
        StepKeepsJti(s, steps[0], id);
      }
    }
    if Contended(s, id) {
      ContendersOverlap(s, id);
    }
  }

  /**
   No action of token j gets two reviews as long as no two revokes that cover j overlap between listing
   the reviews and storing their last one.
   */
  lemma OneReviewWhenRevokesAreApart(steps: seq<Step>, s: System, id: string)
    requires id in s.store.actions && RunsApart(START, steps, s, s.store.actions[id].jti)
    ensures !Doubled(s, id)
  {
    ApartIsUncontended(START, steps, s, id, s.store.actions[id].jti);
    OneReviewWhenUncontended(steps, s, id);
  }

  /** A revoke of the token of an action that still needs a review, up to where it is about to store it. */
  lemma RevokeQueues(s: System, u: nat, id: string) returns (s': System)
    requires ReviewInv(s) && u !in s.threads && id in s.store.actions && Questionable(s.store.actions[id])
    requires !HasReview(s.store.reviews, id)
    ensures Leads(s, s') && s'.store.actions == s.store.actions && s'.store.reviews == s.store.reviews
    ensures u in s'.threads && s'.threads == s.threads[u := s'.threads[u]] && Queues(s'.threads[u], id)
  {
    var j := s.store.actions[id].jti;
    var s1 := Do(s, StartRevoke(u, j, [j]));
    LeadsNowhere(s);
    LeadsOneMore(s, s, StartRevoke(u, j, [j]));
    s' := GatherAndList(s, s1, u, j, id);
  }

  lemma GatherAndList(s: System, s1: System, u: nat, j: Jti, id: string) returns (s': System)
    requires Leads(s, s1) && u in s1.threads && s1.threads[u] == Walked(j, [j])
    requires Indexed(s1.store.actions, s1.store.actionsByJti)
    requires id in s1.store.actions && s1.store.actions[id].jti == j && Questionable(s1.store.actions[id])
    requires !HasReview(s1.store.reviews, id)
    ensures Leads(s, s') && s'.store.actions == s1.store.actions && s'.store.reviews == s1.store.reviews
    ensures u in s'.threads && s'.threads == s1.threads[u := s'.threads[u]] && Queues(s'.threads[u], id)
  {
    var s3 := GatherAndRecord(s, s1, u, j);
    s' := ListsNext(s, s3, u, j, ActionsForReview(s1.store, [j]));
    ListedAndWanted(s1.store, j, id);
    assert Reviewed(s3.store) == Reviewed(s1.store);
  }

  lemma GatherAndRecord(s: System, s1: System, u: nat, j: Jti) returns (s3: System)
    requires Leads(s, s1) && u in s1.threads && s1.threads[u] == Walked(j, [j])
    ensures Leads(s, s3) && s3.store.actions == s1.store.actions && s3.store.reviews == s1.store.reviews
    ensures s3.threads == s1.threads[u := Recorded(j, [j], ActionsForReview(s1.store, [j]))]
  {
    var x := Longer(s1.store.reviews.Keys);
    var s2 := Do(s1, Advance(u, 0, x));
    LeadsOneMore(s, s1, Advance(u, 0, x));
    s3 := Do(s2, Advance(u, 0, x));
    LeadsOneMore(s, s2, Advance(u, 0, x));
  }

  lemma ListsNext(s: System, s3: System, u: nat, j: Jti, found: seq<Action>) returns (s': System)
    requires Leads(s, s3) && u in s3.threads && s3.threads[u] == Recorded(j, [j], found)
    ensures Leads(s, s') && s'.store == s3.store
    ensures s'.threads == s3.threads[u := Queueing(j, [j], Wanted(found, Reviewed(s3.store)))]
  {
    var x := Longer(s3.store.reviews.Keys);
    s' := Do(s3, Advance(u, 0, x));
    LeadsOneMore(s, s3, Advance(u, 0, x));
  }

  lemma ListedAndWanted(st: Store, j: Jti, id: string)
    requires Indexed(st.actions, st.actionsByJti) && !HasReview(st.reviews, id)
    requires id in st.actions && st.actions[id].jti == j && Questionable(st.actions[id])
    ensures Names(Wanted(ActionsForReview(st, [j]), Reviewed(st)), id)
  {
    var found := ActionsForReview(st, [j]);
    CandidatesMeaning(st, [j]);
    assert st.actions[id] in found;
    var i :| 0 <= i < |found| && found[i] == st.actions[id];
    assert Names(found, id);
    forall k | 0 <= k < |found|
      ensures Questionable(found[k])
    {
      assert found[k] in found;
    }
    WantedHolds(st, found, id);
  }

  /** From the empty store: one action, two overlapping revokes of its token, two reviews. */
  lemma ActionReviewedTwice(a: Action) returns (contended: System, s': System)
    requires a.finishedAt.None? && a.state.None?
    ensures Leads(START, contended) && Contended(contended, a.actionId)
    ensures Leads(contended, s') && Doubled(s', a.actionId)
  {
    var s := ActionArises(a);
    LeadsKeeps(START, s);
    var s1 := RevokeQueues(s, 1, a.actionId);
    LeadsKeeps(s, s1);
    contended := RevokeQueues(s1, 2, a.actionId);
    LeadsThen(START, s, s1);
    LeadsThen(START, s1, contended);
    assert Queues(contended.threads[1], a.actionId) && Queues(contended.threads[2], a.actionId);
    s' := ContentionCanDouble(contended, a.actionId);
  }

  lemma LeadsKeeps(s: System, s': System)
    requires ReviewInv(s) && Leads(s, s')
    ensures ReviewInv(s')
  {
    var steps :| Runs(s, steps, s');
    RunKeeps(s, steps, s');
  }

  lemma LeadsThen(a: System, b: System, c: System)
    requires Leads(a, b) && Leads(b, c)
    ensures Leads(a, c)
  {
    var steps :| Runs(a, steps, b);
    var more :| Runs(b, more, c);
    RunsThen(a, steps, b, more, c);
  }

  lemma ActionArises(a: Action) returns (s: System)
    requires a.finishedAt.None? && a.state.None?
    ensures Leads(START, s) && s.threads.Keys == {0} && a.actionId in s.store.actions
    ensures s.store.actions[a.actionId] == a && s.store.reviews == map[]
  {
    LeadsNowhere(START);
    var s1 := Do(START, Accept(0, a));
    LeadsOneMore(START, START, Accept(0, a));
    s := Do(s1, Advance(0, 0, "r"));
    LeadsOneMore(START, s1, Advance(0, 0, "r"));
  }

  // ------------------------------------------------------------------
  // A review is resolved once
  // ------------------------------------------------------------------

  predicate Resolves(th: Thread, id: string) {
    th.Resolving? && th.review.reviewId == id
  }

  /** Two resolutions have both loaded the review while it was unresolved. */
  ghost predicate Rivals(s: System, id: string) {
    exists t, u :: t in s.threads && u in s.threads && t != u && Resolves(s.threads[t], id) && Resolves(s.threads[u], id)
  }

  ghost predicate RunsWithoutRivals(s: System, steps: seq<Step>, s': System, id: string)
    decreases |steps|
  {
    !Rivals(s, id)
    && if steps == [] then s' == s else Enabled(s, steps[0]) && RunsWithoutRivals(Do(s, steps[0]), steps[1..], s', id)
  }

  predicate IsResolved(s: System, id: string) {
    id in s.store.reviews && s.store.reviews[id].reviewed
  }

  ghost predicate CountedOnce(s: System, id: string) {
    && s.resolutions[id] == (if IsResolved(s, id) then 1 else 0)
    && forall t :: t in s.threads && Resolves(s.threads[t], id) ==> !IsResolved(s, id)
  }

  lemma CallKeepsCount(s: System, t: nat, now: Time, uuid: string, id: string)
    requires ReviewInv(s) && CountedOnce(s, id) && !Rivals(s, id) && t in s.threads && uuid !in s.store.reviews
    ensures CountedOnce(Call(s, t, now, uuid), id)
  {
    assert ThreadOk(s, s.threads[t]);
    var s' := Call(s, t, now, uuid);
    CallMoves(s, t, now, uuid, id);
    if Resolves(s.threads[t], id) {
      forall u | u in s'.threads
        ensures !Resolves(s'.threads[u], id)
      {
        assert u != t ==> s'.threads[u] == s.threads[u];
      }
    } else {
      OtherCallResolvesNot(s, t, now, uuid, id);
    }
  }

  lemma CallMoves(s: System, t: nat, now: Time, uuid: string, id: string)
    requires t in s.threads
    ensures var s' := Call(s, t, now, uuid);
            && t in s'.threads && s'.threads == s.threads[t := s'.threads[t]] && !Resolves(s'.threads[t], id)
            && (!Resolves(s.threads[t], id) ==> s'.resolutions[id] == s.resolutions[id])
  {
    if s.threads[t].Finished? {
      assert s.threads[t := Finished] == s.threads;
    }
  }

  lemma SetReviewResolvesNot(st: Store, r: Review, id: string)
    requires r.reviewId != id || (id !in st.reviews && !r.reviewed)
    ensures var reviews' := SetReview(st, r).reviews;
            (id in reviews' && reviews'[id].reviewed) <==> (id in st.reviews && st.reviews[id].reviewed)
  {
  }

  lemma PutResolvesNot(s: System, t: nat, root: Jti, targets: seq<Jti>, found: seq<Action>, now: Time, uuid: string, id: string)
    requires t in s.threads && s.threads[t] == Queueing(root, targets, found) && uuid !in s.store.reviews
    ensures IsResolved(Call(s, t, now, uuid), id) <==> IsResolved(s, id)
  {
    if found != [] {
      SetReviewResolvesNot(s.store, ReviewOf(found[0], uuid, now, root), id);
    }
  }

  lemma RivalResolvesNot(s: System, t: nat, r: Review, reviewer: string, now: Time, uuid: string, id: string)
    requires t in s.threads && s.threads[t] == Resolving(r, reviewer) && r.reviewId != id
    ensures IsResolved(Call(s, t, now, uuid), id) <==> IsResolved(s, id)
  {
    SetReviewResolvesNot(s.store, Resolved(r, reviewer, now), id);
  }

  lemma ReviewsUntouched(s: System, t: nat, now: Time, uuid: string)
    requires t in s.threads && !s.threads[t].Queueing? && !s.threads[t].Resolving?
    ensures Call(s, t, now, uuid).store.reviews == s.store.reviews
  {
  }

  lemma OtherCallResolvesNot(s: System, t: nat, now: Time, uuid: string, id: string)
    requires t in s.threads && !Resolves(s.threads[t], id) && uuid !in s.store.reviews
    ensures IsResolved(Call(s, t, now, uuid), id) <==> IsResolved(s, id)
  {
    var th := s.threads[t];
    if th.Queueing? {
      PutResolvesNot(s, t, th.root, th.targets, th.found, now, uuid, id);
    } else if th.Resolving? {
      RivalResolvesNot(s, t, th.review, th.reviewer, now, uuid, id);
    } else {
      ReviewsUntouched(s, t, now, uuid);
    }
  }

  lemma StepKeepsCount(s: System, step: Step, id: string)
    requires ReviewInv(s) && CountedOnce(s, id) && !Rivals(s, id) && Enabled(s, step)
    ensures CountedOnce(Do(s, step), id)
  {
    match step
    case Advance(t, now, uuid) => CallKeepsCount(s, t, now, uuid, id);
    case StartResolve(t, k, reviewer) => assert s.store.reviews[k].reviewId == k;
    case _ =>
  }

  lemma {:induction false} RunKeepsCount(s: System, steps: seq<Step>, s': System, id: string)
    requires ReviewInv(s) && CountedOnce(s, id) && RunsWithoutRivals(s, steps, s', id)
    ensures CountedOnce(s', id)
    decreases |steps|
  {
    if steps != [] {
      StepKeeps(s, steps[0]);
      StepKeepsCount(s, steps[0], id);
      RunKeepsCount(Do(s, steps[0]), steps[1..], s', id);
    }
  }

  /**
   While no two resolutions of a review have both loaded it unresolved, it is resolved at most once, and
   it has been exactly if it says so.
   */
  lemma ResolvedOnceWithoutRivals(steps: seq<Step>, s: System, id: string)
    requires RunsWithoutRivals(START, steps, s, id)
    ensures s.resolutions[id] <= 1
    ensures s.resolutions[id] == 1 <==> IsResolved(s, id)
  {
    RunKeepsCount(START, steps, s, id);
  }

  lemma ResolutionLands(s: System, mid: System, t: nat) returns (s': System)
    requires Leads(s, mid) && t in mid.threads && mid.threads[t].Resolving?
    ensures Leads(s, s') && s'.threads == mid.threads[t := Finished]
    ensures s'.resolutions == mid.resolutions + multiset{mid.threads[t].review.reviewId}
  {
    var x := Longer(mid.store.reviews.Keys);
    s' := Do(mid, Advance(t, 0, x));
    LeadsOneMore(s, mid, Advance(t, 0, x));
  }

  /** From every state in which two have, some continuation resolves the review twice. */
  lemma RivalsCanResolveTwice(s: System, id: string) returns (s': System)
    requires Rivals(s, id)
    ensures Leads(s, s') && s'.resolutions[id] >= 2
  {
    var t, u :| t in s.threads && u in s.threads && t != u && Resolves(s.threads[t], id) && Resolves(s.threads[u], id);
    LeadsNowhere(s);
    var mid := ResolutionLands(s, s, t);
    s' := ResolutionLands(s, mid, u);
  }
}
