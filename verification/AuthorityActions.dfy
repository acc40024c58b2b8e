/** What opening and closing an action record, and what a later revoke makes of it. */
module AuthorityActions {
  import opened Core
  import opened Tokens
  import opened Lineage
  import opened Records
  import opened Storage
  import opened Authority
  import opened AuthorityInvariant
  import opened AuthorityTheorems
  import opened AuthorityHistory
  import opened AuthorityLifetimes

  // ------------------------------------------------------------------
  // Opening
  // ------------------------------------------------------------------

  /**
   An action opens exactly if the check of its scope passes and its subject is within the action budget.
   It is recorded under the presented token and that token's subject, as it was described, unfinished;
   no other action is touched, and without an opening none is recorded.
   */
  lemma OpeningRecords(cfg: Config, s: State, now: Time, token: Token, scope: Scope, name: string,
                       rev: Reversibility, id: string)
    requires id !in s.store.actions
    ensures var (s1, v) := Verify(cfg, s, now, token, scope);
            var (s', o) := OpenAction(cfg, s, now, token, scope, name, rev, id);
            && (o == Opened(id) <==> v.Valid? && RateCheck(cfg, s1, now, v.claims.sub, OpAction).1)
            && (o.Opened? ==>
                  && o == Opened(id) && token.Encoded? && s'.store.actions.Keys == s.store.actions.Keys + {id}
                  && var a := s'.store.actions[id];
                     && a.actionId == id && a.jti == token.claims.jti && a.subject == token.claims.sub
                     && a.scope == scope && a.name == name && a.reversibility == rev
                     && a.startedAt == now && a.finishedAt == None && a.state == None)
            && (!o.Opened? ==> s'.store.actions == s.store.actions)
            && (forall k :: k in s.store.actions ==> k in s'.store.actions && s'.store.actions[k] == s.store.actions[k])
            && s'.store.reviews == s.store.reviews && s'.store.revoked == s.store.revoked && s'.store.tokens == s.store.tokens
  {
    CheckPresents(cfg, s, now, token, scope);
  }

  lemma CheckPresents(cfg: Config, s: State, now: Time, token: Token, scope: Scope)
    ensures var (s1, v) := Verify(cfg, s, now, token, scope);
            s1.store == s.store && (v.Valid? ==> token == Encoded(v.claims))
  {
  }

  /** An opened action that has no end is reviewed, as unknown, by every revoke of the token presented for it. */
  lemma OpenedThenRevoked(cfg: Config, s: State, now: Time, token: Token, scope: Scope, name: string,
                          rev: Reversibility, id: string, later: Time, ids: seq<string>)
    requires ValidConfig(cfg) && ReachableState(cfg, s) && id !in s.store.actions
    requires OpenAction(cfg, s, now, token, scope, name, rev, id).1.Opened?
    requires FreshReviews(OpenAction(cfg, s, now, token, scope, name, rev, id).0, token.claims.jti, ids)
    ensures var s' := OpenAction(cfg, s, now, token, scope, name, rev, id).0;
            var queued := Revoke(s', later, token.claims.jti, ids).1.reviews;
            exists r :: r in queued && r.actionId == id && r.classification == Unknown && r.root == token.claims.jti
                        && r.jti == token.claims.jti && r.revokedAt == later && !r.reviewed
  {
    var t := At(now, CallOpenAction(token, scope, name, rev, id));
    var s', j := Step(cfg, s, t).0, token.claims.jti;
    OpeningRecords(cfg, s, now, token, scope, name, rev, id);
    ReachableStep(cfg, s, t);
    NothingReviewed(cfg, s, id);
    RevokeQueuesExactly(cfg, s', later, j, ids);
    var r := QueuedFor(Revoke(s', later, j, ids).1.reviews, id);
    QueuedReviewIs(cfg, s', later, j, ids, r);
  }

  lemma NothingReviewed(cfg: Config, s: State, id: string)
    requires ValidConfig(cfg) && ReachableState(cfg, s) && id !in s.store.actions
    ensures !HasReview(s.store.reviews, id)
  {
    ReachableInv(cfg, s);
  }

  lemma QueuedFor(queued: seq<Review>, id: string) returns (r: Review)
    requires ReviewFor(queued, id)
    ensures r in queued && r.actionId == id
  {
    r :| r in queued && r.actionId == id;
  }

  /** A queued review says whose action it is about, when the token was revoked, and is unresolved. */
  lemma QueuedReviewIs(cfg: Config, s: State, now: Time, j: Jti, ids: seq<string>, r: Review)
    requires ValidConfig(cfg) && ReachableState(cfg, s) && FreshReviews(s, j, ids)
    requires r in Revoke(s, now, j, ids).1.reviews
    ensures r.actionId in s.store.actions && r.jti == s.store.actions[r.actionId].jti
    ensures r.revokedAt == now && r.root == j && !r.reviewed && r.reviewedBy == None && r.reviewedAt == None
    ensures r.reviewId in ids && r.reviewId in Revoke(s, now, j, ids).0.store.reviews
    ensures Revoke(s, now, j, ids).0.store.reviews[r.reviewId] == r
  {
    ReachableInv(cfg, s);
    var candidates, already := Candidates(s.store, j), Reviewed(s.store);
    var s1 := s.(store := RevokeMany(s.store, DescendantsOf(s.store, j), j, now));
    TargetsAndCandidates(cfg, s.store, s.signed, j);
    QueueMeaning(cfg, s1, already, candidates, ids, now, j);
    var i := PositionOf(already, candidates, ids, now, j, r);
    assert candidates[i] in candidates;
  }

  lemma {:induction false} PositionOf(already: set<string>, candidates: seq<Action>, ids: seq<string>, now: Time, j: Jti, r: Review)
    returns (i: nat)
    requires |ids| == |candidates| && r in NewReviews(already, candidates, ids, now, j)
    ensures i < |candidates| && NeedsReview(already, candidates[i]) && r == ReviewOf(candidates[i], ids[i], now, j)
    decreases |ids|
  {
    var n := |candidates| - 1;
    if r in NewReviews(already, candidates[..n], ids[..n], now, j) {
      i := PositionOf(already, candidates[..n], ids[..n], now, j, r);
    } else {
      i := n;
    }
  }

  // ------------------------------------------------------------------
  // Closing
  // ------------------------------------------------------------------

  /** A close says whether the action ended cleanly, and when; nothing else that is stored changes. */
  lemma ClosingRecords(s: State, now: Time, id: string, clean: bool)
    requires id in s.store.actions
    ensures var st' := CloseAction(s, now, id, clean).store; var a, a' := s.store.actions[id], st'.actions[id];
            && st'.actions.Keys == s.store.actions.Keys
            && a'.finishedAt == Some(now) && a'.state == Some(if clean then Clean else Partial)
            && a'.jti == a.jti && a'.subject == a.subject && a'.scope == a.scope && a'.name == a.name
            && a'.startedAt == a.startedAt && a'.reversibility == a.reversibility && a'.actionId == a.actionId
            && (forall k :: k in s.store.actions && k != id ==> st'.actions[k] == s.store.actions[k])
            && st' == s.store.(actions := st'.actions)
  {
  }

  /**
   A revoke of the token of a closed action reviews it, as partial, exactly if it did not end cleanly
   and has no review yet.
   */
  lemma ClosedThenRevoked(cfg: Config, s: State, now: Time, id: string, clean: bool, later: Time, ids: seq<string>)
    requires ValidConfig(cfg) && ReachableState(cfg, s) && Legal(s, CallCloseAction(id, clean))
    requires FreshReviews(CloseAction(s, now, id, clean), s.store.actions[id].jti, ids)
    ensures var queued := Revoke(CloseAction(s, now, id, clean), later, s.store.actions[id].jti, ids).1.reviews;
            && ((exists r :: r in queued && r.actionId == id) <==> !clean && !HasReview(s.store.reviews, id))
            && (forall r :: r in queued && r.actionId == id ==> r.classification == Partial)
  {
    var t := At(now, CallCloseAction(id, clean));
    var s', j := Step(cfg, s, t).0, s.store.actions[id].jti;
    ClosingRecords(s, now, id, clean);
    ReachableStep(cfg, s, t);
    RevokedWhenClosed(cfg, s', later, j, ids, id, clean);
  }

  lemma RevokedWhenClosed(cfg: Config, s: State, now: Time, j: Jti, ids: seq<string>, id: string, clean: bool)
    requires ValidConfig(cfg) && ReachableState(cfg, s) && FreshReviews(s, j, ids)
    requires id in s.store.actions && s.store.actions[id].jti == j && s.store.actions[id].finishedAt.Some?
    requires s.store.actions[id].state == Some(if clean then Clean else Partial)
    ensures var queued := Revoke(s, now, j, ids).1.reviews;
            && ((exists r :: r in queued && r.actionId == id) <==> !clean && !HasReview(s.store.reviews, id))
            && (forall r :: r in queued && r.actionId == id ==> r.classification == Partial)
  {
    RevokeQueuesExactly(cfg, s, now, j, ids);
    var queued := Revoke(s, now, j, ids).1.reviews;
    assert ReviewFor(queued, id) <==> exists r :: r in queued && r.actionId == id;
  }

  /** An action is reviewed by the revoke that finds it open, whatever its closing says afterwards. */
  lemma RevokedThenClosed(cfg: Config, s: State, now: Time, j: Jti, ids: seq<string>, id: string, later: Time, clean: bool)
    requires ValidConfig(cfg) && ReachableState(cfg, s) && FreshReviews(s, j, ids)
    requires id in s.store.actions && s.store.actions[id].finishedAt.None? && InSubtree(s.store.tokens, j, s.store.actions[id].jti)
    ensures HasReview(CloseAction(Revoke(s, now, j, ids).0, later, id, clean).store.reviews, id)
  {
    if !HasReview(s.store.reviews, id) {
      RevokeQueuesExactly(cfg, s, now, j, ids);
      var r := QueuedFor(Revoke(s, now, j, ids).1.reviews, id);
      QueuedReviewIs(cfg, s, now, j, ids, r);
      assert HasReview(Revoke(s, now, j, ids).0.store.reviews, id);
    } else {
      RevokeKept(cfg, s, now, j, ids);
      var q :| q in s.store.reviews && s.store.reviews[q].actionId == id;
      assert Revoke(s, now, j, ids).0.store.reviews[q].actionId == id;
    }
  }
}
