/**
 When the calls of a run succeed: the presented token, its subject's budget as the calls of the run
 used it, and nothing else.
 */
module AuthorityAdmission {
  import opened Core
  import opened Tokens
  import opened Records
  import opened Storage
  import opened Authority
  import opened AuthorityBudgets
  import Guardrails
  import Theorems = AuthorityTheorems
  import Lifetimes = AuthorityLifetimes

  /** The token was signed here, has not expired, and is not among the revoked. */
  predicate Lives(s: State, now: Time, token: Token) {
    && s.breaker.opening.None? && !s.store.closed
    && token.Encoded? && token.claims in s.signed
    && now <= token.claims.exp && token.claims.jti !in s.store.revoked
  }

  /** Call k is within the budget of the subject, or the subject has none. */
  ghost predicate Within(cfg: Config, calls: seq<Timed>, states: seq<State>, op: Operation, subject: string, k: nat, limit: int)
    requires |states| == |calls| + 1 && k < |calls|
  {
    (subject != "" && subject in cfg.exempt) || |UsedBy(cfg, calls, states, op, subject, k)| <= limit
  }

  lemma {:induction false} TraceReachable(cfg: Config, calls: seq<Timed>, states: seq<State>, k: nat)
    requires Trace(cfg, calls, states) && k <= |calls|
    ensures ReachableState(cfg, states[k])
  {
    if k == 0 {
      assert Reaches(cfg, INITIAL, [], INITIAL);
    } else {
      TraceReachable(cfg, calls, states, k - 1);
      Lifetimes.ReachableStep(cfg, states[k - 1], calls[k - 1]);
    }
  }

  lemma CheckMeansHit(cfg: Config, s: State, now: Time, subject: string, op: Operation, limit: int)
    requires limit == match op case OpVerify => cfg.rateVerify case OpDelegate => cfg.rateDelegate case OpAction => cfg.rateAction
    ensures RateCheck(cfg, s, now, subject, op).1
            <==> || (subject != "" && subject in cfg.exempt)
                 || |Guardrails.Hit(Bucket(s, op, subject), now as real, 60.0)| <= limit
  {
  }

  /** The budget check of call k, if it makes one, counts the calls of the run. */
  lemma WithinIff(cfg: Config, calls: seq<Timed>, states: seq<State>, op: Operation, subject: string, k: nat, limit: int)
    requires Trace(cfg, calls, states) && ClockRuns(calls) && k < |calls| && Uses(cfg, states[k], calls[k], op, subject)
    requires limit == match op case OpVerify => cfg.rateVerify case OpDelegate => cfg.rateDelegate case OpAction => cfg.rateAction
    ensures RateCheck(cfg, states[k], calls[k].now, subject, op).1 <==> Within(cfg, calls, states, op, subject, k, limit)
  {
    CheckMeansHit(cfg, states[k], calls[k].now, subject, op, limit);
    if Unexempt(cfg, subject) {
      HitCounts(cfg, calls, states, op, subject, k);
    }
  }

  // ------------------------------------------------------------------
  // Checks
  // ------------------------------------------------------------------

  /** A token passes the check of a scope within a run. */
  ghost predicate Passes(cfg: Config, calls: seq<Timed>, states: seq<State>, k: nat, token: Token, scope: Scope)
    requires |states| == |calls| + 1 && k < |calls|
  {
    && Lives(states[k], calls[k].now, token) && scope in token.claims.scopes
    && Within(cfg, calls, states, OpVerify, token.claims.sub, k, cfg.rateVerify)
  }

  lemma PassesIff(cfg: Config, calls: seq<Timed>, states: seq<State>, k: nat, token: Token, scope: Scope)
    requires ValidConfig(cfg) && Trace(cfg, calls, states) && ClockRuns(calls) && k < |calls|
    requires token.Encoded? ==> Presents(states[k], token, token.claims.sub) && states[k].breaker.opening.None?
                                ==> Uses(cfg, states[k], calls[k], OpVerify, token.claims.sub)
    ensures Verify(cfg, states[k], calls[k].now, token, scope).1.Valid? <==> Passes(cfg, calls, states, k, token, scope)
  {
    TraceReachable(cfg, calls, states, k);
    Theorems.VerifySucceedsIff(cfg, states[k], calls[k].now, token, scope);
    if token.Encoded? && token.claims in states[k].signed && states[k].breaker.opening.None? {
      WithinIff(cfg, calls, states, OpVerify, token.claims.sub, k, cfg.rateVerify);
    }
  }

  /** A check passes exactly for a live token that holds the scope, within the verify budget of its subject. */
  lemma AcceptedIff(cfg: Config, calls: seq<Timed>, states: seq<State>, k: nat)
    requires ValidConfig(cfg) && Trace(cfg, calls, states) && ClockRuns(calls)
    requires k < |calls| && calls[k].call.CallVerify?
    ensures var o, token := Step(cfg, states[k], calls[k]).1, calls[k].call.token;
            && o.Checked? && (o.result.Valid? ==> token == Encoded(o.result.claims))
            && (o.result.Valid? <==> Passes(cfg, calls, states, k, token, calls[k].call.scope))
  {
    var c := calls[k].call;
    PassesIff(cfg, calls, states, k, c.token, c.scope);
    ValidIsPresented(cfg, states[k], calls[k].now, c.token, c.scope);
  }

  // ------------------------------------------------------------------
  // Delegation
  // ------------------------------------------------------------------

  /**
   A delegation is granted exactly for a live token that holds what is asked for and is above the depth
   ceiling, within the delegate budget of its subject; the grant is parked if anything sensitive is asked
   for, and minted otherwise.
   */
  lemma GrantedIff(cfg: Config, calls: seq<Timed>, states: seq<State>, k: nat)
    requires ValidConfig(cfg) && Trace(cfg, calls, states) && ClockRuns(calls)
    requires k < |calls| && calls[k].call.CallDelegate?
    ensures var o, r := Step(cfg, states[k], calls[k]).1, calls[k].call.request;
            && (o.Minted? || o.ParkedAs?
                <==> && Lives(states[k], calls[k].now, r.token) && {} != r.scopes <= r.token.claims.scopes
                     && r.token.claims.depth < r.token.claims.maxDepth
                     && Within(cfg, calls, states, OpDelegate, r.token.claims.sub, k, cfg.rateDelegate))
            && (o.ParkedAs? ==> exists x :: x in r.scopes && x in cfg.sensitive)
            && (o.Minted? ==> forall x :: x in r.scopes ==> x !in cfg.sensitive)
  {
    var s, t, r := states[k], calls[k], calls[k].call.request;
    TraceReachable(cfg, calls, states, k);
    Theorems.DelegateMintsIff(cfg, s, t.now, r);
    Lifetimes.DelegateParksIff(cfg, s, t.now, r);
    Lifetimes.SomeInBoth(r.scopes, cfg.sensitive);
    if Lives(s, t.now, r.token) && r.scopes != {} {
      Theorems.AncestorLookupsAgree(cfg, s, r.token.claims);
      assert UsesDelegate(s, t, r.token.claims.sub);
      WithinIff(cfg, calls, states, OpDelegate, r.token.claims.sub, k, cfg.rateDelegate);
    }
  }

  // ------------------------------------------------------------------
  // Actions
  // ------------------------------------------------------------------

  /** An action opens exactly if its check passes and its subject is within the action budget as well. */
  lemma OpenedIff(cfg: Config, calls: seq<Timed>, states: seq<State>, k: nat)
    requires ValidConfig(cfg) && Trace(cfg, calls, states) && ClockRuns(calls)
    requires k < |calls| && calls[k].call.CallOpenAction?
    ensures var c := calls[k].call;
            Step(cfg, states[k], calls[k]).1 == Opened(c.actionId)
            <==> && Passes(cfg, calls, states, k, c.token, c.scope)
                 && Within(cfg, calls, states, OpAction, c.token.claims.sub, k, cfg.rateAction)
  {
    var s, t, c := states[k], calls[k], calls[k].call;
    PassesIff(cfg, calls, states, k, c.token, c.scope);
    ValidIsPresented(cfg, s, t.now, c.token, c.scope);
    var (s1, v) := Verify(cfg, s, t.now, c.token, c.scope);
    if v.Valid? {
      StartsIff(cfg, s, t, v.claims.sub);
      WithinIff(cfg, calls, states, OpAction, v.claims.sub, k, cfg.rateAction);
    }
  }

  lemma StartsIff(cfg: Config, s: State, t: Timed, subject: string)
    requires t.call.CallOpenAction? && Legal(s, t.call) && UsesAction(cfg, s, t, subject)
    ensures Step(cfg, s, t).1 == Opened(t.call.actionId) <==> RateCheck(cfg, s, t.now, subject, OpAction).1
  {
    var c := t.call;
    var s1 := Verify(cfg, s, t.now, c.token, c.scope).0;
    ValidIsPresented(cfg, s, t.now, c.token, c.scope);
    CheckLeavesStore(cfg, s, t.now, c.token, c.scope);
    if Unexempt(cfg, subject) {
      VerifyHits(cfg, s, t.now, c.token, c.scope, OpAction, subject);
    }
  }

  lemma CheckLeavesStore(cfg: Config, s: State, now: Time, token: Token, scope: Scope)
    ensures Verify(cfg, s, now, token, scope).0.store == s.store
  {
  }
}
