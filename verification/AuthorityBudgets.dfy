/**
 The rate limits, told by the calls of a run: what each call uses of whose budget, and when it is
 refused for it.  The clock of the run never goes back.
 */
module AuthorityBudgets {
  import opened Core
  import opened Tokens
  import opened Records
  import opened Storage
  import opened Authority
  import Guardrails

  // ------------------------------------------------------------------
  // Runs with their states
  // ------------------------------------------------------------------

  /** The states that a run passes through from the start. */
  ghost predicate Trace(cfg: Config, calls: seq<Timed>, states: seq<State>) {
    && |states| == |calls| + 1 && states[0] == INITIAL
    && forall k :: 0 <= k < |calls| ==> Legal(states[k], calls[k].call) && states[k + 1] == Step(cfg, states[k], calls[k]).0
  }

  /** Every run has a trace. */
  lemma {:induction false} TraceOf(cfg: Config, calls: seq<Timed>, s0: State, s: State) returns (states: seq<State>)
    requires Reaches(cfg, s0, calls, s)
    ensures |states| == |calls| + 1 && states[0] == s0 && states[|calls|] == s
    ensures forall k :: 0 <= k < |calls| ==>
              Legal(states[k], calls[k].call) && states[k + 1] == Step(cfg, states[k], calls[k]).0
    decreases |calls|
  {
    if calls == [] {
      states := [s0];
    } else {
      var rest := TraceOf(cfg, calls[1..], Step(cfg, s0, calls[0]).0, s);
      states := [s0] + rest;
      forall k | 0 <= k < |calls|
        ensures Legal(states[k], calls[k].call) && states[k + 1] == Step(cfg, states[k], calls[k]).0
      {
        if k > 0 {
          assert calls[1..][k - 1] == calls[k];
        }
      }
    }
  }

  ghost predicate ClockRuns(calls: seq<Timed>) {
    forall i, j :: 0 <= i <= j < |calls| ==> calls[i].now <= calls[j].now
  }

  // ------------------------------------------------------------------
  // What a call uses
  // ------------------------------------------------------------------

  /** The token was signed here, for this subject. */
  predicate Presents(s: State, token: Token, subject: string) {
    token.Encoded? && token.claims in s.signed && token.claims.sub == subject
  }

  /** A check of a signed token, by itself or to open an action, uses a verify. */
  predicate UsesVerify(s: State, t: Timed, subject: string) {
    && s.breaker.opening.None?
    && match t.call
       case CallVerify(token, _) => Presents(s, token, subject)
       case CallOpenAction(token, _, _, _, _) => Presents(s, token, subject)
       case _ => false
  }

  /** A delegation of something by a live token uses a delegate. */
  ghost predicate UsesDelegate(s: State, t: Timed, subject: string) {
    && s.breaker.opening.None? && t.call.CallDelegate?
    && var token := t.call.request.token;
       && t.call.request.scopes != {} && Presents(s, token, subject)
       && t.now <= token.claims.exp && !s.store.closed && token.claims.jti !in s.store.revoked
       && forall a :: a in token.claims.chain ==> a.jti !in s.store.revoked
  }

  /** An opening whose check passed uses an action. */
  predicate UsesAction(cfg: Config, s: State, t: Timed, subject: string) {
    && t.call.CallOpenAction? && Presents(s, t.call.token, subject)
    && Verify(cfg, s, t.now, t.call.token, t.call.scope).1.Valid?
  }

  ghost predicate Uses(cfg: Config, s: State, t: Timed, op: Operation, subject: string) {
    match op
    case OpVerify => UsesVerify(s, t, subject)
    case OpDelegate => UsesDelegate(s, t, subject)
    case OpAction => UsesAction(cfg, s, t, subject)
  }

  /** The calls up to call k that used the budget in the 60 seconds before it, call k included. */
  ghost function UsedBy(cfg: Config, calls: seq<Timed>, states: seq<State>, op: Operation, subject: string, k: nat): set<int>
    requires |states| == |calls| + 1 && k < |calls|
  {
    set i | 0 <= i <= k && Uses(cfg, states[i], calls[i], op, subject) && calls[i].now >= calls[k].now - 60
  }

  predicate Unexempt(cfg: Config, subject: string) {
    subject == "" || subject !in cfg.exempt
  }

  // ------------------------------------------------------------------
  // What a call does to the buckets
  // ------------------------------------------------------------------

  lemma KeysDiffer(op: Operation, subject: string, op': Operation, subject': string)
    ensures RateKey(op, subject) == RateKey(op', subject') <==> op == op' && subject == subject'
  {
    var a, b := RateKey(op, subject), RateKey(op', subject');
    assert a[5] == match op case OpDelegate => 'd' case OpVerify => 'v' case OpAction => 'a';
    assert b[5] == match op' case OpDelegate => 'd' case OpVerify => 'v' case OpAction => 'a';
    if op == op' {
      var n := |a| - |subject|;
      assert a[n..] == subject && b[n..] == subject';
    }
  }

  function Bucket(s: State, op: Operation, subject: string): seq<real> {
    BucketOf(s.rate, RateKey(op, subject))
  }

  lemma CheckHits(cfg: Config, s: State, now: Time, op: Operation, subject: string, op': Operation, subject': string)
    requires Unexempt(cfg, subject)
    ensures Bucket(RateCheck(cfg, s, now, subject', op').0, op, subject)
            == if op == op' && subject == subject' then Guardrails.Hit(Bucket(s, op, subject), now as real, 60.0)
               else Bucket(s, op, subject)
  {
    KeysDiffer(op, subject, op', subject');
  }

  lemma RecordLeavesRate(cfg: Config, s: State, now: Time, error: bool, subject: string, policyDenial: bool)
    ensures Record(cfg, s, now, error, subject, policyDenial).rate == s.rate
  {
  }

  lemma VerifyRate(cfg: Config, s: State, now: Time, token: Token, scope: Scope)
    ensures Verify(cfg, s, now, token, scope).0.rate
            == if s.breaker.opening.None? && token.Encoded? && token.claims in s.signed
               then RateCheck(cfg, s, now, token.claims.sub, OpVerify).0.rate else s.rate
  {
    RecordLeavesRate(cfg, s, now, true, "", true);
    if token.Encoded? {
      var c := token.claims;
      var s1 := RateCheck(cfg, s, now, c.sub, OpVerify).0;
      RecordLeavesRate(cfg, s1, now, true, c.sub, true);
      RecordLeavesRate(cfg, s1, now, false, c.sub, false);
    }
  }

  lemma GrantRate(cfg: Config, s: State, now: Time, parent: Claims, r: Request)
    ensures Grant(cfg, s, now, parent, r).0.rate == s.rate
    ensures Grant(cfg, s, now, parent, r).1 != Raised(RateLimited)
  {
  }

  lemma DelegateRate(cfg: Config, s: State, now: Time, r: Request)
    ensures var c := DecodeLive(s, now, r.token);
            Delegate(cfg, s, now, r).0.rate
            == if s.breaker.opening.None? && r.scopes != {} && c.Live?
               then RateCheck(cfg, s, now, c.claims.sub, OpDelegate).0.rate else s.rate
  {
    var d := DecodeLive(s, now, r.token);
    if d.Live? {
      GrantRate(cfg, RateCheck(cfg, s, now, d.claims.sub, OpDelegate).0, now, d.claims, r);
    }
  }

  lemma LiveMeans(s: State, now: Time, token: Token)
    ensures DecodeLive(s, now, token).Live?
            <==> && token.Encoded? && token.claims in s.signed && now <= token.claims.exp && !s.store.closed
                 && token.claims.jti !in s.store.revoked
                 && forall a :: a in token.claims.chain ==> a.jti !in s.store.revoked
    ensures DecodeLive(s, now, token).Live? ==> DecodeLive(s, now, token).claims == token.claims
  {
  }

  lemma OpenRate(cfg: Config, s: State, now: Time, token: Token, scope: Scope, name: string, rev: Reversibility, id: string)
    ensures var (s1, v) := Verify(cfg, s, now, token, scope);
            OpenAction(cfg, s, now, token, scope, name, rev, id).0.rate
            == if v.Valid? then RateCheck(cfg, s1, now, v.claims.sub, OpAction).0.rate else s1.rate
  {
  }

  lemma {:induction false} QueueLeavesRate(s: State, already: set<string>, candidates: seq<Action>, ids: seq<string>,
                                           now: Time, root: Jti)
    requires |ids| == |candidates|
    ensures QueueReviews(s, already, candidates, ids, now, root).0.rate == s.rate
    decreases |ids|
  {
    if candidates != [] {
      var n := |candidates| - 1;
      QueueLeavesRate(s, already, candidates[..n], ids[..n], now, root);
    }
  }

  lemma {:induction false} ExpireLeavesRate(s: State, now: Time, ids: seq<string>)
    ensures ExpireStale(s, now, ids).rate == s.rate
    decreases |ids|
  {
    if ids != [] {
      ExpireLeavesRate(s, now, ids[..|ids| - 1]);
    }
  }

  lemma OthersLeaveRate(cfg: Config, s: State, t: Timed)
    requires Legal(s, t.call) && !t.call.CallVerify? && !t.call.CallDelegate? && !t.call.CallOpenAction?
    ensures Step(cfg, s, t).0.rate == s.rate
  {
    match t.call {
      case CallRevoke(j, ids) =>
        QueueLeavesRate(s.(store := RevokeMany(s.store, DescendantsOf(s.store, j), j, t.now)), Reviewed(s.store),
                        Candidates(s.store, j), ids, t.now, j);
      case CallExpireStale(listing) => ExpireLeavesRate(s, t.now, listing);
      case _ =>
    }
  }

  lemma VerifyHits(cfg: Config, s: State, now: Time, token: Token, scope: Scope, op: Operation, subject: string)
    requires Unexempt(cfg, subject)
    ensures Bucket(Verify(cfg, s, now, token, scope).0, op, subject)
            == if op == OpVerify && s.breaker.opening.None? && Presents(s, token, subject)
               then Guardrails.Hit(Bucket(s, op, subject), now as real, 60.0) else Bucket(s, op, subject)
  {
    VerifyRate(cfg, s, now, token, scope);
    if token.Encoded? {
      CheckHits(cfg, s, now, op, subject, OpVerify, token.claims.sub);
    }
  }

  lemma ValidIsPresented(cfg: Config, s: State, now: Time, token: Token, scope: Scope)
    ensures var v := Verify(cfg, s, now, token, scope).1;
            v.Valid? ==> s.breaker.opening.None? && token == Encoded(v.claims) && v.claims in s.signed
  {
  }

  lemma OpenHits(cfg: Config, s: State, t: Timed, op: Operation, subject: string)
    requires Unexempt(cfg, subject) && t.call.CallOpenAction? && Legal(s, t.call)
    ensures Bucket(Step(cfg, s, t).0, op, subject)
            == if Uses(cfg, s, t, op, subject) then Guardrails.Hit(Bucket(s, op, subject), t.now as real, 60.0)
               else Bucket(s, op, subject)
  {
    var c := t.call;
    var (s1, v) := Verify(cfg, s, t.now, c.token, c.scope);
    VerifyHits(cfg, s, t.now, c.token, c.scope, op, subject);
    OpenRate(cfg, s, t.now, c.token, c.scope, c.name, c.reversibility, c.actionId);
    ValidIsPresented(cfg, s, t.now, c.token, c.scope);
    if v.Valid? {
      CheckHits(cfg, s1, t.now, op, subject, OpAction, v.claims.sub);
    }
  }

  /** A call adds its hit to exactly the buckets of what it uses. */
  lemma StepHits(cfg: Config, s: State, t: Timed, op: Operation, subject: string)
    requires Unexempt(cfg, subject) && Legal(s, t.call)
    ensures Bucket(Step(cfg, s, t).0, op, subject)
            == if Uses(cfg, s, t, op, subject) then Guardrails.Hit(Bucket(s, op, subject), t.now as real, 60.0)
               else Bucket(s, op, subject)
  {
    match t.call {
      case CallVerify(token, scope) => VerifyHits(cfg, s, t.now, token, scope, op, subject);
      case CallOpenAction(_, _, _, _, _) => OpenHits(cfg, s, t, op, subject);
      case CallDelegate(r) =>
        DelegateRate(cfg, s, t.now, r);
        LiveMeans(s, t.now, r.token);
        if r.token.Encoded? {
          CheckHits(cfg, s, t.now, op, subject, OpDelegate, r.token.claims.sub);
        }
      case _ => OthersLeaveRate(cfg, s, t);
    }
  }

  // ------------------------------------------------------------------
  // Buckets and counts
  // ------------------------------------------------------------------

  /** The calls of the run that use the budget. */
  ghost function Users(cfg: Config, calls: seq<Timed>, states: seq<State>, op: Operation, subject: string): set<int>
    requires |states| == |calls| + 1
  {
    set i | 0 <= i < |calls| && Uses(cfg, states[i], calls[i], op, subject)
  }

  /** The times of those of the first n calls that are among these. */
  ghost function History(users: set<int>, calls: seq<Timed>, n: nat): seq<real>
    requires n <= |calls|
  {
    if n == 0 then []
    else History(users, calls, n - 1) + if n - 1 in users then [calls[n - 1].now as real] else []
  }

  lemma {:induction false} BucketIsHistory(cfg: Config, calls: seq<Timed>, states: seq<State>, op: Operation, subject: string, n: nat)
    requires Trace(cfg, calls, states) && Unexempt(cfg, subject) && n <= |calls|
    ensures Bucket(states[n], op, subject) == Guardrails.Bucket(History(Users(cfg, calls, states, op, subject), calls, n))
  {
    if n > 0 {
      BucketIsHistory(cfg, calls, states, op, subject, n - 1);
      StepHits(cfg, states[n - 1], calls[n - 1], op, subject);
      BucketGrows(History(Users(cfg, calls, states, op, subject), calls, n - 1), calls[n - 1].now as real);
    }
  }

  lemma BucketGrows(history: seq<real>, now: real)
    ensures Guardrails.Bucket(history + [now]) == Guardrails.Hit(Guardrails.Bucket(history), now, 60.0)
    ensures history + [] == history
  {
    assert (history + [now])[..|history|] == history;
  }

  lemma {:induction false} HistoryOrdered(users: set<int>, calls: seq<Timed>, n: nat)
    requires n <= |calls| && ClockRuns(calls)
    ensures var h := History(users, calls, n);
            && Guardrails.Ordered(h, Guardrails.Now)
            && forall i, k :: 0 <= i < |h| && n - 1 <= k < |calls| && 0 <= k ==> h[i] <= calls[k].now as real
  {
    if n > 0 {
      HistoryOrdered(users, calls, n - 1);
    }
  }

  ghost function Since(users: set<int>, calls: seq<Timed>, n: nat, cutoff: real): set<int>
    requires n <= |calls|
  {
    set i | i in users && 0 <= i < n && calls[i].now as real >= cutoff
  }

  lemma SinceGrows(users: set<int>, calls: seq<Timed>, n: nat, cutoff: real)
    requires 0 < n <= |calls|
    ensures |Since(users, calls, n, cutoff)|
            == |Since(users, calls, n - 1, cutoff)| + if n - 1 in users && calls[n - 1].now as real >= cutoff then 1 else 0
  {
    var before := Since(users, calls, n - 1, cutoff);
    if n - 1 in users && calls[n - 1].now as real >= cutoff {
      assert Since(users, calls, n, cutoff) == before + {n - 1};
    } else {
      assert Since(users, calls, n, cutoff) == before;
    }
  }

  lemma {:induction false} CountIsRecent(users: set<int>, calls: seq<Timed>, n: nat, cutoff: real)
    requires n <= |calls|
    ensures |Since(users, calls, n, cutoff)| == |Guardrails.Recent(History(users, calls, n), Guardrails.Now, cutoff)|
  {
    if n > 0 {
      CountIsRecent(users, calls, n - 1, cutoff);
      OneMoreCall(users, calls, n, cutoff);
    } else {
      assert Since(users, calls, n, cutoff) == {};
    }
  }

  lemma OneMoreCall(users: set<int>, calls: seq<Timed>, n: nat, cutoff: real)
    requires 0 < n <= |calls|
    requires |Since(users, calls, n - 1, cutoff)| == |Guardrails.Recent(History(users, calls, n - 1), Guardrails.Now, cutoff)|
    ensures |Since(users, calls, n, cutoff)| == |Guardrails.Recent(History(users, calls, n), Guardrails.Now, cutoff)|
  {
    var before, now := History(users, calls, n - 1), calls[n - 1].now as real;
    SinceGrows(users, calls, n, cutoff);
    RecentGrows(before, now, cutoff);
    assert History(users, calls, n) == if n - 1 in users then before + [now] else before;
  }

  lemma RecentGrows(h: seq<real>, now: real, cutoff: real)
    ensures Guardrails.Recent(h + [now], Guardrails.Now, cutoff)
            == Guardrails.Recent(h, Guardrails.Now, cutoff) + (if now >= cutoff then [now] else [])
    ensures h + [] == h
  {
    assert (h + [now])[..|h|] == h;
  }

  /** The hit of call k makes its bucket as long as the number of calls that used the budget. */
  lemma HitCounts(cfg: Config, calls: seq<Timed>, states: seq<State>, op: Operation, subject: string, k: nat)
    requires Trace(cfg, calls, states) && ClockRuns(calls) && Unexempt(cfg, subject) && k < |calls|
    requires Uses(cfg, states[k], calls[k], op, subject)
    ensures |Guardrails.Hit(Bucket(states[k], op, subject), calls[k].now as real, 60.0)|
            == |UsedBy(cfg, calls, states, op, subject, k)|
  {
    var users := Users(cfg, calls, states, op, subject);
    BucketIsHistory(cfg, calls, states, op, subject, k);
    HitIsCount(users, calls, k);
    UsersInWindow(cfg, calls, states, op, subject, k);
  }

  lemma HitIsCount(users: set<int>, calls: seq<Timed>, k: nat)
    requires k < |calls| && ClockRuns(calls) && k in users
    ensures |Guardrails.Hit(Guardrails.Bucket(History(users, calls, k)), calls[k].now as real, 60.0)|
            == |Since(users, calls, k + 1, calls[k].now as real - 60.0)|
  {
    HistoryOrdered(users, calls, k + 1);
    HitIsRecent(History(users, calls, k), calls[k].now as real);
    CountIsRecent(users, calls, k + 1, calls[k].now as real - 60.0);
  }

  lemma HitIsRecent(history: seq<real>, now: real)
    requires Guardrails.Ordered(history + [now], Guardrails.Now)
    ensures Guardrails.Hit(Guardrails.Bucket(history), now, 60.0)
            == Guardrails.Recent(history + [now], Guardrails.Now, now - 60.0)
  {
    BucketGrows(history, now);
    Guardrails.BucketIsRecent(history + [now]);
  }

  lemma UsersInWindow(cfg: Config, calls: seq<Timed>, states: seq<State>, op: Operation, subject: string, k: nat)
    requires |states| == |calls| + 1 && k < |calls|
    ensures Since(Users(cfg, calls, states, op, subject), calls, k + 1, calls[k].now as real - 60.0)
            == UsedBy(cfg, calls, states, op, subject, k)
  {
  }

  // ------------------------------------------------------------------
  // The limits
  // ------------------------------------------------------------------

  /**
   A check of a signed token is refused for its rate exactly if the checks of tokens of its subject in the
   last 60 seconds, this one included, exceed the verify limit.
   */
  lemma VerifyRateLimited(cfg: Config, calls: seq<Timed>, states: seq<State>, subject: string, k: nat)
    requires Trace(cfg, calls, states) && ClockRuns(calls) && Unexempt(cfg, subject) && k < |calls|
    requires calls[k].call.CallVerify? && UsesVerify(states[k], calls[k], subject)
    ensures Step(cfg, states[k], calls[k]).1 == Checked(VerifyRaised(RateLimited))
            <==> |UsedBy(cfg, calls, states, OpVerify, subject, k)| > cfg.rateVerify
  {
    HitCounts(cfg, calls, states, OpVerify, subject, k);
    VerifyRaises(cfg, states[k], calls[k].now, calls[k].call.token, calls[k].call.scope);
  }

  lemma VerifyRaises(cfg: Config, s: State, now: Time, token: Token, scope: Scope)
    requires s.breaker.opening.None? && token.Encoded? && token.claims in s.signed && Unexempt(cfg, token.claims.sub)
    ensures Verify(cfg, s, now, token, scope).1 == VerifyRaised(RateLimited)
            <==> |Guardrails.Hit(Bucket(s, OpVerify, token.claims.sub), now as real, 60.0)| > cfg.rateVerify
  {
  }

  /** A delegation by a live token, likewise, by the delegate limit. */
  lemma DelegateRateLimited(cfg: Config, calls: seq<Timed>, states: seq<State>, subject: string, k: nat)
    requires Trace(cfg, calls, states) && ClockRuns(calls) && Unexempt(cfg, subject) && k < |calls|
    requires UsesDelegate(states[k], calls[k], subject)
    ensures Step(cfg, states[k], calls[k]).1 == Raised(RateLimited)
            <==> |UsedBy(cfg, calls, states, OpDelegate, subject, k)| > cfg.rateDelegate
  {
    HitCounts(cfg, calls, states, OpDelegate, subject, k);
    LiveMeans(states[k], calls[k].now, calls[k].call.request.token);
    DelegateRaises(cfg, states[k], calls[k].now, calls[k].call.request);
  }

  lemma DelegateRaises(cfg: Config, s: State, now: Time, r: Request)
    requires s.breaker.opening.None? && r.scopes != {}
    requires r.token.Encoded? && DecodeLive(s, now, r.token) == Live(r.token.claims)
    requires Unexempt(cfg, r.token.claims.sub)
    ensures Delegate(cfg, s, now, r).1 == Raised(RateLimited)
            <==> |Guardrails.Hit(Bucket(s, OpDelegate, r.token.claims.sub), now as real, 60.0)| > cfg.rateDelegate
  {
    GrantRate(cfg, RateCheck(cfg, s, now, r.token.claims.sub, OpDelegate).0, now, r.token.claims, r);
  }

  /**
   Opening an action with a signed token is refused for its rate exactly if its check is, by the verify
   limit, or if the check passes and the openings of its subject in the last 60 seconds, this one
   included, exceed the action limit.
   */
  lemma OpeningRateLimited(cfg: Config, calls: seq<Timed>, states: seq<State>, subject: string, k: nat)
    requires Trace(cfg, calls, states) && ClockRuns(calls) && Unexempt(cfg, subject) && k < |calls|
    requires calls[k].call.CallOpenAction? && UsesVerify(states[k], calls[k], subject)
    ensures Step(cfg, states[k], calls[k]).1 == Raised(RateLimited)
            <==> || |UsedBy(cfg, calls, states, OpVerify, subject, k)| > cfg.rateVerify
                 || (UsesAction(cfg, states[k], calls[k], subject)
                     && |UsedBy(cfg, calls, states, OpAction, subject, k)| > cfg.rateAction)
  {
    var s, c, now := states[k], calls[k].call, calls[k].now;
    HitCounts(cfg, calls, states, OpVerify, subject, k);
    VerifyRaises(cfg, s, now, c.token, c.scope);
    VerifyHits(cfg, s, now, c.token, c.scope, OpAction, subject);
    OpeningRaises(cfg, s, calls[k], subject);
    if UsesAction(cfg, s, calls[k], subject) {
      HitCounts(cfg, calls, states, OpAction, subject, k);
    }
  }

  lemma OpeningRaises(cfg: Config, s: State, t: Timed, subject: string)
    requires t.call.CallOpenAction? && Legal(s, t.call) && UsesVerify(s, t, subject) && Unexempt(cfg, subject)
    ensures var (s1, v) := Verify(cfg, s, t.now, t.call.token, t.call.scope);
            Step(cfg, s, t).1 == Raised(RateLimited)
            <==> || v == VerifyRaised(RateLimited)
                 || (v.Valid? && |Guardrails.Hit(Bucket(s1, OpAction, subject), t.now as real, 60.0)| > cfg.rateAction)
  {
    ValidIsPresented(cfg, s, t.now, t.call.token, t.call.scope);
  }
}
