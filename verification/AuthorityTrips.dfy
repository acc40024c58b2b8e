/** The circuit breaker of the firewall, told by the outcomes of the calls of a run. */
module AuthorityTrips {
  import opened Core
  import opened Tokens
  import opened Records
  import opened Storage
  import opened Authority
  import opened AuthorityBudgets
  import Guardrails

  // ------------------------------------------------------------------
  // What a call tells the breaker
  // ------------------------------------------------------------------

  /** The outcome of a call by this subject; exempt subjects are not counted, denials only if configured. */
  function Told(cfg: Config, now: Time, subject: string, denied: bool): Option<Guardrails.BreakerCall> {
    if subject != "" && subject in cfg.exempt then None
    else Some(Guardrails.Outcome(Guardrails.Sample(now as real, denied && cfg.breaker.countPolicyDenials)))
  }

  /**
   A check tells its result: a refusal is a denial, of nobody in particular if the token was not signed
   here.  It tells nothing while the breaker is open, for a missing token, and when it raises.
   */
  function TellsCheck(cfg: Config, s: State, now: Time, token: Token, v: VerifyResult): Option<Guardrails.BreakerCall> {
    if s.breaker.opening.Some? || token.Missing? then None
    else match v
      case Valid(c) => Told(cfg, now, c.sub, false)
      case Invalid(_) =>
        Told(cfg, now, if token.Encoded? && token.claims in s.signed then token.claims.sub else "", true)
      case VerifyRaised(_) => None
  }

  /** A delegation tells its result: a grant, parked or not, or a refusal of what was asked. */
  function TellsDelegate(cfg: Config, now: Time, token: Token, o: Outcome): Option<Guardrails.BreakerCall> {
    if !token.Encoded? then None
    else if o.Minted? || o.ParkedAs? then Told(cfg, now, token.claims.sub, false)
    else if o.Raised? && (o.error.ScopeEscalation? || o.error.DepthLimit?) then Told(cfg, now, token.claims.sub, true)
    else None
  }

  ghost function Tells(cfg: Config, s: State, t: Timed): Option<Guardrails.BreakerCall>
    requires Legal(s, t.call)
  {
    match t.call
    case CallVerify(token, scope) => TellsCheck(cfg, s, t.now, token, Verify(cfg, s, t.now, token, scope).1)
    case CallOpenAction(token, scope, _, _, _) => TellsCheck(cfg, s, t.now, token, Verify(cfg, s, t.now, token, scope).1)
    case CallDelegate(r) => TellsDelegate(cfg, t.now, r.token, Step(cfg, s, t).1)
    case CallResetCircuit => Some(Guardrails.Reset)
    case _ => None
  }

  /** The breaker after it was told. */
  function After(cfg: Config, b: Guardrails.Breaker, told: Option<Guardrails.BreakerCall>): Guardrails.Breaker {
    match told
    case None => b
    case Some(c) => Guardrails.StepBreaker(cfg.breaker, Guardrails.BreakerRun(b, []), c).breaker
  }

  // ------------------------------------------------------------------
  // Call by call
  // ------------------------------------------------------------------

  lemma RecordTells(cfg: Config, s: State, now: Time, denied: bool, subject: string)
    ensures Record(cfg, s, now, denied, subject, denied).breaker == After(cfg, s.breaker, Told(cfg, now, subject, denied))
  {
  }

  lemma VerifyTells(cfg: Config, s: State, now: Time, token: Token, scope: Scope)
    ensures var (s', v) := Verify(cfg, s, now, token, scope);
            s'.breaker == After(cfg, s.breaker, TellsCheck(cfg, s, now, token, v))
  {
    var d := Decode(s, token);
    if s.breaker.opening.Some? || token.Missing? {
    } else if d.Dead? {
      RecordTells(cfg, s, now, true, "");
    } else {
      VerifyKnownTells(cfg, s, now, token, scope, d.claims);
    }
  }

  lemma VerifyKnownTells(cfg: Config, s: State, now: Time, token: Token, scope: Scope, c: Claims)
    requires s.breaker.opening.None? && Decode(s, token) == Live(c)
    ensures var (s', v) := Verify(cfg, s, now, token, scope);
            s'.breaker == After(cfg, s.breaker, TellsCheck(cfg, s, now, token, v))
  {
    var (s1, within) := RateCheck(cfg, s, now, c.sub, OpVerify);
    assert s1.breaker == s.breaker && token == Encoded(c);
    if within && !(now <= c.exp && s.store.closed) {
      RecordTells(cfg, s1, now, true, c.sub);
      RecordTells(cfg, s1, now, false, c.sub);
    }
  }

  lemma DelegateTells(cfg: Config, s: State, now: Time, r: Request)
    requires Legal(s, CallDelegate(r))
    ensures var (s', o) := Delegate(cfg, s, now, r);
            s'.breaker == After(cfg, s.breaker, TellsDelegate(cfg, now, r.token, o))
  {
    var d := DecodeLive(s, now, r.token);
    LiveMeans(s, now, r.token);
    if d.Live? {
      var s1 := RateCheck(cfg, s, now, d.claims.sub, OpDelegate).0;
      GrantTells(cfg, s1, now, d.claims, r);
    }
  }

  lemma GrantTells(cfg: Config, s: State, now: Time, parent: Claims, r: Request)
    requires r.freshJti !in s.store.tokens && r.token == Encoded(parent)
    ensures var (s', o) := Grant(cfg, s, now, parent, r);
            s'.breaker == After(cfg, s.breaker, TellsDelegate(cfg, now, r.token, o))
  {
    var denied := r.scopes - parent.scopes;
    if denied != {} {
      RecordTells(cfg, Log(s, EscalationDenied(parent.jti, r.scopes, denied, parent.depth + 1)), now, true, parent.sub);
    } else if parent.depth + 1 > parent.maxDepth {
      RecordTells(cfg, Log(s, DepthLimitExceeded(parent.jti, r.scopes, parent.depth + 1)), now, true, parent.sub);
    } else {
      var s1 := if r.anomalous then Log(s, AnomalyFlagged(parent.jti, r.scopes)) else s;
      AllowTells(cfg, s1, now, parent, r);
    }
  }

  lemma AllowTells(cfg: Config, s: State, now: Time, parent: Claims, r: Request)
    requires r.freshJti !in s.store.tokens && r.token == Encoded(parent)
    ensures var (s', o) := Allow(cfg, s, now, parent, r);
            s'.breaker == After(cfg, s.breaker, TellsDelegate(cfg, now, r.token, o))
  {
    RecordTells(cfg, Park(cfg, s, now, parent, r), now, false, parent.sub);
    RecordTells(cfg, MintGranted(cfg, s, now, parent, r), now, false, parent.sub);
  }

  lemma {:induction false} QueueLeavesBreaker(s: State, already: set<string>, candidates: seq<Action>, ids: seq<string>,
                                              now: Time, root: Jti)
    requires |ids| == |candidates|
    ensures QueueReviews(s, already, candidates, ids, now, root).0.breaker == s.breaker
    decreases |ids|
  {
    if candidates != [] {
      var n := |candidates| - 1;
      QueueLeavesBreaker(s, already, candidates[..n], ids[..n], now, root);
    }
  }

  lemma {:induction false} ExpireLeavesBreaker(s: State, now: Time, ids: seq<string>)
    ensures ExpireStale(s, now, ids).breaker == s.breaker
    decreases |ids|
  {
    if ids != [] {
      ExpireLeavesBreaker(s, now, ids[..|ids| - 1]);
    }
  }

  lemma StepTells(cfg: Config, s: State, t: Timed)
    requires Legal(s, t.call)
    ensures Step(cfg, s, t).0.breaker == After(cfg, s.breaker, Tells(cfg, s, t))
  {
    match t.call {
      case CallVerify(token, scope) => VerifyTells(cfg, s, t.now, token, scope);
      case CallOpenAction(token, scope, _, _, _) => VerifyTells(cfg, s, t.now, token, scope);
      case CallDelegate(r) => DelegateTells(cfg, s, t.now, r);
      case CallRevoke(j, ids) =>
        QueueLeavesBreaker(s.(store := RevokeMany(s.store, DescendantsOf(s.store, j), j, t.now)), Reviewed(s.store),
                           Candidates(s.store, j), ids, t.now, j);
      case CallExpireStale(listing) => ExpireLeavesBreaker(s, t.now, listing);
      case _ =>
    }
  }

  // ------------------------------------------------------------------
  // Over a run
  // ------------------------------------------------------------------

  /** What the first n calls told the breaker, in order. */
  ghost function Tale(cfg: Config, calls: seq<Timed>, states: seq<State>, n: nat): seq<Guardrails.BreakerCall>
    requires Trace(cfg, calls, states) && n <= |calls|
  {
    if n == 0 then []
    else
      var told := Tells(cfg, states[n - 1], calls[n - 1]);
      Tale(cfg, calls, states, n - 1) + if told.Some? then [told.value] else []
  }

  lemma RunBreakerSnoc(cfg: Guardrails.BreakerConfig, tale: seq<Guardrails.BreakerCall>, c: Guardrails.BreakerCall)
    ensures Guardrails.RunBreaker(cfg, tale + [c]).breaker
            == Guardrails.StepBreaker(cfg, Guardrails.BreakerRun(Guardrails.RunBreaker(cfg, tale).breaker, []), c).breaker
    ensures tale + [] == tale
  {
    assert (tale + [c])[..|tale|] == tale;
  }

  /** The breaker of the firewall is the breaker that was told this tale. */
  lemma {:induction false} BreakerIsTold(cfg: Config, calls: seq<Timed>, states: seq<State>, n: nat)
    requires Trace(cfg, calls, states) && n <= |calls|
    ensures states[n].breaker == Guardrails.RunBreaker(cfg.breaker, Tale(cfg, calls, states, n)).breaker
  {
    if n > 0 {
      BreakerIsTold(cfg, calls, states, n - 1);
      StepTells(cfg, states[n - 1], calls[n - 1]);
      var told := Tells(cfg, states[n - 1], calls[n - 1]);
      if told.Some? {
        RunBreakerSnoc(cfg.breaker, Tale(cfg, calls, states, n - 1), told.value);
      } else {
        assert Tale(cfg, calls, states, n - 1) + [] == Tale(cfg, calls, states, n - 1);
      }
    }
  }

  lemma {:induction false} TaleOrdered(cfg: Config, calls: seq<Timed>, states: seq<State>, n: nat)
    requires Trace(cfg, calls, states) && ClockRuns(calls) && n <= |calls|
    ensures var since := Guardrails.SinceReset(Tale(cfg, calls, states, n));
            && Guardrails.Ordered(since, Guardrails.At)
            && forall i, k :: 0 <= i < |since| && n - 1 <= k < |calls| && 0 <= k ==> since[i].at <= calls[k].now as real
  {
    if n > 0 {
      TaleOrdered(cfg, calls, states, n - 1);
      var told := Tells(cfg, states[n - 1], calls[n - 1]);
      var before := Tale(cfg, calls, states, n - 1);
      if told.Some? {
        assert (before + [told.value])[..|before|] == before;
        ToldNow(cfg, states[n - 1], calls[n - 1]);
      } else {
        assert before + [] == before;
      }
    }
  }

  lemma ToldNow(cfg: Config, s: State, t: Timed)
    requires Legal(s, t.call)
    ensures var told := Tells(cfg, s, t);
            told.Some? && told.value.Outcome? ==> told.value.sample.at == t.now as real
  {
  }

  /**
   Over every run with a clock that never goes back: a call that tells a closed breaker its outcome opens
   it because of the error rate exactly if, of what it was told since the last reset within the window,
   there is enough and the errors are at least the threshold's share; otherwise because of volume exactly
   if there is more than the ceiling; otherwise the breaker stays closed.
   */
  lemma FirewallTripsExactly(cfg: Config, calls: seq<Timed>, states: seq<State>, k: nat)
    requires ValidConfig(cfg) && Trace(cfg, calls, states) && ClockRuns(calls) && k < |calls|
    requires states[k].breaker.opening.None?
    requires Tells(cfg, states[k], calls[k]).Some? && Tells(cfg, states[k], calls[k]).value.Outcome?
    ensures var tale, now := Tale(cfg, calls, states, k + 1), calls[k].now as real;
            var samples := |Guardrails.Samples(tale, now, cfg.breaker.window)|;
            var errors := |Guardrails.ErrorSamples(tale, now, cfg.breaker.window)|;
            states[k + 1].breaker.opening
            == if Guardrails.TooManyErrors(cfg.breaker, samples, errors) then Some(Guardrails.Opening(now, Guardrails.ErrorRate))
               else if samples > cfg.breaker.volumeCeiling then Some(Guardrails.Opening(now, Guardrails.Volume))
               else None
  {
    var before, tale := Tale(cfg, calls, states, k), Tale(cfg, calls, states, k + 1);
    assert tale[..|tale| - 1] == before;
    BreakerIsTold(cfg, calls, states, k);
    BreakerIsTold(cfg, calls, states, k + 1);
    TaleOrdered(cfg, calls, states, k + 1);
    ToldNow(cfg, states[k], calls[k]);
    Guardrails.TripsExactly(cfg.breaker, tale);
  }

  /** A call that tells it nothing leaves the breaker, and a reset closes and empties it. */
  lemma OnlyOutcomesTrip(cfg: Config, s: State, t: Timed)
    requires Legal(s, t.call)
    ensures Tells(cfg, s, t).None? ==> Step(cfg, s, t).0.breaker == s.breaker
    ensures t.call.CallResetCircuit? ==> Step(cfg, s, t).0.breaker == Guardrails.Breaker([], None)
    ensures s.breaker.opening.Some? && !t.call.CallResetCircuit? ==> Step(cfg, s, t).0.breaker == s.breaker
  {
    StepTells(cfg, s, t);
  }
}
