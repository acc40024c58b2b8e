/**
 The capability authority (firewall.py) as one state and one function per operation.

 The clock, the uuid generator, the subject registry and the anomaly detector are parameters.  A
 call samples the clock once, in whole seconds.  `signed` is the ideal signature: exactly the claim
 sets that this firewall has signed.
 */
module Authority {
  import opened Core
  import opened Tokens
  import opened Lineage
  import opened Records
  import opened Storage
  import opened Walk
  import Guardrails

  datatype Config = Config(
    issuer: string, maxDelegationDepth: int, defaultTtl: int, maxTtl: int,
    sensitive: set<Scope>, approvalTimeout: int,
    rateDelegate: int, rateVerify: int, rateAction: int,
    exempt: set<string>, breaker: Guardrails.BreakerConfig)

  predicate ValidConfig(cfg: Config) {
    && cfg.maxDelegationDepth >= 1 && cfg.defaultTtl > 0 && cfg.maxTtl > 0
    && 0.0 < cfg.breaker.threshold <= 1.0
  }

  datatype State = State(
    store: Store, log: seq<Event>, signed: set<Claims>,
    rate: map<string, seq<real>>, breaker: Guardrails.Breaker)

  const INITIAL := State(EMPTY, [], {}, map[], Guardrails.Breaker([], None))

  datatype Error =
    | CircuitOpen | ValueError | UnknownId | RateLimited | StorageError
    | ParentInvalid(reason: string) | RootChainBroken
    | ScopeEscalation(denied: set<Scope>) | DepthLimit | AccessDenied(reason: string)

  datatype Outcome =
    | Minted(claims: Claims) | ParkedAs(approvalId: string)
    | Opened(actionId: string) | Swept(targets: seq<Jti>, reviews: seq<Review>)
    | NotYet | Done | Checked(result: VerifyResult) | Raised(error: Error)

  datatype VerifyResult = Valid(claims: Claims) | Invalid(reason: string) | VerifyRaised(error: Error)

  const REASON_EXPIRED := "expired"
  const REASON_REVOKED := "revoked"
  const REASON_SCOPE := "scope_not_granted"
  const REASON_FORGED := "invalid_signature"
  const REASON_MALFORMED := "malformed_token"
  const REASON_MISSING := "missing_token"
  const REASON_CIRCUIT := "circuit_open"

  // ------------------------------------------------------------------
  // Audit, breaker and rate limiter
  // ------------------------------------------------------------------

  function Log(s: State, e: Event): State {
    s.(log := s.log + [e])
  }

  predicate Exempt(cfg: Config, subject: string) {
    subject != "" && subject in cfg.exempt
  }

  function OutcomeSample(cfg: Config, now: Time, error: bool, policyDenial: bool): Guardrails.Sample {
    Guardrails.Sample(now as real, error && !(policyDenial && !cfg.breaker.countPolicyDenials))
  }

  /** CircuitBreaker.record with its open callback; an empty subject stands for none. */
  function Record(cfg: Config, s: State, now: Time, error: bool, subject: string, policyDenial: bool): State {
    if Exempt(cfg, subject) then s
    else
      var x := OutcomeSample(cfg, now, error, policyDenial);
      var tripped := Guardrails.Trips(cfg.breaker, s.breaker, x);
      var s' := s.(breaker := Guardrails.RecordOutcome(cfg.breaker, s.breaker, x));
      if tripped.Some? then Log(s', BreakerOpened(tripped.value)) else s'
  }

  datatype Operation = OpDelegate | OpVerify | OpAction

  function RateKey(op: Operation, subject: string): string {
    (match op case OpDelegate => "rate:delegate:" case OpVerify => "rate:verify:" case OpAction => "rate:action:")
    + subject
  }

  function LimitFor(cfg: Config, op: Operation): int {
    match op case OpDelegate => cfg.rateDelegate case OpVerify => cfg.rateVerify case OpAction => cfg.rateAction
  }

  function BucketOf(rate: map<string, seq<real>>, key: string): seq<real> {
    if key in rate then rate[key] else []
  }

  /** RateLimiter.check: the state after the attempt, and whether it was within the limit. */
  function RateCheck(cfg: Config, s: State, now: Time, subject: string, op: Operation): (State, bool) {
    if Exempt(cfg, subject) then (s, true)
    else
      var key := RateKey(op, subject);
      var bucket := Guardrails.Hit(BucketOf(s.rate, key), now as real, Guardrails.WINDOW_SECONDS);
      (s.(rate := s.rate[key := bucket]), |bucket| <= LimitFor(cfg, op))
  }

  // ------------------------------------------------------------------
  // Minting
  // ------------------------------------------------------------------

  /** Sign claims, store their record and, for a child, the edge from its parent. */
  function Issue(s: State, c: Claims, parent: Option<Jti>): State {
    var stored := PutToken(s.store, MetaOf(c, parent));
    s.(signed := s.signed + {c},
       store := match parent case None => stored case Some(p) => LinkTokens(stored, p, c.jti))
  }

  /** `ttl_seconds or default`: absent and zero both mean the default. */
  function OrDefault(value: int, default: int): int {
    if value == 0 then default else value
  }

  function MintRootToken(cfg: Config, s: State, now: Time, sub: string, scopes: set<Scope>,
                         ttl: int, maxDepth: int, jti: Jti): (State, Outcome) {
    var life := Min(OrDefault(ttl, cfg.defaultTtl), cfg.maxTtl);
    var ceiling := OrDefault(maxDepth, cfg.maxDelegationDepth);
    if scopes == {} || ceiling < 1 then (s, Raised(ValueError))
    else if jti in s.store.tokens then (s, Raised(StorageError))
    else
      var c := MintRoot(cfg.issuer, jti, sub, scopes, life, ceiling, now);
      (Log(Issue(s, c, None), RootMinted(jti, scopes, life, ceiling)), Minted(c))
  }

  // ------------------------------------------------------------------
  // Delegation
  // ------------------------------------------------------------------

  datatype Request = Request(
    token: Token, agent: string, childSubject: string, scopes: set<Scope>, ttl: int,
    anomalous: bool, freshJti: Jti, freshApproval: string)

  datatype Decoded = Live(claims: Claims) | Dead(error: Error)

  /** Signature check only; the reason tells a forged token from a malformed one. */
  function Decode(s: State, token: Token): Decoded {
    match token
    case Missing => Dead(ParentInvalid(REASON_MALFORMED))
    case Garbage(reason) => Dead(ParentInvalid(reason))
    case Encoded(c) => if c in s.signed then Live(c) else Dead(ParentInvalid(REASON_FORGED))
  }

  predicate AnyRevoked(st: Store, c: Claims) {
    c.jti in st.revoked || exists a :: a in c.chain && a.jti in st.revoked
  }

  function DecodeLive(s: State, now: Time, token: Token): Decoded {
    var d := Decode(s, token);
    if d.Dead? then d
    else if d.claims.exp < now then Dead(ParentInvalid(REASON_EXPIRED))
    else if s.store.closed then Dead(StorageError)
    else if AnyRevoked(s.store, d.claims) then Dead(ParentInvalid(REASON_REVOKED))
    else d
  }

  predicate RootAlive(s: State, now: Time, c: Claims) {
    && c.rootJti in s.store.tokens
    && s.store.tokens[c.rootJti].depth == 0
    && s.store.tokens[c.rootJti].expiresAt >= now
    && c.rootJti !in s.store.revoked
  }

  function Delegate(cfg: Config, s: State, now: Time, r: Request): (State, Outcome) {
    if s.breaker.opening.Some? then (s, Raised(CircuitOpen))
    else if r.scopes == {} then (s, Raised(ValueError))
    else
      var d := DecodeLive(s, now, r.token);
      if d.Dead? then (s, Raised(d.error))
      else
        var (s1, within) := RateCheck(cfg, s, now, d.claims.sub, OpDelegate);
        if !within then (s1, Raised(RateLimited))
        else if !RootAlive(s1, now, d.claims) then (s1, Raised(RootChainBroken))
        else Grant(cfg, s1, now, d.claims, r)
  }

  /** The checks on the grant itself, and what happens when they pass. */
  function Grant(cfg: Config, s: State, now: Time, parent: Claims, r: Request): (State, Outcome) {
    var denied := r.scopes - parent.scopes;
    if denied != {} then
      (Record(cfg, Log(s, EscalationDenied(parent.jti, r.scopes, denied, parent.depth + 1)),
              now, true, parent.sub, true),
       Raised(ScopeEscalation(denied)))
    else if parent.depth + 1 > parent.maxDepth then
      (Record(cfg, Log(s, DepthLimitExceeded(parent.jti, r.scopes, parent.depth + 1)),
              now, true, parent.sub, true),
       Raised(DepthLimit))
    else Allow(cfg, if r.anomalous then Log(s, AnomalyFlagged(parent.jti, r.scopes)) else s, now, parent, r)
  }

  /** An allowed grant is parked if it asks for anything sensitive, and minted otherwise. */
  function Allow(cfg: Config, s: State, now: Time, parent: Claims, r: Request): (State, Outcome) {
    if r.scopes * cfg.sensitive != {} then
      (Record(cfg, Park(cfg, s, now, parent, r), now, false, parent.sub, false), ParkedAs(r.freshApproval))
    else if r.freshJti in s.store.tokens then (s, Raised(StorageError))
    else
      (Record(cfg, MintGranted(cfg, s, now, parent, r), now, false, parent.sub, false),
       Minted(GrantedChild(cfg, now, parent, r)))
  }

  function GrantedChild(cfg: Config, now: Time, parent: Claims, r: Request): Claims {
    MintChild(cfg.issuer, r.freshJti, parent, r.childSubject, r.scopes,
              Min(now + OrDefault(r.ttl, cfg.defaultTtl), parent.exp), false, None, now)
  }

  function MintGranted(cfg: Config, s: State, now: Time, parent: Claims, r: Request): State {
    var c := GrantedChild(cfg, now, parent, r);
    Log(Issue(s, c, Some(parent.jti)), Delegated(c.jti, parent.jti, c.rootJti, c.scopes, c.depth, c.exp))
  }

  /** The request never waits longer than the parent lives. */
  function ParkedApproval(cfg: Config, now: Time, parent: Claims, r: Request): Approval {
    Approval(r.freshApproval, parent.jti, parent.sub, r.agent, r.childSubject,
             r.scopes, r.scopes * cfg.sensitive, OrDefault(r.ttl, cfg.defaultTtl), parent.exp, Pending, now,
             Min(now + cfg.approvalTimeout, parent.exp), None, None, None, None, false)
  }

  function Park(cfg: Config, s: State, now: Time, parent: Claims, r: Request): State {
    Log(s.(store := SetApproval(s.store, ParkedApproval(cfg, now, parent, r))),
        ApprovalPending(r.freshApproval, parent.jti, r.scopes, parent.depth + 1))
  }

  // ------------------------------------------------------------------
  // Verification
  // ------------------------------------------------------------------

  function Verify(cfg: Config, s: State, now: Time, token: Token, scope: Scope): (State, VerifyResult) {
    if s.breaker.opening.Some? then (s, Invalid(REASON_CIRCUIT))
    else if token.Missing? then (s, Invalid(REASON_MISSING))
    else
      var d := Decode(s, token);
      if d.Dead? then
        (Log(Record(cfg, s, now, true, "", true), VerifyDenied(None, scope, d.error.reason)),
         Invalid(d.error.reason))
      else
        var c := d.claims;
        var (s1, within) := RateCheck(cfg, s, now, c.sub, OpVerify);
        if !within then (s1, VerifyRaised(RateLimited))
        else if c.exp < now then DenyVerify(cfg, s1, now, c, scope, REASON_EXPIRED)
        else if s.store.closed then (s1, VerifyRaised(StorageError))
        else if AnyRevoked(s.store, c) then DenyVerify(cfg, s1, now, c, scope, REASON_REVOKED)
        else if scope !in c.scopes then DenyVerify(cfg, s1, now, c, scope, REASON_SCOPE)
        else (Log(Record(cfg, s1, now, false, c.sub, false), VerifyAllowed(c.jti, scope)), Valid(c))
  }

  function DenyVerify(cfg: Config, s: State, now: Time, c: Claims, scope: Scope, reason: string): (State, VerifyResult) {
    (Log(Record(cfg, s, now, true, c.sub, true), VerifyDenied(Some(c.jti), scope, reason)), Invalid(reason))
  }

  // ------------------------------------------------------------------
  // Actions
  // ------------------------------------------------------------------

  function OpenAction(cfg: Config, s: State, now: Time, token: Token, scope: Scope, name: string,
                      reversibility: Reversibility, id: string): (State, Outcome) {
    var (s1, v) := Verify(cfg, s, now, token, scope);
    match v
    case VerifyRaised(e) => (s1, Raised(e))
    case Invalid(reason) => (s1, Raised(AccessDenied(reason)))
    case Valid(c) => StartVerified(cfg, s1, now, c, scope, name, reversibility, id)
  }

  /** What follows an accepted check. */
  function StartVerified(cfg: Config, s: State, now: Time, c: Claims, scope: Scope, name: string,
                         reversibility: Reversibility, id: string): (State, Outcome) {
    var (s1, within) := RateCheck(cfg, s, now, c.sub, OpAction);
    if !within then (s1, Raised(RateLimited))
    else if id in s.store.actions then (s1, Raised(StorageError))
    else
      var a := Action(id, c.jti, c.sub, name, scope, now, None, None, reversibility);
      (Log(s1.(store := PutAction(s1.store, a)), ActionStarted(id, c.jti, scope, reversibility)), Opened(id))
  }

  function CloseAction(s: State, now: Time, id: string, clean: bool): State {
    var state := if clean then Clean else Partial;
    var jti := if id in s.store.actions then s.store.actions[id].jti else "";
    Log(s.(store := CloseActionRow(s.store, id, state, now)), ActionClosed(id, jti, state))
  }

  // ------------------------------------------------------------------
  // Revocation and reviews
  // ------------------------------------------------------------------

  predicate NeedsReview(already: set<string>, a: Action) {
    a.actionId !in already && ClassifyAction(a) != Clean
  }

  function ReviewOf(a: Action, id: string, now: Time, root: Jti): Review {
    Review(id, a.jti, a.actionId, ClassifyAction(a), now, root, false, None, None)
  }

  /** The i-th candidate, if it needs a review, gets the i-th fresh review id. */
  function QueueReviews(s: State, already: set<string>, candidates: seq<Action>, ids: seq<string>,
                        now: Time, root: Jti): (State, seq<Review>)
    requires |ids| == |candidates|
  {
    if candidates == [] then (s, [])
    else
      var n := |candidates| - 1;
      var a := candidates[n];
      var (s1, queued) := QueueReviews(s, already, candidates[..n], ids[..n], now, root);
      if !NeedsReview(already, a) then (s1, queued)
      else
        var r := ReviewOf(a, ids[n], now, root);
        (Log(s1.(store := SetReview(s1.store, r)),
             ReviewQueued(r.reviewId, a.actionId, a.jti, r.classification, ReviewPriority(a))),
         queued + [r])
  }

  function Reviewed(st: Store): set<string> {
    set id | id in st.reviews :: st.reviews[id].actionId
  }

  function Candidates(st: Store, j: Jti): seq<Action> {
    ActionsForReview(st, DescendantsOf(st, j))
  }

  function IdsOf(reviews: seq<Review>): seq<string> {
    seq(|reviews|, i requires 0 <= i < |reviews| => reviews[i].reviewId)
  }

  function Revoke(s: State, now: Time, j: Jti, ids: seq<string>): (State, Outcome)
    requires |ids| == |Candidates(s.store, j)|
  {
    var targets := DescendantsOf(s.store, j);
    var candidates := Candidates(s.store, j);
    var s1 := s.(store := RevokeMany(s.store, targets, j, now));
    var (s2, queued) := QueueReviews(s1, Reviewed(s.store), candidates, ids, now, j);
    (Log(s2, RevokedTree(j, targets, |candidates|, IdsOf(queued))), Swept(targets, queued))
  }

  function ResolveReview(s: State, now: Time, id: string, blankNote: bool, reviewer: string): (State, Outcome) {
    if blankNote then (s, Raised(ValueError))
    else if id !in s.store.reviews then (s, Raised(UnknownId))
    else if s.store.reviews[id].reviewed then (s, Raised(ValueError))
    else
      var r := s.store.reviews[id].(reviewed := true, reviewedBy := Some(reviewer), reviewedAt := Some(now));
      (Log(s.(store := SetReview(s.store, r)), ReviewResolved(id, r.actionId, reviewer)), Done)
  }

  // ------------------------------------------------------------------
  // The approval gate
  // ------------------------------------------------------------------

  function Decide(s: State, a: Approval, now: Time, status: Status, approver: Option<string>,
                  child: Option<Claims>): State {
    var token := match child case None => None case Some(c) => Some(Encoded(c));
    var jti := match child case None => None case Some(c) => Some(c.jti);
    s.(store := SetApproval(s.store,
         a.(status := status, decidedAt := Some(now), approvedBy := approver,
            childJti := jti, childToken := token)))
  }

  /** _load_pending: a timed-out record is marked expired on the way to the error. */
  function LoadPending(s: State, now: Time, id: string): (State, Option<Error>) {
    if id !in s.store.approvals then (s, Some(UnknownId))
    else
      var a := s.store.approvals[id];
      if a.status == Pending && a.expiresAt < now then
        (Decide(s, a, now, Expired, None, None), Some(ValueError))
      else if a.status != Pending then (s, Some(ValueError))
      else (s, None)
  }

  function Approve(cfg: Config, s: State, now: Time, id: string, approver: string, jti: Jti): (State, Outcome) {
    var (s1, problem) := LoadPending(s, now, id);
    if problem.Some? then (s1, Raised(problem.value))
    else
      var a := s.store.approvals[id];
      if a.parentJti !in s.store.tokens then (s, Raised(RootChainBroken))
      else if s.store.closed then (s, Raised(StorageError))
      else if a.parentJti in s.store.revoked then
        (Log(Decide(s, a, now, Denied, Some(approver), None), ApprovalRejected(id, a.parentJti, approver)),
         Raised(ParentInvalid(REASON_REVOKED)))
      else if a.parentExp < now then
        (Decide(s, a, now, Expired, Some(approver), None), Raised(ParentInvalid(REASON_EXPIRED)))
      else if jti in s.store.tokens then (s, Raised(StorageError))
      else
        var c := ApprovedChild(cfg, s, now, a, approver, jti);
        (Log(Decide(Issue(s, c, Some(a.parentJti)), a, now, Approved, Some(approver), Some(c)),
             ApprovalGranted(c.jti, a.parentJti, c.rootJti, c.scopes, c.depth, id, approver)),
         Minted(c))
  }

  function ApprovedChild(cfg: Config, s: State, now: Time, a: Approval, approver: string, jti: Jti): Claims
    requires a.parentJti in s.store.tokens
  {
    MintChild(cfg.issuer, jti, ClaimsOf(cfg.issuer, s.store.tokens[a.parentJti]), a.childSubject,
              a.requested, Min(now + a.ttl, a.parentExp), true, Some(approver), now)
  }

  function Deny(s: State, now: Time, id: string, approver: string): (State, Outcome) {
    var (s1, problem) := LoadPending(s, now, id);
    if problem.Some? then (s1, Raised(problem.value))
    else
      var a := s.store.approvals[id];
      (Log(Decide(s, a, now, Denied, Some(approver), None),
           ApprovalDenied(id, a.parentJti, a.requested, approver)), Done)
  }

  /** Reading an approved capability changes nothing: the record is written back as it was. */
  function Collect(s: State, id: string): Outcome {
    if id !in s.store.approvals then Raised(UnknownId)
    else
      var a := s.store.approvals[id];
      if a.status != Approved || a.childToken.None? then
        if a.status == Denied then Raised(AccessDenied("approval_denied"))
        else if a.status == Expired then Raised(AccessDenied("approval_expired"))
        else NotYet
      else
        var d := Decode(s, a.childToken.value);
        if d.Live? then Minted(d.claims) else Raised(d.error)
  }

  predicate TimedOut(st: Store, now: Time, id: string) {
    id in st.approvals && st.approvals[id].status == Pending && st.approvals[id].expiresAt < now
  }

  /** expire_stale_approvals over the ids in the order of `list_approvals`. */
  function ExpireStale(s: State, now: Time, ids: seq<string>): State {
    if ids == [] then s
    else
      var n := |ids| - 1;
      var s1 := ExpireStale(s, now, ids[..n]);
      if !TimedOut(s1.store, now, ids[n]) then s1
      else
        var a := s1.store.approvals[ids[n]];
        Log(Decide(s1, a, now, Expired, None, None), ApprovalExpired(ids[n], a.parentJti, a.requested))
  }

  // ------------------------------------------------------------------
  // Break glass, shutdown
  // ------------------------------------------------------------------

  function ResetCircuit(s: State): State {
    Log(s.(breaker := Guardrails.Breaker([], None)), BreakerReset(s.breaker.opening.Some?))
  }

  function Close(s: State): State {
    s.(store := s.store.(closed := true))
  }

  // ------------------------------------------------------------------
  // Runs
  // ------------------------------------------------------------------

  datatype Call =
    | CallMintRoot(subject: string, scopes: set<Scope>, ttl: int, maxDepth: int, jti: Jti)
    | CallDelegate(request: Request)
    | CallVerify(token: Token, scope: Scope)
    | CallOpenAction(token: Token, scope: Scope, name: string, reversibility: Reversibility, actionId: string)
    | CallCloseAction(actionId: string, clean: bool)
    | CallRevoke(jti: Jti, reviewIds: seq<string>)
    | CallResolveReview(reviewId: string, blankNote: bool, reviewer: string)
    | CallApprove(approvalId: string, approver: string, jti: Jti)
    | CallDeny(approvalId: string, approver: string)
    | CallCollect(approvalId: string)
    | CallExpireStale(listing: seq<string>)
    | CallResetCircuit
    | CallClose

  datatype Timed = At(now: Time, call: Call)

  /** New identifiers are new, and an action closes once: its context manager exits once. */
  ghost predicate Legal(s: State, call: Call) {
    match call
    case CallMintRoot(_, _, _, _, jti) => FreshJti(s, jti)
    case CallDelegate(r) => FreshJti(s, r.freshJti) && r.freshApproval !in s.store.approvals
    case CallOpenAction(_, _, _, _, id) => id !in s.store.actions
    case CallCloseAction(id, _) => id in s.store.actions && s.store.actions[id].finishedAt.None?
    case CallRevoke(j, ids) => FreshReviews(s, j, ids)
    case CallApprove(_, _, jti) => FreshJti(s, jti)
    case CallExpireStale(listing) =>
      forall id :: id in s.store.approvals && s.store.approvals[id].status == Pending ==> id in listing
    case _ => true
  }

  predicate FreshJti(s: State, jti: Jti) {
    jti !in s.store.tokens && jti !in s.store.revoked
  }

  ghost predicate FreshReviews(s: State, j: Jti, ids: seq<string>) {
    && |ids| == |Candidates(s.store, j)|
    && NoDups(ids) && forall id :: id in ids ==> id !in s.store.reviews
  }

  ghost function Step(cfg: Config, s: State, t: Timed): (State, Outcome)
    requires Legal(s, t.call)
  {
    var now := t.now;
    match t.call
    case CallMintRoot(sub, scopes, ttl, maxDepth, jti) => MintRootToken(cfg, s, now, sub, scopes, ttl, maxDepth, jti)
    case CallDelegate(r) => Delegate(cfg, s, now, r)
    case CallVerify(token, scope) => var v := Verify(cfg, s, now, token, scope); (v.0, Checked(v.1))
    case CallOpenAction(token, scope, name, rev, id) => OpenAction(cfg, s, now, token, scope, name, rev, id)
    case CallCloseAction(id, clean) => (CloseAction(s, now, id, clean), Done)
    case CallRevoke(j, ids) => Revoke(s, now, j, ids)
    case CallResolveReview(id, blank, reviewer) => ResolveReview(s, now, id, blank, reviewer)
    case CallApprove(id, approver, jti) => Approve(cfg, s, now, id, approver, jti)
    case CallDeny(id, approver) => Deny(s, now, id, approver)
    case CallCollect(id) => (s, Collect(s, id))
    case CallExpireStale(listing) => (ExpireStale(s, now, listing), Done)
    case CallResetCircuit => (ResetCircuit(s), Done)
    case CallClose => (Close(s), Done)
  }

  /** s' is reached from s by these calls, each legal where it is made. */
  ghost predicate Reaches(cfg: Config, s: State, calls: seq<Timed>, s': State)
    decreases |calls|
  {
    if calls == [] then s' == s
    else Legal(s, calls[0].call) && Reaches(cfg, Step(cfg, s, calls[0]).0, calls[1..], s')
  }

  ghost predicate ReachableState(cfg: Config, s: State) {
    exists calls :: Reaches(cfg, INITIAL, calls, s)
  }
}
