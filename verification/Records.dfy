/** The records the firewall keeps besides tokens (models.py), and the audit events it writes. */
module Records {
  import opened Core
  import opened Tokens
  import opened Guardrails

  // ------------------------------------------------------------------
  // Approvals
  // ------------------------------------------------------------------

  datatype Status = Pending | Approved | Denied | Expired

  datatype Approval = Approval(
    approvalId: string, parentJti: Jti, parentSubject: string, childAgent: string, childSubject: string,
    requested: set<Scope>, sensitive: set<Scope>, ttl: int, parentExp: Time,
    status: Status, createdAt: Time, expiresAt: Time,
    decidedAt: Option<Time>, approvedBy: Option<string>,
    childJti: Option<Jti>, childToken: Option<Token>, collected: bool)

  // ------------------------------------------------------------------
  // Actions and reviews
  // ------------------------------------------------------------------

  datatype Completion = Clean | Partial | Unknown

  datatype Reversibility = Idempotent | Reversible | Compensable | Irreversible

  datatype Action = Action(
    actionId: string, jti: Jti, subject: string, name: string, scope: Scope,
    startedAt: Time, finishedAt: Option<Time>, state: Option<Completion>, reversibility: Reversibility)

  datatype Review = Review(
    reviewId: string, jti: Jti, actionId: string, classification: Completion,
    revokedAt: Time, root: Jti, reviewed: bool, reviewedBy: Option<string>, reviewedAt: Option<Time>)

  /** An action without a closing record is never taken for clean. */
  function ClassifyAction(a: Action): Completion {
    if a.finishedAt.None? || a.state.None? then Unknown else a.state.value
  }

  function Urgency(c: Completion): int {
    match c case Unknown => 2 case Partial => 1 case Clean => 0
  }

  function Rank(r: Reversibility): int {
    match r case Idempotent => 0 case Reversible => 1 case Compensable => 2 case Irreversible => 3
  }

  function ReviewPriority(a: Action): int {
    Urgency(ClassifyAction(a)) * 10 + Rank(a.reversibility)
  }

  predicate Worse(a: Completion, b: Completion) {
    (a == Unknown && b != Unknown) || (a == Partial && b == Clean)
  }

  predicate HarderToUndo(a: Reversibility, b: Reversibility) {
    || (a == Irreversible && b != Irreversible)
    || (a == Compensable && (b == Reversible || b == Idempotent))
    || (a == Reversible && b == Idempotent)
  }

  /**
   The one number orders by completion first, unknown before partial before clean; how hard the action
   is to undo only breaks ties.
   */
  lemma PriorityIsLexicographic(a: Action, b: Action)
    ensures ReviewPriority(a) > ReviewPriority(b)
            <==> || Worse(ClassifyAction(a), ClassifyAction(b))
                 || (ClassifyAction(a) == ClassifyAction(b) && HarderToUndo(a.reversibility, b.reversibility))
    ensures ReviewPriority(a) == ReviewPriority(b)
            <==> ClassifyAction(a) == ClassifyAction(b) && a.reversibility == b.reversibility
    ensures ClassifyAction(a) == Clean <==> a.finishedAt.Some? && a.state == Some(Clean)
    ensures ClassifyAction(a) == Partial <==> a.finishedAt.Some? && a.state == Some(Partial)
  {
    var x, y := Urgency(ClassifyAction(a)), Urgency(ClassifyAction(b));
    var p, q := Rank(a.reversibility), Rank(b.reversibility);
    assert 0 <= p <= 3 && 0 <= q <= 3;
    if x > y {
      assert x * 10 >= y * 10 + 10;
    } else if y > x {
      assert y * 10 >= x * 10 + 10;
    }
  }

  // ------------------------------------------------------------------
  // Audit events
  // ------------------------------------------------------------------

  datatype Event =
    | RootMinted(jti: Jti, scopes: set<Scope>, ttl: int, maxDepth: int)
    | Delegated(jti: Jti, parentJti: Jti, rootJti: Jti, scopes: set<Scope>, depth: int, exp: Time)
    | ApprovalGranted(jti: Jti, parentJti: Jti, rootJti: Jti, scopes: set<Scope>, depth: int,
                      approvalId: string, approver: string)
    | RevokedTree(jti: Jti, targets: seq<Jti>, actionsReviewed: nat, reviewsQueued: seq<string>)
    | EscalationDenied(parentJti: Jti, scopes: set<Scope>, deniedScopes: set<Scope>, depth: int)
    | DepthLimitExceeded(parentJti: Jti, scopes: set<Scope>, depth: int)
    | AnomalyFlagged(parentJti: Jti, scopes: set<Scope>)
    | ApprovalPending(approvalId: string, parentJti: Jti, scopes: set<Scope>, depth: int)
    | ApprovalRejected(approvalId: string, parentJti: Jti, approver: string)
    | ApprovalDenied(approvalId: string, parentJti: Jti, scopes: set<Scope>, approver: string)
    | ApprovalExpired(approvalId: string, parentJti: Jti, scopes: set<Scope>)
    | VerifyDenied(holder: Option<Jti>, requiredScope: Scope, reason: string)
    | VerifyAllowed(jti: Jti, requiredScope: Scope)
    | ActionStarted(actionId: string, jti: Jti, scope: Scope, reversibility: Reversibility)
    | ActionClosed(actionId: string, jti: Jti, state: Completion)
    | ReviewQueued(reviewId: string, actionId: string, jti: Jti, completion: Completion, priority: int)
    | ReviewResolved(reviewId: string, actionId: string, reviewedBy: string)
    | BreakerOpened(trip: Trip)
    | BreakerReset(wasOpen: bool)
}
