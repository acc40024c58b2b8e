# Verification of the capability authority

A Dafny model of `agperms`, a library that mints capability tokens for agents, lets agents delegate
narrower tokens to other agents, gates sensitive scopes behind a human, revokes whole subtrees of
delegations, and records everything in a hash-chained audit log; and of the three components of
`checkpoint_service` with the most delicate state: the buffered audit writer, the revocation cache
and the guardrails.

`dafny verify dfyconfig.toml` checks the project.

| file | what it holds |
|---|---|
| `Walk.dfy` | the breadth-first subtree walk: specification, meaning, and the loops of both back ends |
| `Tokens.dfy`, `Lineage.dfy` | claims and records; the token map as a forest, narrowing at every distance |
| `Records.dfy`, `Storage.dfy` | approvals, actions, reviews, events; the store and its operations on values |
| `Authority.dfy` | the firewall as one state and one function per operation, and runs of them |
| `AuthorityInvariant.dfy` | the invariant that every operation keeps |
| `AuthorityTheorems.dfy`, `AuthorityOutcomes.dfy`, `AuthorityHistory.dfy` | what follows: in every reachable state, for single calls, over whole runs |
| `AuthorityLifetimes.dfy`, `AuthorityActions.dfy` | what mints, requests, approvals and actions take from their callers, and what a later call makes of it |
| `AuthorityBudgets.dfy`, `AuthorityAdmission.dfy`, `AuthorityTrips.dfy` | the rate limits, the success of calls and the breaker, told by the calls of a run |
| `AuthorityTrail.dfy` | the audit log as the story of a run's outcomes |
| `Firewall.dfy` | the classes `MemoryStorage`, `AuditLog` and `Firewall`, updated in place, each method proved equal to its function |
| `Interleaving.dfy` | the same operations cut into single storage calls, in any interleaving |
| `InterleavedRevocation.dfy` | when a revoke takes in the whole subtree although mints are in flight |
| `InterleavedApprovals.dfy`, `InterleavedDecisions.dfy` | one token per request, although approvals, denials, timeouts and collects overlap |
| `InterleavedFinality.dfy`, `InterleavedExamples.dfy` | when a decision stays; runs from the empty store that break the promises about requests |
| `InterleavedAlone.dfy`, `InterleavedReviewsAlone.dfy` | calls of the two concurrent machines that run alone do what the one-step operations do |
| `InterleavedLog.dfy` | the audit log against the store while calls are in flight |
| `InterleavedReviews.dfy` | which actions of a revoked token escape review, and when one gets two reviews |
| `AuditReplay.dfy`, `AuthorityBreaker.dfy` | rebuilding the store from the log; the breaker as the log tells it |
| `AuditChain.dfy`, `AuditWriters.dfy`, `BufferedAudit.dfy` | tamper evidence; several writers over one store; the buffered writer |
| `Guardrails.dfy`, `RevocationCache.dfy`, `Risk.dfy` | sliding window and breaker; cache and sentinel; Herfindahl concentration |

## How to read it

*Sequential and concurrent.* `Authority` treats a call as one step, as its callers see it. Since
`Firewall` holds no lock while every storage method holds one, `Interleaving` and the modules after it
prove the safety results again where each storage call is a step of its own. A call of theirs that runs
alone does exactly what the operation of `Authority` does (`DelegateAlone`, `ApproveAlone`, `RevokeAlone`).

*Signatures.* Signing is ideal: a token decodes exactly if this firewall signed its claims.

*Hashing.* SHA-256 is an arbitrary function to 64-character strings. Nothing assumes that it is
injective; where the argument would need it, the result says "or these two rows collide".

*Time.* A call reads the clock once, in whole seconds. The code's test is `exp < now`, so a token is
still live at `now == exp`. Section 4.1.4 of RFC 7519 says "on or after"; the model follows the code.
The clock may run backwards between calls, except where a window needs it not to.

*Collecting.* `collect` is documented to mark an approval as collected. The record has slots, so the
`__dict__` test at agperms/src/agperms/firewall.py:873-878 fails and the record is written back as it
was loaded. The model follows the code: in calls that do not overlap collecting changes nothing and may
be repeated, and in the concurrent machine a collect is a load and a later write of what it loaded.

*Properties that fail, and exactly when.* Six promises of the sequential library do not survive
overlapping calls. For each there is the exact condition and a continuation that breaks it.

- *One chain, several writers.* The chain is intact if and only if nobody appended between a writer's
  last read of the tail, or append, and its next append (`IntactIffNeverOvertaken`); two fresh instances
  that read the empty tail together fork it (`FreshInstancesFork`).
- *A revoke takes in the subtree.* Once the revoked jti is recorded, its whole subtree is and stays
  revoked if and only if every stored token in it is and no thread is armed to store another
  (`StaysRevokedBelowIff`). For a whole revoke: it is enough that, from walk to record, no mint below is
  at its storage calls, and that at the record no delegate below is between its lookups
  (`RevokeTakesTheSubtree`); a mint below that is at its storage calls when the walk is taken can be
  missed (`UnquietRevokeMisses`, `WalkMissesALateMint`). `verify` refuses a missed token all the same
  (`RefusedUnderInterleaving`).
- *One token per request, exactly when approved.* It holds over every run in which no live approve
  overlaps another approve, deny or timeout of the request (`OneTokenPerRequest`), and every state with
  such an overlap has a continuation that breaks it (`OverlapCanBreak`); it can end with a token for a
  denied request and nobody left in flight (`TokenForDenied`).
- *A decision is final.* It is, in every continuation, if and only if no other decision on the request
  is in flight and no collect that loaded another record of it (`DecisionStaysIff`). A collect alone can
  revive a denied request (`DecisionRevived`).
- *Every action of a revoked token is accounted for, once.* An action that no revoke still holds lacks a
  review if and only if it was stored after the last gathering that covered its token
  (`UnreviewedIffLate`, `OpeningCanEscape`). It never gets two reviews unless two revokes have both
  listed the reviews and both still have to store one for it (`OneReviewWhenUncontended`,
  `ContentionCanDouble`); revokes that do not overlap in that stretch never do
  (`OneReviewWhenRevokesAreApart`), and such a state arises (`ActionReviewedTwice`).
- *A review is resolved once.* It is while no two resolutions have both loaded it unresolved, and
  otherwise may not be (`ResolvedOnceWithoutRivals`, `RivalsCanResolveTwice`).

## Model

| member | source | states |
|---|---|---|
| Walk.DescendantsMeaning | agperms/src/agperms/storage/protocol.py:80-89 | On any finite graph, cycles included, and for any order of siblings: root first, every reachable node once, nothing else, never a node before a strictly nearer one |
| Walk.BackEndsAgree | agperms/src/agperms/storage/sql.py:340-352 | Two back ends over one graph return the same jtis, each once, whatever order their queries give |
| Walk.WalkWithQueue | agperms/src/agperms/storage/memory.py:92-105 | The in-memory queue loop terminates and returns the specified walk |
| Walk.WalkWithLevels | agperms/src/agperms/storage/sql.py:340-352 | The SQL level loop terminates and returns the specified walk, for any order of children within a level |
| Lineage.Ancestor | agperms/src/agperms/_tokens.py:73-106 | Each entry of a signed chain names a stored token, its own chain is the part before it, and everything was narrowed in between |
| Lineage.RootOf | agperms/src/agperms/_tokens.py:73-106 | Every token hangs below a stored depth-0 root, shares its ceiling and expires no later |
| Lineage.ChainIsSimple | agperms/src/agperms/firewall.py:910-935 | No chain repeats a jti or contains its own token |
| Lineage.WalkIsSubtreeIff | agperms/src/agperms/storage/memory.py:92-105 | The edge walk equals the subtree that the signed chains describe if and only if no edge below its start is missing |
| Lineage.AncestorsRedundant | agperms/src/agperms/firewall.py:407-413 | With a revoked set closed under edges, a revoked ancestor implies a revoked token |
| Lineage.SubtreeKeepsClosed | agperms/src/agperms/firewall.py:587-599 | Revoking a whole subtree keeps the revoked set closed |
| AuthorityTheorems.NarrowAtEveryDistance | agperms/src/agperms/firewall.py:224-336 | For every reachable token and every ancestor, by either mint path: scopes a subset, expiry no later, same root and ceiling, smaller depth |
| AuthorityTheorems.BoundedByRoot | agperms/src/agperms/firewall.py:173-176 | Depth is chain length and within the ceiling; no token outlives its root's `iat` plus `max_ttl_seconds` |
| AuthorityTheorems.RecordsRebuildSignedClaims | agperms/src/agperms/firewall.py:1040-1086 | The claims rebuilt from durable records are exactly the claims that were signed |
| AuthorityTheorems.EdgeWalkIsSubtree | agperms/src/agperms/firewall.py:587-599 | In every reachable state the walk from j is j plus the tokens whose signed chain contains j |
| AuthorityTheorems.AncestorLookupsAgree | agperms/src/agperms/firewall.py:407-413 | The ancestor loop gives the same answer as looking up the token's own jti |
| AuthorityTheorems.VerifySucceedsIff | agperms/src/agperms/firewall.py:340-433 | In every reachable state, whatever the clock did before: the exact condition under which a check succeeds, without ancestors or the root; what its budget condition means is `AuthorityAdmission.AcceptedIff` |
| AuthorityTheorems.LiveImpliesRootAlive | agperms/src/agperms/firewall.py:1001-1028 | A token that decodes live always passes the separate root check |
| AuthorityTheorems.DelegateMintsIff | agperms/src/agperms/firewall.py:204-336 | In every reachable state, whatever the clock did before: the exact condition under which `delegate` mints; what its budget condition means is `AuthorityAdmission.GrantedIff` |
| AuthorityTheorems.DelegateMints | agperms/src/agperms/firewall.py:308-336 | What it mints: a well-formed hop below the presented token, recorded, linked, signed, with the requested scopes and subject; it ends at the requested time (the default if 0) or with the presented token, whichever comes first |
| AuthorityTheorems.ApproveMeetsDelegateChecks | agperms/src/agperms/firewall.py:771-839 | `approve` checks only the parent's revocation and expiry, yet a mint by it meets every check of `delegate` at that moment |
| AuthorityTheorems.ApproveMintsIff | agperms/src/agperms/firewall.py:771-839 | The exact condition under which `approve` mints |
| AuthorityTheorems.SensitiveMeansApproved | agperms/src/agperms/firewall.py:292-306 | A non-root token holds a sensitive scope exactly if it is marked approved, has a named approver, and answers a parked request |
| AuthorityTheorems.OneTokenPerApproval | agperms/src/agperms/firewall.py:771-859 | A request has a token exactly when approved, then exactly one, shared with no other request |
| AuthorityTheorems.CollectReturnsTheToken | agperms/src/agperms/firewall.py:861-879 | `collect` hands out exactly the claims of the token minted for the request, waits exactly while it is pending, and says of a denied or expired one which it is |
| AuthorityTheorems.RevokedActionsAreAccountedFor | agperms/src/agperms/firewall.py:592-675 | Every action of a revoked token is closed clean or under review; no review is of a clean state; no action has two |
| AuthorityTheorems.RevokeQueuesExactly | agperms/src/agperms/firewall.py:627-678 | A revoke queues a review for exactly the unreviewed, not-clean actions below the revoked token |
| AuthorityTheorems.RepeatRevokeQueuesNothing | agperms/src/agperms/firewall.py:627-678 | Revoking again changes no record and queues nothing |
| AuthorityTheorems.LogRebuildsStore | agperms/src/agperms/firewall.py:188-201 | Replaying the log from genesis rebuilds token map, edge set and revoked set, after every run |
| AuthorityTheorems.OnlyVolumeOpensBreaker | agperms/src/agperms/_guardrails.py:209-260 | With policy denials uncounted, only the volume ceiling can open the breaker |
| AuthorityOutcomes.RefusalReasons | agperms/src/agperms/firewall.py:396-423 | The exact reason of each refusal of a signed token, in the order of precedence, the closed store included |
| AuthorityOutcomes.DenyIff | agperms/src/agperms/firewall.py:842-859 | A denial succeeds exactly while the request is pending in time, names its approver, touches no other request, and is what collecting then reports |
| AuthorityOutcomes.ResolveOnce | agperms/src/agperms/firewall.py:717-769 | A review is resolved exactly with a note and once, in the name of its reviewer; a second resolution is an error and changes nothing |
| AuthorityOutcomes.RevokeRevokesExactly | agperms/src/agperms/firewall.py:579-625 | A revoke adds exactly the subtree to the revoked set, keeps earlier revocations, and touches only the review queue besides |
| AuthorityOutcomes.SweepLeavesNoneStale | agperms/src/agperms/firewall.py:885-908 | A sweep expires exactly the requests past their deadline, with one log row each, and leaves none |
| AuthorityAdmission.AcceptedIff | agperms/src/agperms/firewall.py:340-433 | In every run with a clock that never goes back: a check passes exactly for a signed, unexpired, unrevoked token that holds the scope, whose subject made at most the verify limit of such checks in the last 60 seconds, this one included |
| AuthorityAdmission.GrantedIff | agperms/src/agperms/firewall.py:204-336 | Likewise when a delegation is granted, with the delegate limit; it is parked exactly if something sensitive is asked for |
| AuthorityAdmission.OpenedIff | agperms/src/agperms/firewall.py:447-490 | Likewise when an action opens, with the verify limit and the action limit |
| AuthorityBudgets.VerifyRateLimited | agperms/src/agperms/_guardrails.py:145-160 | A check of a signed token raises for its rate exactly if the subject's checks of the last 60 seconds exceed the verify limit; delegations, openings and other subjects do not count |
| AuthorityBudgets.DelegateRateLimited | agperms/src/agperms/_guardrails.py:145-160 | Likewise for a delegation by a live token, counting delegations against the delegate limit |
| AuthorityBudgets.OpeningRateLimited | agperms/src/agperms/_guardrails.py:145-160 | Likewise for opening an action, which uses a check and, once that passed, an opening |
| AuthorityLifetimes.RootMintsIff | agperms/src/agperms/firewall.py:156-202 | A root is minted exactly for non-empty scopes and a ceiling not below 0, with the scopes, subject and ceiling asked for, and ends at the time asked for or at the configured maximum, whichever comes first |
| AuthorityLifetimes.RootIsAccepted | agperms/src/agperms/firewall.py:156-202 | After any run it is accepted, while unrevoked and within budget, exactly for the scopes asked for and until that end |
| AuthorityLifetimes.ParkingRecords | agperms/src/agperms/firewall.py:1088-1133 | A parked record asks for exactly the scopes, subject and ttl of the request, and waits for the configured time or until the parent ends, whichever comes first |
| AuthorityLifetimes.DelegateParksIff | agperms/src/agperms/firewall.py:204-306 | The exact condition under which `delegate` parks |
| AuthorityLifetimes.ApproveMintsTheRequest | agperms/src/agperms/firewall.py:771-839 | An approved token has the subject and exactly the scopes of its record, and ends after the record's ttl or with the parent |
| AuthorityLifetimes.ParkedThenApproved | agperms/src/agperms/firewall.py:771-839 | From the delegate call to the approve call, whatever ran in between: the token is what the delegate call asked for, its ttl counted from the approval |
| AuthorityActions.OpeningRecords | agperms/src/agperms/firewall.py:478-498 | An opened action is stored under the presented token and its subject, as described, unfinished; no other action is touched |
| AuthorityActions.OpenedThenRevoked | agperms/src/agperms/firewall.py:587-675 | A revoke of the presented token then queues a review for it, as unknown |
| AuthorityActions.ClosingRecords | agperms/src/agperms/firewall.py:524-577 | Closing stores the end and clean exactly if it ended without an exception, else partial, and changes nothing else |
| AuthorityActions.ClosedThenRevoked | agperms/src/agperms/firewall.py:587-675 | A revoke of its token then queues a review for it, as partial, exactly if it did not end cleanly and has none |
| AuthorityActions.QueuedReviewIs | agperms/src/agperms/firewall.py:627-678 | A queued review names the action, its token, the revoked root and the time, and is unresolved |
| AuthorityOutcomes.UnsignedReasons | agperms/src/agperms/firewall.py:351-377 | Without a signature a check is refused, for a reason that depends only on what was presented, and spends nobody's budget |
| AuthorityOutcomes.DelegateNeedsLiveToken | agperms/src/agperms/firewall.py:1001-1014 | The error of each delegate call whose token is not live, in the order of precedence |
| AuthorityOutcomes.DelegateRefusals | agperms/src/agperms/firewall.py:224-290 | A request by a live token within its budget is refused exactly for scopes that it does not hold, which the error names, and otherwise at the depth ceiling; a refusal stores nothing |
| AuthorityOutcomes.ApproveRefusals | agperms/src/agperms/firewall.py:771-839 | How every other approve call ends, and what it leaves of the request; nothing else changes |
| AuthorityTrips.FirewallTripsExactly | agperms/src/agperms/_guardrails.py:209-260 | In every run with a clock that never goes back: a call that tells a closed breaker its outcome opens it for the error rate exactly if enough was told within the window and the share of errors reaches the threshold; else for volume exactly above the ceiling; else not |
| AuthorityTrips.BreakerIsTold | agperms/src/agperms/firewall.py:363-433 | The firewall tells the breaker exactly the outcomes of its checks and grants, without the exempt, and denials only if they are counted |
| AuthorityTrips.OnlyOutcomesTrip | agperms/src/agperms/_guardrails.py:225-260 | Other calls leave the breaker, an open one stays as it is, and a reset closes and empties it |
| AuthorityTrail.LogIsTheStory | agperms/src/agperms/firewall.py:363-433 | After every run the audit log, without the breaker's rows, is the concatenation of what the outcome of each call says, field by field |
| AuthorityTrail.AllowedRowIff | agperms/src/agperms/firewall.py:418-433 | So a row says that a token was accepted for a scope exactly if a check of the run accepted it for that scope |
| AuthorityInvariant.StepKeeps | agperms/src/agperms/firewall.py:106-1178 | Every legal call of the authority keeps the whole invariant |
| AuthorityInvariant.RunKeeps | agperms/src/agperms/firewall.py:106-1178 | So does every run of calls |
| AuthorityInvariant.ApproveKeeps | agperms/src/agperms/firewall.py:771-839 | Minting for a request keeps the forest, the signatures, the gate and one child per request |
| AuthorityInvariant.RevokeKeeps | agperms/src/agperms/firewall.py:579-678 | A revoke keeps the revoked set closed and the review queue complete and free of duplicates |
| AuthorityHistory.RunKept | agperms/src/agperms/firewall.py:106-1178 | Tokens, revocations, decisions, endings, resolutions and log rows survive every run unchanged |
| AuthorityHistory.RevokedForever | agperms/src/agperms/firewall.py:407-413 | Once j is revoked, no later check ever accepts j or a token below it |
| AuthorityHistory.DecidedIsFinal | agperms/src/agperms/firewall.py:1135-1178 | A decided request never changes again |
| AuthorityHistory.ClosedFailsClosed | agperms/src/agperms/storage/memory.py:110-116 | After the store is closed no `verify`, `delegate`, `approve` or opening of an action succeeds, whatever follows |
| AuthorityOutcomes.ClosingAffectsOnlyLookups | agperms/src/agperms/storage/memory.py:110-116 | Every other call has the outcome and the effect that it has on an open store: root mints, denials, sweeps, resolutions, closings and revokes go on |
| FirewallClasses.MemoryStorage.AddToken | agperms/src/agperms/storage/memory.py:65-69 | Stores a new record and reports a duplicate without overwriting |
| FirewallClasses.MemoryStorage.AddEdgeRow | agperms/src/agperms/storage/memory.py:79-83 | Adds the edge once and leaves everything else |
| FirewallClasses.MemoryStorage.DescendantsBreadthFirst | agperms/src/agperms/storage/memory.py:92-105 | Returns the specified walk of the current edges |
| FirewallClasses.MemoryStorage.RevokeAll | agperms/src/agperms/storage/memory.py:122-142 | Records each target once, keeps earlier records, returns the new ones in order |
| FirewallClasses.MemoryStorage.AddAction | agperms/src/agperms/storage/memory.py:246-251 | Stores a new action and its index entry, or reports a duplicate |
| FirewallClasses.MemoryStorage.EndAction | agperms/src/agperms/storage/memory.py:253-279 | Sets ending time and state of a known action |
| FirewallClasses.MemoryStorage.ListForReview | agperms/src/agperms/storage/memory.py:285-297 | Collects the questionable actions of the given jtis, oldest first |
| Storage.CandidatesMeaning | agperms/src/agperms/storage/memory.py:285-297 | That list holds each action of the given jtis not known clean exactly once, sorted by start |
| Storage.SortIsSorted | agperms/src/agperms/storage/memory.py:285-297 | The sort is an ordered permutation |
| FirewallClasses.AuditLog.LogBatch | agperms/src/agperms/_audit.py:123-147 | Appends the batch chained to the cached tail; over a sound log the log stays intact and gains exactly these events |
| FirewallClasses.AuditLog.Verify | agperms/src/agperms/_audit.py:150-187 | Intact exactly if the chain is, else the first row that does not check out |
| FirewallClasses.Firewall.constructor | agperms/src/agperms/firewall.py:120-150 | A new firewall is the initial state and meets the invariant |
| FirewallClasses.Firewall.MintRootCapability | agperms/src/agperms/firewall.py:156-202 | Refines `Authority.MintRootToken` (`RootMintsIff`), keeps the invariant |
| FirewallClasses.Firewall.DelegateCapability | agperms/src/agperms/firewall.py:204-338 | Refines `Authority.Delegate` (`GrantedIff`, `DelegateMints`, `ParkingRecords`), keeps the invariant |
| FirewallClasses.Firewall.VerifyToken | agperms/src/agperms/firewall.py:340-433 | Refines `Authority.Verify` (`AcceptedIff`, `RefusalReasons`), keeps the invariant |
| FirewallClasses.Firewall.StartAction | agperms/src/agperms/firewall.py:447-537 | Refines `Authority.OpenAction` (`OpenedIff`, `OpeningRecords`), keeps the invariant |
| FirewallClasses.Firewall.FinishAction | agperms/src/agperms/firewall.py:539-577 | Refines `Authority.CloseAction` (`ClosingRecords`), keeps the invariant |
| FirewallClasses.Firewall.RevokeCapability | agperms/src/agperms/firewall.py:579-625 | Refines `Authority.Revoke`, keeps the invariant |
| FirewallClasses.Firewall.QueueAll | agperms/src/agperms/firewall.py:627-678 | The queueing loop refines `Authority.QueueReviews` |
| FirewallClasses.Firewall.Resolve | agperms/src/agperms/firewall.py:717-769 | Refines `Authority.ResolveReview`, keeps the invariant |
| FirewallClasses.Firewall.ApproveRequest | agperms/src/agperms/firewall.py:771-840 | Refines `Authority.Approve` (`ApproveMintsIff`, `ApproveMintsTheRequest`, `ApproveRefusals`), keeps the invariant |
| FirewallClasses.Firewall.DenyRequest | agperms/src/agperms/firewall.py:842-859 | Refines `Authority.Deny`, keeps the invariant |
| FirewallClasses.Firewall.CollectApproved | agperms/src/agperms/firewall.py:861-879 | Refines `Authority.Collect`, changes nothing |
| FirewallClasses.Firewall.ExpireStaleApprovals | agperms/src/agperms/firewall.py:885-908 | Refines `Authority.ExpireStale`; the count is the number of log rows written |
| FirewallClasses.Firewall.Chain | agperms/src/agperms/firewall.py:910-954 | For every stored token: the signed ancestors in order and then the token, with the signed subjects and scopes, at depths 0 to n; the cycle guard never cuts it short |
| FirewallClasses.Firewall.VerifyAuditIntegrity | agperms/src/agperms/firewall.py:956-958 | However the firewall was used, its own log verifies, every row checked |
| Records.PriorityIsLexicographic | agperms/src/agperms/firewall.py:1207-1223 | Unknown before partial before clean; within that irreversible before compensable before reversible before idempotent |
| Interleaving.StepKeepsSystem | agperms/src/agperms/storage/memory.py:47-49 | Every storage call, in any interleaving, keeps the concurrent invariant |
| Interleaving.NarrowUnderInterleaving | agperms/src/agperms/firewall.py:224-333 | Narrowing at every distance holds under every interleaving |
| Interleaving.RefusedUnderInterleaving | agperms/src/agperms/firewall.py:407-413 | Once j is recorded as revoked, no check begun later accepts a token with j in its chain, even one minted later by an operation already past its lookups |
| Interleaving.RefusalIsJustified | agperms/src/agperms/firewall.py:407-423 | A refusal as revoked has a revoked token on the path; a refusal for scope lacks the scope |
| Interleaving.DelegateStopsAtOnce | agperms/src/agperms/firewall.py:1001-1014 | A `delegate` begun after j was recorded never mints below j, an `approve` never directly below it |
| Interleaving.WalkIsCompleteIff | agperms/src/agperms/firewall.py:315-316 | At any moment the walk from j is the stored subtree if and only if no mint below j has stored its record and not yet its edge |
| InterleavedAlone.VerifyAlone | agperms/src/agperms/firewall.py:396-433 | The lookups of a check that runs alone answer as `verify` does, with the same reason |
| InterleavedAlone.DelegateAlone | agperms/src/agperms/firewall.py:204-336 | The storage calls of a delegate call that runs alone leave the store that `delegate` leaves, and write the row of what it minted |
| InterleavedAlone.RootCheckAlone | agperms/src/agperms/firewall.py:1016-1028 | In any state: a delegate call goes on from its root lookups exactly if the root is stored, a root, unexpired and unrevoked, and then grants as the operation does |
| InterleavedAlone.ApproveAlone | agperms/src/agperms/firewall.py:771-839 | Likewise for `approve`, minted, rejected or expired |
| InterleavedAlone.RevokeAlone | agperms/src/agperms/firewall.py:587-625 | Likewise for the revocations of `revoke` |
| InterleavedReviewsAlone.RevokeAlone | agperms/src/agperms/firewall.py:587-678 | Likewise for its reviews: the same ones, under the ids that the calls took |
| InterleavedReviewsAlone.OpenAlone | agperms/src/agperms/firewall.py:478-498 | Accepting and storing an action, with no call in between, stores what opening it stores |
| InterleavedRevocation.StaysRevokedBelowIff | agperms/src/agperms/firewall.py:587-599 | Once j is recorded, its subtree is and stays revoked in every continuation if and only if every stored token in it is revoked and no mint or delegate below it is still able to store an unrevoked one |
| InterleavedRevocation.RevokeTakesTheSubtree | agperms/src/agperms/firewall.py:587-599 | A whole revoke takes in the subtree for good if no mint below is at its storage calls from walk to record and no delegate below is between its lookups at the record; approvals in flight do no harm |
| InterleavedRevocation.UnquietRevokeMisses | agperms/src/agperms/firewall.py:315-316 | A mint below j that is about to store its token or its edge when the revoke walks can end stored and unrevoked below the revoked j |
| InterleavedRevocation.WalkMissesALateMint | agperms/src/agperms/firewall.py:587-599 | Such a state does arise, from the empty store |
| InterleavedLog.LogNeverLies | agperms/src/agperms/firewall.py:188-201 | In every interleaving each token, edge and revocation that the log tells of is stored as told |
| InterleavedLog.SettledLogRebuildsStore | agperms/src/agperms/firewall.py:188-201 | Whenever no call in flight owes a row, replaying the log rebuilds token map, edge set and revoked set exactly, however calls and rows interleaved |
| InterleavedApprovals.StepKeepsApprovals | agperms/src/agperms/firewall.py:1088-1178 | In every interleaving requests keep what they ask for, approved records name a token stored for them, and every token granted for a request is what it asked for |
| InterleavedDecisions.OneTokenPerRequest | agperms/src/agperms/firewall.py:771-859 | While no live approve overlaps another decision on the request: at most one token, one exactly if it is approved or about to be so written, and the record names it and its approver |
| InterleavedDecisions.SerialRunsNeverBreak | agperms/src/agperms/firewall.py:771-859 | Without such an overlap there are never two tokens for a request, nor one for a refused request |
| InterleavedDecisions.OverlapCanBreak | agperms/src/agperms/firewall.py:771-859 | From every state with such an overlap a continuation ends with two tokens, or with a token for a refused request |
| InterleavedDecisions.OverlappingApprovalsMintTwice | agperms/src/agperms/firewall.py:771-839 | Two approvals that load a request pending in time under an unrevoked parent can store two tokens for it |
| InterleavedFinality.DecisionStaysIff | agperms/src/agperms/firewall.py:861-879 | A decided record stays as it is in every continuation if and only if no other decision on it, and no collect of another record of it, is in flight |
| InterleavedFinality.DecidedIsFinalWhenAlone | agperms/src/agperms/firewall.py:1135-1178 | If no two decisions on a request were ever in flight together, a decided one is final, whatever collects are in flight |
| InterleavedExamples.DecisionRevived | agperms/src/agperms/firewall.py:861-879 | From the empty store: a denied request with no decision in flight, which a collect that loaded it as approved makes approved again |
| InterleavedExamples.TokenForDenied | agperms/src/agperms/firewall.py:771-859 | From the empty store: a token minted for a request that is denied, with nobody left in flight on it |
| InterleavedReviews.UnreviewedIffLate | agperms/src/agperms/firewall.py:478-498 | An action of a revoked token that may not have ended cleanly, and that no revoke in progress holds, lacks a review if and only if it was stored after the last gathering that covered its token |
| InterleavedReviews.OpeningCanEscape | agperms/src/agperms/firewall.py:478-498 | Between the check of an action and its record a revoke of its token can gather and record, and the action then runs without a review |
| InterleavedReviews.OneReviewWhenUncontended | agperms/src/agperms/firewall.py:635-675 | No action gets two reviews while no two revokes are about to review it at once |
| InterleavedReviews.OneReviewWhenRevokesAreApart | agperms/src/agperms/firewall.py:635-675 | So no action gets two reviews while no two revokes that cover its token overlap between listing the reviews and storing their last one |
| InterleavedReviews.ActionReviewedTwice | agperms/src/agperms/firewall.py:635-675 | From the empty store: two overlapping revokes about to review one action, and its two reviews |
| InterleavedReviews.ResolvedOnceWithoutRivals | agperms/src/agperms/firewall.py:717-769 | A review is resolved at most once, and has been exactly if it says so, while no two resolutions have both loaded it unresolved |
| InterleavedReviews.RivalsCanResolveTwice | agperms/src/agperms/firewall.py:717-769 | From every state in which two have, a continuation resolves it twice |
| InterleavedReviews.ContentionCanDouble | agperms/src/agperms/firewall.py:635-675 | From every state in which two are, a continuation gives the action two reviews |
| AuditChain.VerifyIntegrity | agperms/src/agperms/_audit.py:150-187 | Intact if and only if every row links and seals; otherwise the first that does not, with the right finding |
| AuditChain.AppendIntact | agperms/src/agperms/_audit.py:123-147 | A batch keeps the chain intact exactly if the chain was intact and the batch starts from its tail |
| AuditChain.ExtendChain | agperms/src/agperms/_audit.py:123-147 | The chaining loop writes the specified rows and leaves their last hash as tail |
| AuditChain.TailCommits | agperms/src/agperms/_audit.py:65-68 | Two intact logs of one length and one tail hash agree on all hashed content, or a collision is exhibited |
| AuditChain.EditIsLocalised | agperms/src/agperms/_audit.py:150-187 | Rewriting one row but the last breaks the chain at that row or the next, or is a collision |
| AuditChain.DeletionIsLocalised | agperms/src/agperms/_audit.py:150-187 | Deleting a row but the last is caught where it was |
| AuditChain.SwapIsLocalised | agperms/src/agperms/_audit.py:150-187 | Swapping neighbours is caught at the first of them |
| AuditChain.TruncationUnseen | agperms/src/agperms/_audit.py:150-187 | Cutting rows off the end is not detectable by the walk |
| AuditWriters.IntactIffOnTheTail | agperms/src/agperms/_audit.py:123-147 | With several writers whose reads and appends interleave, the chain is intact if and only if every batch was chained to the hash that was the store's tail when it was appended |
| AuditWriters.IntactIffNeverOvertaken | agperms/tests/test_storage_conformance.py:293-318 | Barring collisions, that is exactly: nobody appended between a writer's last read or append and its next append |
| AuditWriters.BreakIsPermanent | agperms/src/agperms/_audit.py:150-187 | No later append repairs a break |
| AuditWriters.SingleWriterIntact | agperms/src/agperms/_audit.py:110-147 | One writer is always intact, and its cached tail is the store's |
| AuditWriters.TakingTurnsForks | agperms/tests/test_storage_conformance.py:293-318 | Any append between a writer's read or append and its next append forks the chain |
| AuditWriters.FreshInstancesFork | agperms/src/agperms/_audit.py:127-130 | Two fresh instances that both read the empty tail before either appends fork the chain |
| BufferedAudit.Conservation | checkpoint_service/engine/audit_logger.py:190-241 | Under every interleaving each logged event is in exactly one of buffer, in-flight batch or table |
| BufferedAudit.AlwaysIntact | checkpoint_service/engine/audit_logger.py:214-241 | The table always verifies and the cached tail is never stale |
| BufferedAudit.SyncIsDurable | checkpoint_service/engine/audit_logger.py:190-202 | A synchronous event is in the table by the time its call returns, whatever other threads do |
| BufferedAudit.FlushIsDurable | checkpoint_service/engine/audit_logger.py:204-212 | What was buffered when a flush began is in the table by the time it returns, whatever other threads do |
| BufferedAudit.AuditLogger.Flush | checkpoint_service/engine/audit_logger.py:204-212 | The table gains exactly the buffer, in order |
| BufferedAudit.AuditLogger.Log | checkpoint_service/engine/audit_logger.py:190-202 | The event is in the table on return unless bufferable, and nothing is lost or reordered |
| Guardrails.BucketIsRecent | agperms/src/agperms/_guardrails.py:55-63 | For a non-decreasing clock the deque is the history cut to the closed window |
| Guardrails.AdmittedIff | agperms/src/agperms/_guardrails.py:152-160 | Of one bucket: a call is refused exactly when the attempts of its last 60 seconds, refused ones included, exceed the limit; `AuthorityBudgets` has which calls of the firewall use which bucket and which limit |
| Guardrails.NoBurst | agperms/src/agperms/_guardrails.py:152-160 | No 60-second window ever admits more than the limit |
| Guardrails.LocalWindowCache.HitKey | agperms/src/agperms/_guardrails.py:55-63 | The eviction loop and append refine `Hit` |
| Guardrails.LocalWindowCache.Count | agperms/src/agperms/_guardrails.py:65-71 | Counts the hits still in the window |
| Guardrails.BreakerWindow | agperms/src/agperms/_guardrails.py:209-260 | The deque is the history since the last reset, cut to the window |
| Guardrails.OpenIffLastRow | agperms/src/agperms/_guardrails.py:209-301 | The breaker is open exactly when the last row about it says so |
| AuthorityBreaker.LogTellsTheBreaker | agperms/src/agperms/firewall.py:970-984 | In every reachable state the breaker is open exactly if the last audit row about it says so, and between two `circuit_opened` rows of the log there is a `circuit_reset` row |
| Guardrails.OpenLatches | agperms/src/agperms/_guardrails.py:225-260 | An open breaker keeps its reason and time through any outcomes until a reset |
| Guardrails.OnlyVolumeTrips | agperms/src/agperms/_guardrails.py:225-260 | Without errors only volume trips it, exactly above the ceiling |
| Guardrails.TripsExactly | agperms/src/agperms/_guardrails.py:225-260 | A closed breaker trips for the error rate exactly if the outcomes since the last reset that lie in the window number at least `min_samples` and the erroneous ones at least the threshold's share of them; for volume exactly if not and they exceed the ceiling; otherwise not |
| Guardrails.CircuitBreaker.Record | agperms/src/agperms/_guardrails.py:209-268 | The eviction and counting loops refine `RecordOutcome`, of which `TripsExactly` says when it trips, and report the trip |
| RevocationCache.AlwaysFaithful | checkpoint_service/engine/revocation.py:143-223 | Over any run of revokes, flushes, faults, rebuilds and restarts: up and vouched for implies mirror equals database |
| RevocationCache.LookupRefinesDatabase | checkpoint_service/engine/revocation.py:143-169 | A lookup with a session always answers like the database; without one it answers like the database or refuses |
| RevocationCache.RebuildAnswers | checkpoint_service/engine/revocation.py:143-223 | Whatever happened before, after a rebuild or restart that works, lookups without a session answer, like the database, until Redis is flushed or one of its calls fails |
| RevocationCache.RevokeRecordsSubtree | checkpoint_service/engine/revocation.py:77-141 | A revoke records exactly the reachable jtis, in the database and if it can in the mirror |
| RevocationCache.RowsAreKept | checkpoint_service/engine/revocation.py:77-112 | A revocation row is never dropped and keeps its root |
| RevocationCache.SentinelIsNeeded | checkpoint_service/engine/revocation.py:143-169 | After any run a further one leaves the client up and the mirror without a revoked jti, with the sentinel missing: being up is not enough to believe the mirror |
| RevocationCache.RevocationStore.RevokeTree | checkpoint_service/engine/revocation.py:77-141 | The level walk, row loop and mirror write refine `RevokeSubtree` |
| RevocationCache.RevocationStore.LookUp | checkpoint_service/engine/revocation.py:143-169 | Refines `IsRevoked`; from a faithful state, with a session, the answer is the database's |
| Risk.LowerBound | agperms/src/agperms/risk.py:239-249 | At least 1/K, with equality exactly for equal shares |
| Risk.UpperBound | agperms/src/agperms/risk.py:239-249 | At most 1, with equality exactly when one share carries everything |
| Risk.ScaleInvariant | agperms/src/agperms/risk.py:239-249 | Unchanged when every share is scaled by one positive factor |

## Left out

- JWT encoding, real SHA-256 and JSON serialisation: signing is ideal, the hash and the canonical
  serialisation are arbitrary functions; `id` and `latency_ms` are not hashed by the source either.
- Event timestamps, correlation ids and latency: events carry the fields that decide anything.
- Parameters instead of models: the clock, uuids, the subject registry and its hashing, exempt
  subjects, the anomaly detector's verdict, and the order of `list_approvals`.
- SQL sessions, Redis protocol, HTTP routes, dashboard and demos; the SQL back end is modelled where it
  has an algorithm of its own, the subtree walk.
- The hosted delegation engine: the same machine over the cached store; its approval status depends
  on request transactions that are not part of this model.
- Listings and read-outs: `pending_reviews`, `pending_approvals`, `audit_events`, snapshots.
- Storage that answers neither yes nor no is modelled only as a closed store, in the sequential machine.
- `RedisWindowCache`: it treats a timestamp exactly at the cutoff differently from the local cache.
- The rest of risk.py: lookups and counts over the log, without a law of their own.
- AuthorityAdmission.AcceptedIff: for a clock that never goes back, as for every count over a window; without
  that, `AuthorityTheorems.VerifySucceedsIff` says what the code's own check of the window decides.
- AuthorityTheorems.OneTokenPerApproval: for calls that do not overlap; `InterleavedDecisions` has the
  exact condition for those that do.
- AuthorityTheorems.RevokedActionsAreAccountedFor: likewise, with `InterleavedReviews`.
- Interleaving.DelegateStopsAtOnce: `approve` looks up only its parent, so a mint by it may still land
  below a farther revoked ancestor while a revoke is in flight; `verify` refuses the token.
- Interleaving.StepKeepsSystem: rate limits, the breaker and a closed store are not in the concurrent
  machine and the clock of a step is free, which only allows more runs; audit rows that no replay reads
  are left out.
- InterleavedDecisions.OverlapCanBreak: its continuation, like that of `StaysRevokedBelowIff`, reads a
  clock at which the parent, or the root, has not expired; that an expiry comes first is not ruled out.
- AuthorityOutcomes.ResolveOnce: for calls that do not overlap; `InterleavedReviews` has the condition for
  those that do.
- InterleavedLog.SettledLogRebuildsStore: one audit writer, whose rows land in the order of its lock.
- InterleavedReviews.UnreviewedIffLate: actions and reviews have a machine of their own, in which a check
  is the lookup of the action's own token and a walk may return any targets.
- AuthorityTheorems.LogRebuildsStore: approval status is not rebuilt, because two expiry paths write no row.
- RevocationCache.AlwaysFaithful: a request's transaction and its mirror write are one step; a rebuild
  between the two is not modelled, nor is eviction of single keys.
- BufferedAudit.Conservation: commits succeed; a batch lost by a failing commit is not modelled.
- BufferedAudit.AuditLogger.Log: one thread; across threads events may reach the table in another
  order than they were logged, which `Conservation` allows.
