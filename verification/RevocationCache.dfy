/**
 The service's revocation store (revocation.py): database rows are the truth, Redis is a mirror that
 may only be believed while the client is up and the readiness sentinel is set.

 Every Redis call is told by its `Fault` whether it works, fails without effect, or fails to the
 caller although the server applied it.  A request's transaction and its mirror write are one step.
 */
module RevocationCache {
  import opened Core
  import opened Walk

  datatype Fault = Works | Lost | AppliedButFailed

  /** `rows` maps a revoked jti to the jti its revocation started from. */
  datatype State = State(rows: map<Jti, Jti>, edges: Edges, cached: set<Jti>, ready: bool, available: bool)

  datatype Answer = Revoked(yes: bool) | RefusesToAnswer

  // ------------------------------------------------------------------
  // The operations
  // ------------------------------------------------------------------

  function AddRows(rows: map<Jti, Jti>, targets: set<Jti>, root: Jti): map<Jti, Jti> {
    map t | t in rows.Keys + targets :: if t in rows then rows[t] else root
  }

  function CacheAdd(s: State, targets: set<Jti>, f: Fault): State {
    if !s.available || targets == {} then s
    else s.(cached := if f.Lost? then s.cached else s.cached + targets, available := f.Works?)
  }

  function RevokeSubtree(s: State, children: Children, j: Jti, f: Fault): State
    requires Lists(s.edges, children)
  {
    var targets := Elements(Descendants(s.edges, children, j));
    CacheAdd(s.(rows := AddRows(s.rows, targets, j)), targets, f)
  }

  /** One pipelined transaction: the sentinel is set together with the set it vouches for. */
  function RebuildCache(s: State, f: Fault): State {
    if !s.available then s
    else if f.Lost? then s.(available := false)
    else s.(cached := s.rows.Keys, ready := true, available := f.Works?)
  }

  function RecordEdge(s: State, p: Jti, c: Jti, f: Fault): State {
    s.(edges := AddEdge(s.edges, p, c), available := s.available && f.Works?)
  }

  /** The faults a lookup may meet: reading the sentinel, reading the set, rebuilding. */
  datatype LookupFaults = LookupFaults(get: Fault, member: Fault, rebuild: Fault)

  function IsRevoked(s: State, j: Jti, session: bool, f: LookupFaults): (State, Answer) {
    var truth := if session then Revoked(j in s.rows) else RefusesToAnswer;
    if !s.available then (s, truth)
    else if !f.get.Works? then (s.(available := false), truth)
    else if s.ready then
      if f.member.Works? then (s, Revoked(j in s.cached)) else (s.(available := false), truth)
    else if session then (RebuildCache(s, f.rebuild), truth)
    else (s, RefusesToAnswer)
  }

  /** Process start: connect, then rebuild before any request is served. */
  function Restart(s: State, ping: Fault, f: Fault): State {
    RebuildCache(s.(available := ping.Works?), f)
  }

  datatype Step =
    | NewEdge(parent: Jti, child: Jti, fault: Fault)
    | Revoke(jti: Jti, children: Children, fault: Fault)
    | Lookup(jti: Jti, session: bool, faults: LookupFaults)
    | Rebuild(fault: Fault)
    | Flushed                          // Redis lost its keyspace
    | Degraded                         // some other Redis user saw an error
    | Restarted(ping: Fault, fault: Fault)

  /** The database answers the walk of a Revoke truthfully; nothing else constrains a step. */
  ghost predicate Enabled(s: State, step: Step) {
    step.Revoke? ==> Lists(s.edges, step.children)
  }

  ghost function Do(s: State, step: Step): State
    requires Enabled(s, step)
  {
    match step
    case NewEdge(p, c, f) => RecordEdge(s, p, c, f)
    case Revoke(j, children, f) => RevokeSubtree(s, children, j, f)
    case Lookup(j, session, f) => IsRevoked(s, j, session, f).0
    case Rebuild(f) => RebuildCache(s, f)
    case Flushed => s.(cached := {}, ready := false)
    case Degraded => s.(available := false)
    case Restarted(ping, f) => Restart(s, ping, f)
  }

  /** s' is reached from s by the steps, each enabled where it is taken. */
  ghost predicate Reaches(s: State, steps: seq<Step>, s': State)
    decreases |steps|
  {
    if steps == [] then s' == s
    else Enabled(s, steps[0]) && Reaches(Do(s, steps[0]), steps[1..], s')
  }

  // ------------------------------------------------------------------
  // The mirror is never believed when it is wrong
  // ------------------------------------------------------------------

  predicate Faithful(s: State) {
    s.available && s.ready ==> s.cached == s.rows.Keys
  }

  lemma StepFaithful(s: State, step: Step)
    requires Enabled(s, step) && Faithful(s)
    ensures Faithful(Do(s, step))
  {
    match step
    case Revoke(j, children, f) =>
      var targets := Elements(Descendants(s.edges, children, j));
      assert AddRows(s.rows, targets, j).Keys == s.rows.Keys + targets;
    case _ =>
  }

  /** From a cold start, over any run of requests, flushes, outages, rebuilds and restarts. */
  lemma {:induction false} AlwaysFaithful(s: State, steps: seq<Step>, s': State)
    requires Faithful(s) && Reaches(s, steps, s')
    ensures Faithful(s')
    decreases |steps|
  {
    if steps != [] {
      StepFaithful(s, steps[0]);
      AlwaysFaithful(Do(s, steps[0]), steps[1..], s');
    }
  }

  /**
   In every reachable state, under any faults: a lookup with a session answers like the database; a
   lookup without one answers like the database or refuses, and it answers exactly when the mirror
   is up, vouched for, and reached.
   */
  lemma LookupRefinesDatabase(start: State, steps: seq<Step>, s: State, j: Jti, session: bool, f: LookupFaults)
    requires !start.available && Reaches(start, steps, s)
    ensures var (s', answer) := IsRevoked(s, j, session, f);
            && (session ==> answer == Revoked(j in s.rows))
            && (!session ==> answer == RefusesToAnswer || answer == Revoked(j in s.rows))
            && (!session ==> (answer.Revoked? <==> s.available && s.ready && f.get.Works? && f.member.Works?))
            && s'.rows == s.rows && s'.edges == s.edges
  {
    AlwaysFaithful(start, steps, s);
  }

  /** Revoked rows are never dropped and keep the root of their first revocation. */
  lemma {:induction false} RowsAreKept(s: State, steps: seq<Step>, s': State, j: Jti)
    requires Reaches(s, steps, s') && j in s.rows
    ensures j in s'.rows && s'.rows[j] == s.rows[j]
    decreases |steps|
  {
    if steps != [] {
      var next := Do(s, steps[0]);
      assert j in next.rows && next.rows[j] == s.rows[j];
      RowsAreKept(next, steps[1..], s', j);
    }
  }

  /** A revoke records exactly the reachable jtis, in the database and, if it can, in the mirror. */
  lemma RevokeRecordsSubtree(s: State, children: Children, j: Jti, f: Fault)
    requires Lists(s.edges, children)
    ensures var s' := RevokeSubtree(s, children, j, f);
            && (forall t :: t in s'.rows <==> t in s.rows || Reachable(s.edges, j, t))
            && (s'.available <==> s.available && f.Works?)
            && (s'.available ==> forall t :: t in s'.cached <==> t in s.cached || Reachable(s.edges, j, t))
  {
    DescendantsMeaning(s.edges, children, j);
    var targets := Elements(Descendants(s.edges, children, j));
    assert j in targets by {
      assert Descendants(s.edges, children, j)[0] == j;
    }
    assert forall t :: t in targets <==> Reachable(s.edges, j, t);
  }

  // ------------------------------------------------------------------
  // The mirror answers again
  // ------------------------------------------------------------------

  /** A lookup that meets no fault answers like the database, with a session or without. */
  ghost predicate Answers(s: State) {
    forall j, session, rebuild ::
      IsRevoked(s, j, session, LookupFaults(Works, Works, rebuild)).1 == Revoked(j in s.rows)
  }

  /** No flush, no outage, and no Redis call of the step fails. */
  predicate Calm(step: Step) {
    match step
    case NewEdge(_, _, f) => f.Works?
    case Revoke(_, _, f) => f.Works?
    case Lookup(_, _, f) => f.get.Works? && f.member.Works?
    case Rebuild(f) => f.Works?
    case Flushed => false
    case Degraded => false
    case Restarted(ping, f) => ping.Works? && f.Works?
  }

  /** Once the mirror is up and vouched for, lookups answer until Redis is flushed or one of its calls fails. */
  lemma {:induction false} AnswersUntilFault(s: State, steps: seq<Step>, s': State)
    requires Faithful(s) && s.available && s.ready
    requires Reaches(s, steps, s') && forall i :: 0 <= i < |steps| ==> Calm(steps[i])
    ensures Answers(s') && s'.available && s'.ready
    decreases |steps|
  {
    if steps != [] {
      assert Calm(steps[0]);
      StepFaithful(s, steps[0]);
      AnswersUntilFault(Do(s, steps[0]), steps[1..], s');
    }
  }

  /** The steps that set the sentinel when none of their calls fails. */
  predicate Vouches(s: State, step: Step) {
    match step
    case Rebuild(f) => s.available && f.Works?
    case Restarted(ping, f) => ping.Works? && f.Works?
    case Lookup(_, session, f) => s.available && !s.ready && session && f.get.Works? && f.rebuild.Works?
    case _ => false
  }

  /**
   Whatever happened before, after a rebuild that works, a restart of which both calls work, or a lookup
   with a session that found nothing vouched for and could rebuild: lookups answer, with a session or
   without, and answer like the database, until Redis is flushed or one of its calls fails.
   */
  lemma RebuildAnswers(start: State, steps: seq<Step>, s: State, step: Step, more: seq<Step>, s': State)
    requires !start.available && Reaches(start, steps, s) && Vouches(s, step)
    requires Reaches(Do(s, step), more, s') && forall i :: 0 <= i < |more| ==> Calm(more[i])
    ensures Answers(s')
    ensures forall j :: j in s.rows ==> j in s'.rows
  {
    AlwaysFaithful(start, steps, s);
    StepFaithful(s, step);
    AnswersUntilFault(Do(s, step), more, s');
    forall j | j in s.rows ensures j in s'.rows {
      RowsAreKept(Do(s, step), more, s', j);
    }
  }

  // ------------------------------------------------------------------
  // Why the sentinel
  // ------------------------------------------------------------------

  /**
   Being up does not make the mirror right: whatever happened before, a run exists after which the
   client is up and the mirror lacks a revoked jti.  It is the sentinel that is missing then.
   */
  lemma SentinelIsNeeded(start: State, steps: seq<Step>, s: State, j: Jti) returns (more: seq<Step>, s': State)
    requires !start.available && Reaches(start, steps, s) && j in s.rows
    ensures Reaches(start, steps + more, s')
    ensures s'.available && j in s'.rows && j !in s'.cached && !s'.ready
  {
    more := [Restarted(Works, Works), Flushed];
    s' := Do(Do(s, more[0]), more[1]);
    assert more[1..] == [Flushed] && [Flushed][1..] == [];
    assert Reaches(s, more, s');
    ReachesThen(start, steps, s, more, s');
    AlwaysFaithful(start, steps + more, s');
  }

  lemma {:induction false} ReachesThen(a: State, steps: seq<Step>, b: State, more: seq<Step>, c: State)
    requires Reaches(a, steps, b) && Reaches(b, more, c)
    ensures Reaches(a, steps + more, c)
    decreases |steps|
  {
    if steps == [] {
      assert steps + more == more;
    } else {
      assert (steps + more)[0] == steps[0] && (steps + more)[1..] == steps[1..] + more;
      ReachesThen(Do(a, steps[0]), steps[1..], b, more, c);
    }
  }

  // ------------------------------------------------------------------
  // The class
  // ------------------------------------------------------------------

  class RevocationStore {
    var rows: map<Jti, Jti>
    var edges: Edges
    var cached: set<Jti>
    var ready: bool
    var available: bool

    function Value(): State
      reads this
    {
      State(rows, edges, cached, ready, available)
    }

    constructor ()
      ensures Value() == State(map[], map[], {}, false, false)
    {
      rows, edges, cached, ready, available := map[], map[], {}, false, false;
    }

    method AddToCache(targets: set<Jti>, f: Fault)
      modifies this`cached, this`available
      ensures Value() == CacheAdd(old(Value()), targets, f)
    {
      if !available || targets == {} {
        return;
      }
      if !f.Lost? {
        cached := cached + targets;
      }
      available := f.Works?;
    }

    /** One row per target that has none yet. */
    method AddRevocationRows(targets: seq<Jti>, root: Jti)
      modifies this`rows
      ensures rows == AddRows(old(rows), Elements(targets), root)
    {
      for i := 0 to |targets|
        invariant rows == AddRows(old(rows), Elements(targets[..i]), root)
      {
        assert Elements(targets[..i + 1]) == Elements(targets[..i]) + {targets[i]};
        if targets[i] !in rows {
          rows := rows[targets[i] := root];
        }
      }
      assert targets[..|targets|] == targets;
    }

    method RevokeTree(children: Children, j: Jti, f: Fault) returns (targets: seq<Jti>)
      requires Lists(edges, children)
      modifies this
      ensures targets == Descendants(old(edges), children, j)
      ensures Value() == RevokeSubtree(old(Value()), children, j, f)
    {
      targets := WalkWithLevels(edges, children, j);
      AddRevocationRows(targets, j);
      AddToCache(Elements(targets), f);
    }

    method Repopulate(f: Fault)
      modifies this`cached, this`ready, this`available
      ensures Value() == RebuildCache(old(Value()), f)
    {
      if !available {
        return;
      }
      if !f.Lost? {
        cached, ready := rows.Keys, true;
      }
      available := f.Works?;
    }

    method LookUp(j: Jti, session: bool, f: LookupFaults) returns (answer: Answer)
      modifies this`cached, this`ready, this`available
      ensures (Value(), answer) == IsRevoked(old(Value()), j, session, f)
      ensures Faithful(old(Value())) && session ==> answer == Revoked(j in rows)
    {
      if available {
        if !f.get.Works? {
          available := false;
        } else if ready {
          if f.member.Works? {
            return Revoked(j in cached);
          }
          available := false;
        } else if session {
          Repopulate(f.rebuild);
          return Revoked(j in rows);
        }
      }
      return if session then Revoked(j in rows) else RefusesToAnswer;
    }
  }
}
