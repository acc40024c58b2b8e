/**
 Several `AuditLog` instances over one store (_audit.py): each caches the tail it last read or wrote,
 so the chain forks as soon as one of them appends after another did.

 An instance's lock is its own.  `audit_tail_hash` and `append_audit_batch` are two storage calls, and
 calls of other instances may fall between them: two fresh instances can both read the empty tail
 before either appends.  A step below is one storage call.  An `AppendBatch` by an instance that has
 read nothing yet stands for both calls with nothing in between.
 */
module AuditWriters {
  import opened Core
  import opened AuditChain

  /** The shared rows, and the cached tail of every instance that has read or appended. */
  datatype Shared<E> = Shared(rows: seq<Row<E>>, tails: map<nat, string>)

  datatype Step<E> =
    | ReadTail(writer: nat)
    | AppendBatch(writer: nat, events: seq<E>)

  function CachedTail<E>(s: Shared<E>, w: nat): string {
    if w in s.tails then s.tails[w] else TailHash(s.rows)
  }

  /** A cached tail is never read again, and an empty batch makes no storage call. */
  function Do<E>(h: Hashing<E>, s: Shared<E>, step: Step<E>): Shared<E> {
    match step
    case ReadTail(w) => s.(tails := s.tails[w := CachedTail(s, w)])
    case AppendBatch(w, events) =>
      if events == [] then s
      else
        var prev := CachedTail(s, w);
        var batch := ChainFrom(h, prev, |s.rows| + 1, events);
        Shared(s.rows + batch, s.tails[w := TailAfter(batch, prev)])
  }

  function Run<E>(h: Hashing<E>, steps: seq<Step<E>>): Shared<E> {
    if steps == [] then Shared([], map[])
    else Do(h, Run(h, steps[..|steps| - 1]), steps[|steps| - 1])
  }

  /** The step writes rows. */
  predicate Writes<E>(step: Step<E>) {
    step.AppendBatch? && step.events != []
  }

  /** The step leaves its instance with a cached tail. */
  predicate Touches<E>(step: Step<E>) {
    step.ReadTail? || Writes(step)
  }

  /** At the k-th step the writer's cached tail was the tail of the store. */
  predicate OnTheTail<E>(h: Hashing<E>, steps: seq<Step<E>>, k: nat)
    requires k < |steps|
  {
    var before := Run(h, steps[..k]);
    CachedTail(before, steps[k].writer) == TailHash(before.rows)
  }

  lemma RunPrefix<E>(h: Hashing<E>, steps: seq<Step<E>>, n: nat)
    requires n < |steps|
    ensures Run(h, steps[..n + 1]) == Do(h, Run(h, steps[..n]), steps[n])
  {
    assert steps[..n + 1][..n] == steps[..n];
  }

  lemma DoIntact<E>(h: Hashing<E>, s: Shared<E>, step: Step<E>)
    ensures Intact(h, Do(h, s, step).rows)
            <==> Intact(h, s.rows) && (Writes(step) ==> CachedTail(s, step.writer) == TailHash(s.rows))
  {
    if Writes(step) {
      AppendIntact(h, s.rows, CachedTail(s, step.writer), |s.rows| + 1, step.events);
    }
  }

  // ------------------------------------------------------------------
  // The exact condition
  // ------------------------------------------------------------------

  predicate AlwaysOnTheTail<E>(h: Hashing<E>, steps: seq<Step<E>>) {
    forall k :: 0 <= k < |steps| && Writes(steps[k]) ==> OnTheTail(h, steps, k)
  }

  lemma OnTheTailPrefix<E>(h: Hashing<E>, steps: seq<Step<E>>, n: nat, k: nat)
    requires k < n <= |steps|
    ensures OnTheTail(h, steps[..n], k) <==> OnTheTail(h, steps, k)
  {
    assert steps[..n][..k] == steps[..k];
  }

  lemma OnTheTailShorter<E>(h: Hashing<E>, steps: seq<Step<E>>, n: nat)
    requires n <= |steps| && AlwaysOnTheTail(h, steps)
    ensures AlwaysOnTheTail(h, steps[..n])
  {
    forall k: nat | k < n && Writes(steps[..n][k])
      ensures OnTheTail(h, steps[..n], k)
    {
      assert steps[..n][k] == steps[k];
      OnTheTailPrefix(h, steps, n, k);
    }
  }

  lemma OnTheTailLonger<E>(h: Hashing<E>, steps: seq<Step<E>>, n: nat)
    requires n + 1 == |steps| && AlwaysOnTheTail(h, steps[..n])
    requires Writes(steps[n]) ==> OnTheTail(h, steps, n)
    ensures AlwaysOnTheTail(h, steps)
  {
    forall k: nat | k < |steps| && Writes(steps[k])
      ensures OnTheTail(h, steps, k)
    {
      if k < n {
        assert steps[..n][k] == steps[k];
        OnTheTailPrefix(h, steps, n, k);
      }
    }
  }

  lemma IntactStep<E>(h: Hashing<E>, steps: seq<Step<E>>, n: nat)
    requires n + 1 == |steps|
    ensures Intact(h, Run(h, steps).rows)
            <==> Intact(h, Run(h, steps[..n]).rows) && (Writes(steps[n]) ==> OnTheTail(h, steps, n))
  {
    DoIntact(h, Run(h, steps[..n]), steps[n]);
  }

  /**
   Under every interleaving of storage calls the chain is intact exactly when every batch was chained
   to the hash that was the store's tail when the batch was appended.
   */
  lemma {:induction false} IntactIffOnTheTail<E>(h: Hashing<E>, steps: seq<Step<E>>)
    ensures Intact(h, Run(h, steps).rows) <==> AlwaysOnTheTail(h, steps)
  {
    if steps == [] {
    } else {
      var n := |steps| - 1;
      IntactIffOnTheTail(h, steps[..n]);
      IntactStep(h, steps, n);
      if Intact(h, Run(h, steps).rows) {
        OnTheTailLonger(h, steps, n);
      } else if AlwaysOnTheTail(h, steps) {
        OnTheTailShorter(h, steps, n);
      }
    }
  }

  /** No later step, by any writer, repairs a broken chain. */
  lemma {:induction false} BreakIsPermanent<E>(h: Hashing<E>, steps: seq<Step<E>>, n: nat)
    requires n <= |steps| && !Intact(h, Run(h, steps[..n]).rows)
    ensures !Intact(h, Run(h, steps).rows)
    decreases |steps| - n
  {
    if n < |steps| {
      RunPrefix(h, steps, n);
      DoIntact(h, Run(h, steps[..n]), steps[n]);
      BreakIsPermanent(h, steps, n + 1);
    } else {
      assert steps[..n] == steps;
    }
  }

  // ------------------------------------------------------------------
  // The same condition, in terms of who wrote when
  // ------------------------------------------------------------------

  predicate HasTail<E>(steps: seq<Step<E>>, w: nat) {
    exists k :: 0 <= k < |steps| && steps[k].writer == w && Touches(steps[k])
  }

  /** Somebody else has written since w last read the tail or wrote. */
  predicate Overtaken<E>(steps: seq<Step<E>>, w: nat) {
    exists k :: 0 <= k < |steps| && OvertakesAt(steps, w, k)
  }

  /** Step k wrote past the cached tail of w, and w has not written since. */
  predicate OvertakesAt<E>(steps: seq<Step<E>>, w: nat, k: nat)
    requires k < |steps|
  {
    && steps[k].writer != w && Writes(steps[k]) && HasTail(steps[..k], w)
    && forall m :: k < m < |steps| && Writes(steps[m]) ==> steps[m].writer != w
  }

  lemma HasTailStep<E>(steps: seq<Step<E>>, w: nat)
    requires steps != []
    ensures var n := |steps| - 1;
            HasTail(steps, w) <==> HasTail(steps[..n], w) || (steps[n].writer == w && Touches(steps[n]))
  {
    var front := steps[..|steps| - 1];
    assert forall k :: 0 <= k < |front| ==> front[k] == steps[k];
  }

  lemma OvertakenStep<E>(steps: seq<Step<E>>, w: nat)
    requires steps != []
    ensures var n := |steps| - 1;
            Overtaken(steps, w)
            <==> if !Writes(steps[n]) then Overtaken(steps[..n], w)
                 else if steps[n].writer == w then false
                 else Overtaken(steps[..n], w) || HasTail(steps[..n], w)
  {
    var n := |steps| - 1;
    var front := steps[..n];
    forall k: nat | k < n
      ensures OvertakesAt(steps, w, k) <==> OvertakesAt(front, w, k) && !(Writes(steps[n]) && steps[n].writer == w)
    {
      OvertakesEarlier(steps, w, k);
    }
    assert OvertakesAt(steps, w, n) <==> steps[n].writer != w && Writes(steps[n]) && HasTail(front, w);
    if Overtaken(front, w) && !(Writes(steps[n]) && steps[n].writer == w) {
      var k :| 0 <= k < |front| && OvertakesAt(front, w, k);
      assert OvertakesAt(steps, w, k);
    }
    if Overtaken(steps, w) {
      var k :| 0 <= k < |steps| && OvertakesAt(steps, w, k);
      assert k < n ==> OvertakesAt(front, w, k);
    }
  }

  lemma OvertakesEarlier<E>(steps: seq<Step<E>>, w: nat, k: nat)
    requires k + 1 < |steps|
    ensures var n := |steps| - 1;
            OvertakesAt(steps, w, k) <==> OvertakesAt(steps[..n], w, k) && !(Writes(steps[n]) && steps[n].writer == w)
  {
    var n := |steps| - 1;
    var front := steps[..n];
    assert front[..k] == steps[..k];
    assert forall m :: 0 <= m < n ==> front[m] == steps[m];
  }

  /** How many rows the store held when w last read the tail or wrote. */
  function LastTouch<E>(h: Hashing<E>, steps: seq<Step<E>>, w: nat): nat {
    if steps == [] then 0
    else
      var n := |steps| - 1;
      if steps[n].writer != w || !Touches(steps[n]) then LastTouch(h, steps[..n], w)
      else if Writes(steps[n]) || !HasTail(steps[..n], w) then |Run(h, steps).rows|
      else LastTouch(h, steps[..n], w)
  }

  lemma DoTail<E>(h: Hashing<E>, s: Shared<E>, step: Step<E>)
    ensures var s' := Do(h, s, step);
            && s'.tails.Keys == s.tails.Keys + (if Touches(step) then {step.writer} else {})
            && (Writes(step) ==> s'.tails[step.writer] == TailHash(s'.rows) && s.rows < s'.rows)
            && (step.ReadTail? ==> s'.tails[step.writer] == CachedTail(s, step.writer))
            && (!Writes(step) ==> s'.rows == s.rows)
            && forall w :: w in s.tails && w != step.writer ==> s'.tails[w] == s.tails[w]
  {
  }

  /** Where w's cached tail stands: at the row that was last when w last read or wrote. */
  ghost predicate TailAt<E>(s: Shared<E>, w: nat, has: bool, at: nat) {
    && (w in s.tails <==> has)
    && at <= |s.rows| && (has ==> s.tails[w] == TailHash(s.rows[..at]))
  }

  lemma DoMovesTail<E>(h: Hashing<E>, s: Shared<E>, step: Step<E>, w: nat, has: bool, at: nat)
    requires TailAt(s, w, has, at)
    ensures var s' := Do(h, s, step); var mine := step.writer == w && Touches(step);
            TailAt(s', w, has || mine, if mine && (Writes(step) || !has) then |s'.rows| else at)
  {
    var s' := Do(h, s, step);
    DoTail(h, s, step);
    assert s'.rows[..|s'.rows|] == s'.rows;
    assert s'.rows[..at] == s.rows[..at];
    if step.writer == w && !Touches(step) {
      assert s' == s;
    }
  }

  /** A cached tail is the tail the store had when its owner last read or wrote. */
  lemma {:induction false} CachedTailPosition<E>(h: Hashing<E>, steps: seq<Step<E>>, w: nat)
    ensures TailAt(Run(h, steps), w, HasTail(steps, w), LastTouch(h, steps, w))
  {
    if steps != [] {
      var n := |steps| - 1;
      var front := steps[..n];
      CachedTailPosition(h, front, w);
      HasTailStep(steps, w);
      DoMovesTail(h, Run(h, front), steps[n], w, HasTail(front, w), LastTouch(h, front, w));
    }
  }

  /** A cached tail is behind the store exactly when its owner was overtaken. */
  lemma {:induction false} BehindIffOvertaken<E>(h: Hashing<E>, steps: seq<Step<E>>, w: nat)
    ensures HasTail(steps, w) ==> (LastTouch(h, steps, w) < |Run(h, steps).rows| <==> Overtaken(steps, w))
    ensures Overtaken(steps, w) ==> HasTail(steps, w)
  {
    if steps != [] {
      var n := |steps| - 1;
      BehindIffOvertaken(h, steps[..n], w);
      CachedTailPosition(h, steps[..n], w);
      HasTailStep(steps, w);
      OvertakenStep(steps, w);
      DoTail(h, Run(h, steps[..n]), steps[n]);
    }
  }

  lemma NoAccidentPrefix<E>(h: Hashing<E>, rows: seq<Row<E>>, more: seq<Row<E>>)
    requires NoAccident(h, rows + more)
    ensures NoAccident(h, rows)
  {
    assert forall i :: 0 <= i < |rows| ==> (rows + more)[i] == rows[i];
  }

  lemma {:induction false} RowsGrow<E>(h: Hashing<E>, steps: seq<Step<E>>, n: nat)
    requires n <= |steps|
    ensures Run(h, steps[..n]).rows <= Run(h, steps).rows
  {
    if n < |steps| {
      var front := steps[..|steps| - 1];
      RowsGrow(h, front, n);
      assert front[..n] == steps[..n];
      DoTail(h, Run(h, front), steps[|steps| - 1]);
    } else {
      assert steps[..n] == steps;
    }
  }

  /** Nobody appended after somebody else had, since it last read the tail or wrote. */
  predicate NeverOvertaken<E>(steps: seq<Step<E>>) {
    forall k :: 0 <= k < |steps| && Writes(steps[k]) ==> !Overtaken(steps[..k], steps[k].writer)
  }

  /**
   Barring a hash accident among the written rows, the chain is intact if and only if nobody appended
   between a writer's last read or append and its next append.
   */
  lemma IntactIffNeverOvertaken<E>(h: Hashing<E>, steps: seq<Step<E>>)
    requires h.Valid() && NoAccident(h, Run(h, steps).rows)
    ensures Intact(h, Run(h, steps).rows) <==> NeverOvertaken(steps)
  {
    IntactIffOnTheTail(h, steps);
    if NeverOvertaken(steps) {
      NeverOvertakenIsIntact(h, steps, |steps|);
      assert steps[..|steps|] == steps;
    } else {
      var k: nat :| k < |steps| && Writes(steps[k]) && Overtaken(steps[..k], steps[k].writer);
      if Intact(h, Run(h, steps[..k]).rows) {
        OnTheTailIff(h, steps, k);
      } else {
        BreakIsPermanent(h, steps, k);
      }
    }
  }

  lemma IntactOneMore<E>(h: Hashing<E>, steps: seq<Step<E>>, n: nat)
    requires n < |steps| && Intact(h, Run(h, steps[..n]).rows) && (Writes(steps[n]) ==> OnTheTail(h, steps, n))
    ensures Intact(h, Run(h, steps[..n + 1]).rows)
  {
    RunPrefix(h, steps, n);
    DoIntact(h, Run(h, steps[..n]), steps[n]);
  }

  lemma {:induction false} NeverOvertakenIsIntact<E>(h: Hashing<E>, steps: seq<Step<E>>, n: nat)
    requires h.Valid() && NoAccident(h, Run(h, steps).rows) && n <= |steps| && NeverOvertaken(steps)
    ensures Intact(h, Run(h, steps[..n]).rows)
  {
    if n > 0 {
      NeverOvertakenIsIntact(h, steps, n - 1);
      if Writes(steps[n - 1]) {
        OnTheTailIff(h, steps, n - 1);
      }
      IntactOneMore(h, steps, n - 1);
    }
  }

  lemma OnTheTailIff<E>(h: Hashing<E>, steps: seq<Step<E>>, k: nat)
    requires h.Valid() && NoAccident(h, Run(h, steps).rows) && k < |steps|
    requires Intact(h, Run(h, steps[..k]).rows)
    ensures OnTheTail(h, steps, k) <==> !Overtaken(steps[..k], steps[k].writer)
  {
    var front, w := steps[..k], steps[k].writer;
    var rows, at := Run(h, front).rows, LastTouch(h, front, w);
    CachedTailPosition(h, front, w);
    BehindIffOvertaken(h, front, w);
    NoAccidentBefore(h, steps, k);
    assert rows[..|rows|] == rows;
    if HasTail(front, w) && at < |rows| {
      TailsDiffer(h, rows, at, |rows|);
    }
  }

  lemma NoAccidentBefore<E>(h: Hashing<E>, steps: seq<Step<E>>, k: nat)
    requires NoAccident(h, Run(h, steps).rows) && k <= |steps|
    ensures NoAccident(h, Run(h, steps[..k]).rows)
  {
    var rows, all := Run(h, steps[..k]).rows, Run(h, steps).rows;
    RowsGrow(h, steps, k);
    assert all == rows + all[|rows|..];
    NoAccidentPrefix(h, rows, all[|rows|..]);
  }

  // ------------------------------------------------------------------
  // Consequences
  // ------------------------------------------------------------------

  /** One instance over a store, however it batches: the chain is always intact. */
  lemma {:induction false} SingleWriterIntact<E>(h: Hashing<E>, steps: seq<Step<E>>, w: nat)
    requires forall k :: 0 <= k < |steps| ==> steps[k].writer == w
    ensures var s := Run(h, steps);
            Intact(h, s.rows) && CachedTail(s, w) == TailHash(s.rows)
  {
    if steps != [] {
      var n := |steps| - 1;
      SingleWriterIntact(h, steps[..n], w);
      var before := Run(h, steps[..n]);
      DoIntact(h, before, steps[n]);
      DoTail(h, before, steps[n]);
    }
  }

  /**
   If another writer appends between a writer's read or append and its next append, the chain forks:
   two instances taking turns, and two fresh ones that read the empty tail together.
   */
  lemma {:induction false} TakingTurnsForks<E>(h: Hashing<E>, steps: seq<Step<E>>, i: nat, j: nat, k: nat)
    requires h.Valid() && NoAccident(h, Run(h, steps).rows)
    requires i < j < k < |steps| && Touches(steps[i]) && Writes(steps[j]) && Writes(steps[k])
    requires steps[i].writer == steps[k].writer != steps[j].writer
    ensures !Intact(h, Run(h, steps).rows)
  {
    IntactIffNeverOvertaken(h, steps);
    var w := steps[k].writer;
    var next := NextWriteBy(steps, w, j, k);
    var front := steps[..next];
    assert front[..j] == steps[..j] && steps[..j][i] == steps[i];
    assert OvertakesAt(front, w, j);
  }

  /** The first append by w after j. */
  lemma NextWriteBy<E>(steps: seq<Step<E>>, w: nat, j: nat, k: nat) returns (next: nat)
    requires j < k < |steps| && steps[k].writer == w && Writes(steps[k])
    ensures j < next <= k && steps[next].writer == w && Writes(steps[next])
    ensures forall m :: j < m < next && Writes(steps[m]) ==> steps[m].writer != w
  {
    next := j + 1;
    while !(steps[next].writer == w && Writes(steps[next]))
      invariant j < next <= k
      invariant forall m :: j < m < next && Writes(steps[m]) ==> steps[m].writer != w
      decreases k - next
    {
      next := next + 1;
    }
  }

  /** Two fresh instances over an empty store that read before either appends, barring accidents. */
  lemma FreshInstancesFork<E>(h: Hashing<E>, a: nat, b: nat, x: E, y: E)
    requires h.Valid() && a != b
    ensures var steps := [ReadTail(a), ReadTail(b), AppendBatch(a, [x]), AppendBatch(b, [y])];
            NoAccident(h, Run(h, steps).rows) ==> !Intact(h, Run(h, steps).rows)
  {
    var steps := [ReadTail(a), ReadTail(b), AppendBatch(a, [x]), AppendBatch(b, [y])];
    if NoAccident(h, Run(h, steps).rows) {
      TakingTurnsForks(h, steps, 1, 2, 3);
    }
  }
}
