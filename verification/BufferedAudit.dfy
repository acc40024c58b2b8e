/**
 The service's buffered audit writer (audit_logger.py), at the grain of its lock: every step below
 is one critical section, or the arrival of an event at `log`.  Commits succeed.
 */
module BufferedAudit {
  import opened Core
  import opened AuditChain

  /** Events a thread holds on their way to the table: a taken buffer, or one synchronous event. */
  datatype Batch<E> = Batch(thread: nat, events: seq<E>)

  datatype Writer<E> = Writer(buffer: seq<E>, inFlight: seq<Batch<E>>, rows: seq<Row<E>>, tail: Option<string>)

  datatype Step<E> =
    | Enqueue(event: E)               // log, bufferable: append to the buffer
    | LogSync(thread: nat, event: E)  // log, anything else: about to write
    | TakeBuffer(thread: nat)         // flush, first critical section
    | WriteBatch(index: nat)          // the critical section of _write_batch

  function Write<E>(h: Hashing<E>, rows: seq<Row<E>>, tail: Option<string>, events: seq<E>): (seq<Row<E>>, string) {
    var prev := if tail.Some? then tail.value else TailHash(rows);
    var batch := ChainFrom(h, prev, |rows| + 1, events);
    (rows + batch, TailAfter(batch, prev))
  }

  function Do<E>(h: Hashing<E>, s: Writer<E>, step: Step<E>): Writer<E> {
    match step
    case Enqueue(e) => s.(buffer := s.buffer + [e])
    case LogSync(t, e) => s.(inFlight := s.inFlight + [Batch(t, [e])])
    case TakeBuffer(t) =>
      if s.buffer == [] then s
      else s.(buffer := [], inFlight := s.inFlight + [Batch(t, s.buffer)])
    case WriteBatch(i) =>
      if i >= |s.inFlight| then s else
      var (rows, tail) := Write(h, s.rows, s.tail, s.inFlight[i].events);
      s.(inFlight := s.inFlight[..i] + s.inFlight[i + 1..], rows := rows, tail := Some(tail))
  }

  function Run<E>(h: Hashing<E>, steps: seq<Step<E>>): Writer<E> {
    if steps == [] then Writer([], [], [], None)
    else Do(h, Run(h, steps[..|steps| - 1]), steps[|steps| - 1])
  }

  // ------------------------------------------------------------------
  // Nothing is lost, nothing is written twice
  // ------------------------------------------------------------------

  ghost function Logged<E>(steps: seq<Step<E>>): multiset<E> {
    if steps == [] then multiset{}
    else Logged(steps[..|steps| - 1]) + Arriving(steps[|steps| - 1])
  }

  ghost function Held<E>(batches: seq<Batch<E>>): multiset<E> {
    if batches == [] then multiset{}
    else multiset(batches[0].events) + Held(batches[1..])
  }

  lemma {:induction false} HeldConcat<E>(a: seq<Batch<E>>, b: seq<Batch<E>>)
    ensures Held(a + b) == Held(a) + Held(b)
  {
    if a == [] {
      assert a + b == b;
    } else {
      assert (a + b)[1..] == a[1..] + b;
      HeldConcat(a[1..], b);
    }
  }

  lemma HeldWithout<E>(batches: seq<Batch<E>>, i: nat)
    requires i < |batches|
    ensures Held(batches) == Held(batches[..i] + batches[i + 1..]) + multiset(batches[i].events)
  {
    var rest := batches[i..];
    assert batches == batches[..i] + rest && rest[0] == batches[i] && rest[1..] == batches[i + 1..];
    HeldConcat(batches[..i], rest);
    HeldConcat(batches[..i], batches[i + 1..]);
  }

  lemma WriteAdds<E>(h: Hashing<E>, rows: seq<Row<E>>, tail: Option<string>, events: seq<E>)
    ensures EventsOf(Write(h, rows, tail, events).0) == EventsOf(rows) + events
  {
    var prev := if tail.Some? then tail.value else TailHash(rows);
    ChainFromShape(h, prev, |rows| + 1, events);
    EventsConcat(rows, ChainFrom(h, prev, |rows| + 1, events));
  }

  lemma EventsConcat<E>(a: seq<Row<E>>, b: seq<Row<E>>)
    ensures EventsOf(a + b) == EventsOf(a) + EventsOf(b)
  {
  }

  ghost function Present<E>(s: Writer<E>): multiset<E> {
    multiset(s.buffer) + Held(s.inFlight) + multiset(EventsOf(s.rows))
  }

  ghost function Arriving<E>(step: Step<E>): multiset<E> {
    if step.Enqueue? || step.LogSync? then multiset{step.event} else multiset{}
  }

  lemma HeldSnoc<E>(batches: seq<Batch<E>>, b: Batch<E>)
    ensures Held(batches + [b]) == Held(batches) + multiset(b.events)
  {
    HeldConcat(batches, [b]);
    assert [b][1..] == [];
  }

  lemma WriteConserves<E>(h: Hashing<E>, s: Writer<E>, i: nat)
    requires i < |s.inFlight|
    ensures Present(Do(h, s, WriteBatch(i))) == Present(s)
  {
    HeldWithout(s.inFlight, i);
    WriteAdds(h, s.rows, s.tail, s.inFlight[i].events);
  }

  lemma BufferConserves<E>(buffer: seq<E>, held: multiset<E>, rows: multiset<E>, e: E)
    ensures multiset(buffer + [e]) + held + rows == multiset(buffer) + held + rows + multiset{e}
  {
    assert multiset(buffer + [e]) == multiset(buffer) + multiset{e};
  }

  lemma SyncConserves<E>(h: Hashing<E>, s: Writer<E>, t: nat, e: E)
    ensures Present(Do(h, s, LogSync(t, e))) == Present(s) + multiset{e}
  {
    HeldSnoc(s.inFlight, Batch(t, [e]));
    assert multiset([e]) == multiset{e};
  }

  lemma TakeConserves<E>(h: Hashing<E>, s: Writer<E>, t: nat)
    ensures Present(Do(h, s, TakeBuffer(t))) == Present(s)
  {
    HeldSnoc(s.inFlight, Batch(t, s.buffer));
  }

  lemma StepConserves<E>(h: Hashing<E>, s: Writer<E>, step: Step<E>)
    ensures Present(Do(h, s, step)) == Present(s) + Arriving(step)
  {
    match step {
      case Enqueue(e) => BufferConserves(s.buffer, Held(s.inFlight), multiset(EventsOf(s.rows)), e);
      case LogSync(t, e) => SyncConserves(h, s, t, e);
      case TakeBuffer(t) => TakeConserves(h, s, t);
      case WriteBatch(i) =>
        if i < |s.inFlight| {
          WriteConserves(h, s, i);
        }
    }
  }

  /** Under every interleaving a logged event is in exactly one of buffer, in-flight batch or table. */
  lemma {:induction false} Conservation<E>(h: Hashing<E>, steps: seq<Step<E>>)
    ensures var s := Run(h, steps);
            Logged(steps) == multiset(s.buffer) + Held(s.inFlight) + multiset(EventsOf(s.rows))
  {
    if steps != [] {
      var n := |steps| - 1;
      Conservation(h, steps[..n]);
      StepConserves(h, Run(h, steps[..n]), steps[n]);
    }
  }

  ghost predicate Sound<E>(h: Hashing<E>, rows: seq<Row<E>>, tail: Option<string>) {
    Intact(h, rows) && (tail.Some? ==> tail.value == TailHash(rows))
  }

  lemma WriteSound<E>(h: Hashing<E>, rows: seq<Row<E>>, tail: Option<string>, events: seq<E>)
    requires Sound(h, rows, tail)
    ensures var (rows', tail') := Write(h, rows, tail, events); Sound(h, rows', Some(tail'))
  {
    if events == [] {
      assert rows + [] == rows;
    } else {
      AppendIntact(h, rows, TailHash(rows), |rows| + 1, events);
    }
  }

  /** The cached tail never goes stale, so the table always verifies. */
  lemma {:induction false} AlwaysIntact<E>(h: Hashing<E>, steps: seq<Step<E>>)
    ensures var s := Run(h, steps);
            Intact(h, s.rows) && (s.tail.Some? ==> s.tail.value == TailHash(s.rows))
  {
    if steps != [] {
      var n := |steps| - 1;
      var s := Run(h, steps[..n]);
      AlwaysIntact(h, steps[..n]);
      match steps[n]
      case WriteBatch(i) =>
        if i < |s.inFlight| {
          WriteSound(h, s.rows, s.tail, s.inFlight[i].events);
        }
      case _ =>
    }
  }

  // ------------------------------------------------------------------
  // What a returning call may rely on
  // ------------------------------------------------------------------

  ghost predicate Holds<E>(s: Writer<E>, t: nat, e: E) {
    exists b :: b in s.inFlight && b.thread == t && e in b.events
  }

  ghost predicate WrittenOrHeld<E>(s: Writer<E>, t: nat, e: E) {
    e in EventsOf(s.rows) || Holds(s, t, e)
  }

  /** Once thread t has e in hand it keeps it until e is in the table. */
  lemma HeldUntilWritten<E>(h: Hashing<E>, s: Writer<E>, step: Step<E>, t: nat, e: E)
    requires WrittenOrHeld(s, t, e)
    ensures WrittenOrHeld(Do(h, s, step), t, e)
  {
    var s' := Do(h, s, step);
    match step
    case WriteBatch(i) =>
      if i < |s.inFlight| {
        WriteAdds(h, s.rows, s.tail, s.inFlight[i].events);
      }
      if i < |s.inFlight| && e !in EventsOf(s'.rows) {
        var b :| b in s.inFlight && b.thread == t && e in b.events;
        var k :| 0 <= k < |s.inFlight| && s.inFlight[k] == b;
        assert k != i;
        assert s'.inFlight[if k < i then k else k - 1] == b;
      }
    case _ =>
      if e !in EventsOf(s.rows) {
        var b :| b in s.inFlight && b.thread == t && e in b.events;
        assert b in s'.inFlight;
      }
  }

  /**
   A synchronous `log` returns when its thread holds nothing any more; by then the event is in the
   table, whatever the other threads did meanwhile.
   */
  lemma {:induction false} SyncIsDurable<E>(h: Hashing<E>, steps: seq<Step<E>>, k: nat)
    requires k < |steps| && steps[k].LogSync?
    ensures WrittenOrHeld(Run(h, steps), steps[k].thread, steps[k].event)
    ensures var s := Run(h, steps);
            !Holds(s, steps[k].thread, steps[k].event) ==> steps[k].event in EventsOf(s.rows)
  {
    var n := |steps| - 1;
    var s := Run(h, steps[..n]);
    if k < n {
      assert steps[..n][k] == steps[k];
      SyncIsDurable(h, steps[..n], k);
      HeldUntilWritten(h, s, steps[n], steps[k].thread, steps[k].event);
    } else {
      var b := Batch(steps[k].thread, [steps[k].event]);
      assert Run(h, steps).inFlight[|s.inFlight|] == b;
    }
  }

  /** A flush puts the whole buffer in its thread's hands, so it too is in the table on return. */
  lemma FlushTakesAll<E>(h: Hashing<E>, s: Writer<E>, t: nat, e: E)
    requires e in s.buffer
    ensures var s' := Do(h, s, TakeBuffer(t)); s'.buffer == [] && Holds(s', t, e)
  {
    var s' := Do(h, s, TakeBuffer(t));
    assert s'.inFlight[|s.inFlight|] == Batch(t, s.buffer);
  }

  /** So every event that was buffered when a flush began is in the table when the flush returns. */
  lemma {:induction false} FlushIsDurable<E>(h: Hashing<E>, steps: seq<Step<E>>, k: nat, e: E)
    requires k < |steps| && steps[k].TakeBuffer? && e in Run(h, steps[..k]).buffer
    ensures WrittenOrHeld(Run(h, steps), steps[k].thread, e)
    ensures var s := Run(h, steps); !Holds(s, steps[k].thread, e) ==> e in EventsOf(s.rows)
  {
    var n := |steps| - 1;
    var s := Run(h, steps[..n]);
    if k < n {
      assert steps[..n][k] == steps[k] && steps[..n][..k] == steps[..k];
      FlushIsDurable(h, steps[..n], k, e);
      HeldUntilWritten(h, s, steps[n], steps[k].thread, e);
    } else {
      FlushTakesAll(h, s, steps[k].thread, e);
    }
  }

  // ------------------------------------------------------------------
  // The class
  // ------------------------------------------------------------------

  /** One method per critical section, and the two calls made of them. */
  class AuditLogger<E(==)> {
    const h: Hashing<E>
    const bufferable: E -> bool
    const bufferMaxSize: nat
    var buffer: seq<E>
    var tail: Option<string>
    var table: seq<Row<E>>

    ghost predicate Valid()
      reads this
    {
      Sound(h, table, tail)
    }

    constructor (h: Hashing<E>, bufferable: E -> bool, bufferMaxSize: nat, table: seq<Row<E>>)
      requires Intact(h, table)
      ensures Valid() && buffer == [] && this.table == table
      ensures this.h == h && this.bufferable == bufferable && this.bufferMaxSize == bufferMaxSize
    {
      this.h, this.bufferable, this.bufferMaxSize := h, bufferable, bufferMaxSize;
      this.buffer, this.tail, this.table := [], None, table;
    }

    method PersistBatch(events: seq<E>)
      requires Valid()
      modifies this`tail, this`table
      ensures Valid()
      ensures (table, tail) == var (rows, t) := Write(h, old(table), old(tail), events); (rows, Some(t))
      ensures EventsOf(table) == old(EventsOf(table)) + events
    {
      var start := if tail.Some? then tail.value else TailHash(table);
      var batch, newTail := ExtendChain(h, start, |table| + 1, events);
      WriteAdds(h, table, tail, events);
      WriteSound(h, table, tail, events);
      table, tail := table + batch, Some(newTail);
    }

    method Flush() returns (written: nat)
      requires Valid()
      modifies this
      ensures Valid() && buffer == [] && written == old(|buffer|)
      ensures EventsOf(table) == old(EventsOf(table) + buffer)
    {
      var pending := buffer;
      buffer := [];
      if pending != [] {
        PersistBatch(pending);
      }
      return |pending|;
    }

    /** Nothing but a bufferable event is ever outside the table when `Log` returns. */
    method Log(e: E, forceSync: bool)
      requires Valid()
      modifies this
      ensures Valid()
      ensures EventsOf(table) + buffer
              == if bufferable(e) && !forceSync then old(EventsOf(table) + buffer) + [e]
                 else old(EventsOf(table)) + [e] + old(buffer)
      ensures bufferable(e) && !forceSync ==>
                buffer == if old(|buffer|) + 1 >= bufferMaxSize then [] else old(buffer) + [e]
      ensures !(bufferable(e) && !forceSync) ==> e in EventsOf(table) && buffer == old(buffer)
    {
      if !forceSync && bufferable(e) {
        buffer := buffer + [e];
        if |buffer| >= bufferMaxSize {
          var _ := Flush();
        }
      } else {
        PersistBatch([e]);
        assert EventsOf(table)[|EventsOf(table)| - 1] == e;
      }
    }
  }
}
