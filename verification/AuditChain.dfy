/**
 The hash-chained audit log (_audit.py, audit_logger.py): what the verifier reports, and what an
 intact chain rules out.

 SHA-256 is any function from strings to 64-character strings; the canonical serialisation of an
 event is any function to strings.  No result assumes that hashes are injective: where the argument
 needs it, the result is "or these two rows are a collision", naming the rows.
 */
module AuditChain {
  import opened Core

  datatype Hashing<!E> = Hashing(sha: string -> string, canonical: E -> string) {
    ghost predicate Valid() {
      forall s :: |sha(s)| == 64
    }

    function RowHash(prev: string, event: E): string {
      sha(prev + canonical(event))
    }
  }

  const GENESIS_HASH := "0000000000000000000000000000000000000000000000000000000000000000"

  datatype Row<E> = Row(id: nat, event: E, prevHash: string, rowHash: string)

  function TailHash<E>(rows: seq<Row<E>>): string {
    if rows == [] then GENESIS_HASH else rows[|rows| - 1].rowHash
  }

  function EventsOf<E>(rows: seq<Row<E>>): seq<E> {
    seq(|rows|, i requires 0 <= i < |rows| => rows[i].event)
  }

  // ------------------------------------------------------------------
  // The verifier
  // ------------------------------------------------------------------

  predicate Linked<E>(rows: seq<Row<E>>, i: nat)
    requires i < |rows|
  {
    rows[i].prevHash == TailHash(rows[..i])
  }

  predicate Sealed<E>(h: Hashing<E>, row: Row<E>) {
    row.rowHash == h.RowHash(row.prevHash, row.event)
  }

  predicate RowOk<E>(h: Hashing<E>, rows: seq<Row<E>>, i: nat)
    requires i < |rows|
  {
    Linked(rows, i) && Sealed(h, rows[i])
  }

  predicate Intact<E>(h: Hashing<E>, rows: seq<Row<E>>) {
    forall i :: 0 <= i < |rows| ==> RowOk(h, rows, i)
  }

  /** Row i is the first that does not check out. */
  predicate FirstBreak<E>(h: Hashing<E>, rows: seq<Row<E>>, i: nat) {
    i < |rows| && Intact(h, rows[..i]) && !RowOk(h, rows, i)
  }

  datatype Finding = ChainIntact | PrevHashMismatch | ContentMismatch

  datatype IntegrityReport = IntegrityReport(
    intact: bool, rowsChecked: nat, firstBrokenRowId: Option<nat>, finding: Finding)

  method VerifyIntegrity<E>(h: Hashing<E>, rows: seq<Row<E>>) returns (r: IntegrityReport)
    ensures r.intact <==> Intact(h, rows)
    ensures r.intact ==> r == IntegrityReport(true, |rows|, None, ChainIntact)
    ensures !r.intact ==>
              && FirstBreak(h, rows, r.rowsChecked)
              && r.firstBrokenRowId == Some(rows[r.rowsChecked].id)
              && r.finding == if Linked(rows, r.rowsChecked) then ContentMismatch else PrevHashMismatch
  {
    var prev := GENESIS_HASH;
    for i := 0 to |rows|
      invariant prev == TailHash(rows[..i])
      invariant Intact(h, rows[..i])
    {
      var row := rows[i];
      assert rows[..i + 1] == rows[..i] + [row];
      if row.prevHash != prev {
        assert !RowOk(h, rows, i);
        return IntegrityReport(false, i, Some(row.id), PrevHashMismatch);
      }
      var expected := h.RowHash(prev, row.event);
      if expected != row.rowHash {
        assert !RowOk(h, rows, i);
        return IntegrityReport(false, i, Some(row.id), ContentMismatch);
      }
      prev := row.rowHash;
      IntactPrefix(h, rows, i);
    }
    assert rows[..|rows|] == rows;
    return IntegrityReport(true, |rows|, None, ChainIntact);
  }

  lemma RowOkPrefix<E>(h: Hashing<E>, rows: seq<Row<E>>, n: nat, k: nat)
    requires k < n <= |rows|
    ensures RowOk(h, rows[..n], k) <==> RowOk(h, rows, k)
  {
    assert rows[..n][..k] == rows[..k];
  }

  lemma IntactPrefix<E>(h: Hashing<E>, rows: seq<Row<E>>, n: nat)
    requires n <= |rows|
    ensures Intact(h, rows) ==> Intact(h, rows[..n])
    ensures n < |rows| && Intact(h, rows[..n]) && RowOk(h, rows, n) ==> Intact(h, rows[..n + 1])
  {
    if Intact(h, rows) {
      forall k: nat | k < n
        ensures RowOk(h, rows[..n], k)
      {
        RowOkPrefix(h, rows, n, k);
      }
    }
    if n < |rows| && Intact(h, rows[..n]) && RowOk(h, rows, n) {
      var next := rows[..n + 1];
      forall k: nat | k < |next|
        ensures RowOk(h, next, k)
      {
        RowOkPrefix(h, rows, n + 1, k);
        if k < n {
          RowOkPrefix(h, rows, n, k);
          assert RowOk(h, rows[..n], k);
        }
      }
    }
  }

  // ------------------------------------------------------------------
  // Writing a batch
  // ------------------------------------------------------------------

  /** The rows one batch writes from the tail `prev`, numbered from `id`. */
  function ChainFrom<E>(h: Hashing<E>, prev: string, id: nat, events: seq<E>): (rows: seq<Row<E>>)
    ensures |rows| == |events|
    decreases |events|
  {
    if events == [] then []
    else
      var n := |events| - 1;
      var front := ChainFrom(h, prev, id, events[..n]);
      var p := if front == [] then prev else front[n - 1].rowHash;
      front + [Row(id + n, events[n], p, h.RowHash(p, events[n]))]
  }

  /** The hash the next row would be chained to. */
  function TailAfter<E>(rows: seq<Row<E>>, prev: string): string {
    if rows == [] then prev else rows[|rows| - 1].rowHash
  }

  /** The loop both writers share: chain the events one by one from the tail `start`. */
  method ExtendChain<E>(h: Hashing<E>, start: string, id: nat, events: seq<E>)
    returns (rows: seq<Row<E>>, tail: string)
    ensures rows == ChainFrom(h, start, id, events) && tail == TailAfter(rows, start)
  {
    tail, rows := start, [];
    for i := 0 to |events|
      invariant rows == ChainFrom(h, start, id, events[..i]) && tail == TailAfter(rows, start)
    {
      assert events[..i + 1][..i] == events[..i];
      var rowHash := h.RowHash(tail, events[i]);
      rows := rows + [Row(id + i, events[i], tail, rowHash)];
      tail := rowHash;
    }
    assert events[..|events|] == events;
  }

  lemma {:induction false} ChainFromShape<E>(h: Hashing<E>, prev: string, id: nat, events: seq<E>)
    ensures var rows := ChainFrom(h, prev, id, events);
            && EventsOf(rows) == events
            && (events != [] ==> rows[0].prevHash == prev)
            && (forall k :: 0 < k < |rows| ==> rows[k].prevHash == rows[k - 1].rowHash)
            && (forall k :: 0 <= k < |rows| ==> Sealed(h, rows[k]) && rows[k].id == id + k)
    decreases |events|
  {
    if events != [] {
      ChainFromShape(h, prev, id, events[..|events| - 1]);
      var n := |events| - 1;
      var front := ChainFrom(h, prev, id, events[..n]);
      assert EventsOf(front) == events[..n];
      forall i | 0 <= i < n
        ensures front[i].event == events[i]
      {
        assert front[i].event == EventsOf(front)[i];
      }
    }
  }

  /**
   A non-empty batch keeps the chain intact exactly when it was chained to the store's own tail,
   and a chain that was already broken stays broken whatever is appended.
   */
  lemma AppendIntact<E>(h: Hashing<E>, rows: seq<Row<E>>, prev: string, id: nat, events: seq<E>)
    requires events != []
    ensures Intact(h, rows + ChainFrom(h, prev, id, events)) <==> Intact(h, rows) && prev == TailHash(rows)
  {
    var batch := ChainFrom(h, prev, id, events);
    var all := rows + batch;
    ChainFromShape(h, prev, id, events);
    forall i: nat | i < |rows|
      ensures RowOk(h, all, i) <==> RowOk(h, rows, i)
    {
      assert all[..i] == rows[..i];
    }
    forall i: nat | |rows| <= i < |all|
      ensures RowOk(h, all, i) <==> (i == |rows| ==> prev == TailHash(rows))
    {
      var k := i - |rows|;
      assert all[i] == batch[k];
      assert all[..i] == rows + batch[..k];
    }
    assert Intact(h, all) ==> RowOk(h, all, |rows|);
  }

  // ------------------------------------------------------------------
  // Tamper evidence
  // ------------------------------------------------------------------

  function Preimage<E>(h: Hashing<E>, row: Row<E>): string {
    row.prevHash + h.canonical(row.event)
  }

  /** Two rows with different hash inputs and the same hash. */
  predicate Collide<E>(h: Hashing<E>, a: Row<E>, b: Row<E>) {
    Preimage(h, a) != Preimage(h, b) && h.sha(Preimage(h, a)) == h.sha(Preimage(h, b))
  }

  predicate SameRow<E>(h: Hashing<E>, a: Row<E>, b: Row<E>) {
    a.prevHash == b.prevHash && h.canonical(a.event) == h.canonical(b.event) && a.rowHash == b.rowHash
  }

  lemma PrevIs64<E>(h: Hashing<E>, rows: seq<Row<E>>, i: nat)
    requires h.Valid() && Intact(h, rows) && i < |rows|
    ensures |rows[i].prevHash| == 64
  {
    assert RowOk(h, rows, i);
    if i > 0 {
      assert RowOk(h, rows, i - 1);
      assert rows[..i][i - 1] == rows[i - 1];
    }
  }

  lemma SplitPreimage(p: string, c: string, p': string, c': string)
    requires |p| == |p'| && p + c == p' + c'
    ensures p == p' && c == c'
  {
    assert p == (p + c)[..|p|] && p' == (p' + c')[..|p|];
    assert c == (p + c)[|p|..] && c' == (p' + c')[|p|..];
  }

  /** Rows that seal to one hash without colliding agree on everything that is hashed. */
  lemma SameHash<E>(h: Hashing<E>, a: Row<E>, b: Row<E>)
    requires Sealed(h, a) && Sealed(h, b) && |a.prevHash| == |b.prevHash|
    requires a.rowHash == b.rowHash && !Collide(h, a, b)
    ensures SameRow(h, a, b)
  {
    SplitPreimage(a.prevHash, h.canonical(a.event), b.prevHash, h.canonical(b.event));
  }

  /**
   The tail hash commits to the whole log: two intact logs of one length that end in the same hash
   agree on every row, or the position where they first part, from the end, is a collision.
   */
  lemma {:induction false} TailCommits<E>(h: Hashing<E>, a: seq<Row<E>>, b: seq<Row<E>>)
    requires h.Valid() && Intact(h, a) && Intact(h, b)
    requires |a| == |b| && TailHash(a) == TailHash(b)
    ensures || (forall i :: 0 <= i < |a| ==> SameRow(h, a[i], b[i]))
            || (exists i :: 0 <= i < |a| && Collide(h, a[i], b[i]))
  {
    if a != [] {
      var n := |a| - 1;
      assert RowOk(h, a, n) && RowOk(h, b, n);
      if !Collide(h, a[n], b[n]) {
        PrevIs64(h, a, n);
        PrevIs64(h, b, n);
        SameHash(h, a[n], b[n]);
        IntactPrefix(h, a, n);
        IntactPrefix(h, b, n);
        TailCommits(h, a[..n], b[..n]);
        if i :| 0 <= i < n && Collide(h, a[..n][i], b[..n][i]) {
          assert Collide(h, a[i], b[i]);
        } else {
          forall i | 0 <= i < |a|
            ensures SameRow(h, a[i], b[i])
          {
            if i < n {
              assert a[..n][i] == a[i] && b[..n][i] == b[i];
            }
          }
        }
      }
    }
  }

  /**
   Rewriting any one row but the last, hashes included, is caught at that row or the next, or the
   new row collides with the old one.
   */
  lemma EditIsLocalised<E>(h: Hashing<E>, rows: seq<Row<E>>, i: nat, edited: Row<E>)
    requires h.Valid() && Intact(h, rows) && i + 1 < |rows|
    requires h.canonical(edited.event) != h.canonical(rows[i].event)
    ensures var rows' := rows[i := edited];
            FirstBreak(h, rows', i) || FirstBreak(h, rows', i + 1) || Collide(h, rows[i], edited)
  {
    var rows' := rows[i := edited];
    assert rows'[..i] == rows[..i];
    IntactPrefix(h, rows, i);
    IntactPrefix(h, rows', i);
    assert RowOk(h, rows, i) && RowOk(h, rows, i + 1);
    assert rows[..i + 1][i] == rows[i] && rows'[..i + 1][i] == edited;
    if RowOk(h, rows', i) && RowOk(h, rows', i + 1) {
      assert edited.prevHash == rows[i].prevHash && edited.rowHash == rows[i].rowHash;
      if !Collide(h, rows[i], edited) {
        SameHash(h, rows[i], edited);
      }
    }
  }

  /** Cutting rows off the end leaves an intact chain: the walk cannot see truncation. */
  lemma TruncationUnseen<E>(h: Hashing<E>, rows: seq<Row<E>>, n: nat)
    requires Intact(h, rows) && n <= |rows|
    ensures Intact(h, rows[..n])
  {
    IntactPrefix(h, rows, n);
  }

  // ------------------------------------------------------------------
  // Hashes do not recur
  // ------------------------------------------------------------------

  /** No two of these rows collide and none of them hashes to the genesis value. */
  predicate NoAccident<E>(h: Hashing<E>, rows: seq<Row<E>>) {
    && (forall i, j :: 0 <= i < |rows| && 0 <= j < |rows| ==> !Collide(h, rows[i], rows[j]))
    && (forall i :: 0 <= i < |rows| ==> h.sha(Preimage(h, rows[i])) != GENESIS_HASH)
  }

  /** The tail hash of an intact log differs from the tail hash of every proper prefix. */
  lemma {:induction false} TailsDiffer<E>(h: Hashing<E>, rows: seq<Row<E>>, m: nat, n: nat)
    requires h.Valid() && Intact(h, rows) && NoAccident(h, rows)
    requires m < n <= |rows|
    ensures TailHash(rows[..m]) != TailHash(rows[..n])
    decreases m
  {
    TailOfPrefix(h, rows, n);
    if m > 0 {
      TailOfPrefix(h, rows, m);
      if rows[m - 1].rowHash == rows[n - 1].rowHash {
        PrevIs64(h, rows, m - 1);
        PrevIs64(h, rows, n - 1);
        SameHash(h, rows[m - 1], rows[n - 1]);
        TailsDiffer(h, rows, m - 1, n - 1);
      }
    }
  }

  lemma TailOfPrefix<E>(h: Hashing<E>, rows: seq<Row<E>>, n: nat)
    requires Intact(h, rows) && 0 < n <= |rows|
    ensures TailHash(rows[..n]) == rows[n - 1].rowHash == h.sha(Preimage(h, rows[n - 1]))
    ensures Sealed(h, rows[n - 1]) && rows[n - 1].prevHash == TailHash(rows[..n - 1])
  {
    assert RowOk(h, rows, n - 1);
    assert rows[..n][n - 1] == rows[n - 1];
  }

  /** Deleting any one row but the last is caught at the row that takes its place. */
  lemma DeletionIsLocalised<E>(h: Hashing<E>, rows: seq<Row<E>>, i: nat)
    requires h.Valid() && Intact(h, rows) && NoAccident(h, rows) && i + 1 < |rows|
    ensures FirstBreak(h, rows[..i] + rows[i + 1..], i)
  {
    var cut := rows[..i] + rows[i + 1..];
    assert cut[..i] == rows[..i];
    IntactPrefix(h, rows, i);
    assert RowOk(h, rows, i + 1);
    TailsDiffer(h, rows, i, i + 1);
  }

  /** Swapping two neighbouring rows is caught at the first of them. */
  lemma SwapIsLocalised<E>(h: Hashing<E>, rows: seq<Row<E>>, i: nat)
    requires h.Valid() && Intact(h, rows) && NoAccident(h, rows) && i + 1 < |rows|
    ensures FirstBreak(h, rows[i := rows[i + 1]][i + 1 := rows[i]], i)
  {
    var swapped := rows[i := rows[i + 1]][i + 1 := rows[i]];
    assert swapped[..i] == rows[..i];
    IntactPrefix(h, rows, i);
    assert RowOk(h, rows, i + 1);
    TailsDiffer(h, rows, i, i + 1);
  }
}
