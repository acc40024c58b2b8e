/**
 The sliding-window rate limiter and the latching circuit breaker (_guardrails.py), each checked
 against the full history of calls.  Clock readings are reals and do not run backwards.
 */
module Guardrails {
  import opened Core

  // ------------------------------------------------------------------
  // One deque, evicted from the left
  // ------------------------------------------------------------------

  function Evict<T>(s: seq<T>, at: T -> real, cutoff: real): seq<T> {
    if s != [] && at(s[0]) < cutoff then Evict(s[1..], at, cutoff) else s
  }

  /** The reference: everything in the history that is not older than the cutoff. */
  function Recent<T>(history: seq<T>, at: T -> real, cutoff: real): seq<T> {
    if history == [] then []
    else
      var n := |history| - 1;
      Recent(history[..n], at, cutoff) + if at(history[n]) >= cutoff then [history[n]] else []
  }

  ghost predicate Ordered<T>(s: seq<T>, at: T -> real) {
    forall i, j :: 0 <= i < j < |s| ==> at(s[i]) <= at(s[j])
  }

  lemma {:induction false} RecentOfOrdered<T>(s: seq<T>, at: T -> real, cutoff: real)
    requires Ordered(s, at)
    ensures Evict(s, at, cutoff) == Recent(s, at, cutoff)
    decreases |s|
  {
    if s == [] {
    } else if at(s[0]) < cutoff {
      RecentOfOrdered(s[1..], at, cutoff);
      RecentDropsFirst(s, at, cutoff);
    } else {
      RecentKeepsAll(s, at, cutoff);
    }
  }

  lemma {:induction false} RecentDropsFirst<T>(s: seq<T>, at: T -> real, cutoff: real)
    requires s != [] && at(s[0]) < cutoff
    ensures Recent(s, at, cutoff) == Recent(s[1..], at, cutoff)
    decreases |s|
  {
    if |s| > 1 {
      var n := |s| - 1;
      RecentDropsFirst(s[..n], at, cutoff);
      assert s[..n][1..] == s[1..][..n - 1];
    }
  }

  lemma {:induction false} RecentKeepsAll<T>(s: seq<T>, at: T -> real, cutoff: real)
    requires forall i :: 0 <= i < |s| ==> at(s[i]) >= cutoff
    ensures Recent(s, at, cutoff) == s
    decreases |s|
  {
    if s != [] {
      RecentKeepsAll(s[..|s| - 1], at, cutoff);
    }
  }

  /** Evicting in two rounds with a growing cutoff is the same as one round over the history. */
  lemma {:induction false} RecentTwice<T>(s: seq<T>, at: T -> real, c: real, c': real)
    requires c <= c'
    ensures Recent(Recent(s, at, c), at, c') == Recent(s, at, c')
    decreases |s|
  {
    if s != [] {
      var n := |s| - 1;
      RecentTwice(s[..n], at, c, c');
      var front := Recent(s[..n], at, c);
      if at(s[n]) >= c {
        assert (front + [s[n]])[..|front|] == front;
      } else {
        assert front + [] == front;
      }
    }
  }

  lemma {:induction false} RecentOrdered<T>(s: seq<T>, at: T -> real, cutoff: real)
    requires Ordered(s, at)
    ensures Ordered(Recent(s, at, cutoff), at)
    ensures forall x :: x in Recent(s, at, cutoff) ==> x in s
    decreases |s|
  {
    if s != [] {
      var n := |s| - 1;
      RecentOrdered(s[..n], at, cutoff);
      var front := Recent(s[..n], at, cutoff);
      forall i | 0 <= i < |front|
        ensures at(front[i]) <= at(s[n])
      {
        assert front[i] in s[..n];
      }
    }
  }

  /** The deque holds what the history up to then would leave in the window; one step keeps it so. */
  lemma AppendAndEvict<T>(history: seq<T>, x: T, at: T -> real, c: real, c': real)
    requires Ordered(history + [x], at) && c <= c'
    ensures Evict(Recent(history, at, c) + [x], at, c') == Recent(history + [x], at, c')
  {
    var all := history + [x];
    assert all[..|history|] == history;
    assert Ordered(history, at) by {
      assert forall i :: 0 <= i < |history| ==> all[i] == history[i];
    }
    var deque := Recent(history, at, c);
    RecentOrdered(history, at, c);
    forall i | 0 <= i < |deque|
      ensures at(deque[i]) <= at(x)
    {
      assert deque[i] in history;
      var k :| 0 <= k < |history| && history[k] == deque[i];
      assert all[k] == history[k] && all[|history|] == x;
    }
    RecentOfOrdered(deque + [x], at, c');
    assert (deque + [x])[..|deque|] == deque;
    RecentTwice(history, at, c, c');
  }

  lemma {:induction false} EvictThenAppend<T>(deque: seq<T>, x: T, at: T -> real, cutoff: real)
    requires at(x) >= cutoff
    ensures Evict(deque + [x], at, cutoff) == Evict(deque, at, cutoff) + [x]
    decreases |deque|
  {
    if deque != [] && at(deque[0]) < cutoff {
      assert (deque + [x])[1..] == deque[1..] + [x];
      EvictThenAppend(deque[1..], x, at, cutoff);
    }
  }

  // ------------------------------------------------------------------
  // Rate limiting
  // ------------------------------------------------------------------

  const WINDOW_SECONDS := 60.0

  function Now(t: real): real { t }

  /** One attempt: evict first, then record it. */
  function Hit(bucket: seq<real>, now: real, window: real): seq<real> {
    Evict(bucket, Now, now - window) + [now]
  }

  /** The bucket after a history of attempts, admitted or not: a refused one is recorded too. */
  function Bucket(history: seq<real>): seq<real> {
    if history == [] then []
    else
      var n := |history| - 1;
      Hit(Bucket(history[..n]), history[n], WINDOW_SECONDS)
  }

  predicate Admitted(history: seq<real>, limit: int, k: nat)
    requires k < |history|
  {
    |Bucket(history[..k + 1])| <= limit
  }

  lemma OrderedFront<T>(s: seq<T>, at: T -> real)
    requires s != [] && Ordered(s, at)
    ensures Ordered(s[..|s| - 1], at)
    ensures |s| > 1 ==> at(s[|s| - 2]) <= at(s[|s| - 1])
  {
  }

  /** For a clock that never runs back, the bucket is the history cut to the closed window. */
  lemma {:induction false} BucketIsRecent(history: seq<real>)
    requires Ordered(history, Now) && history != []
    ensures Bucket(history) == Recent(history, Now, history[|history| - 1] - WINDOW_SECONDS)
    decreases |history|
  {
    var n := |history| - 1;
    var front, now := history[..n], history[n];
    assert history == front + [now];
    OrderedFront(history, Now);
    if n > 0 {
      BucketIsRecent(front);
      BucketStep(front, now, front[n - 1] - WINDOW_SECONDS);
    } else {
      BucketStep(front, now, now - WINDOW_SECONDS);
    }
  }

  lemma BucketStep(front: seq<real>, now: real, before: real)
    requires Ordered(front + [now], Now) && before <= now - WINDOW_SECONDS
    requires Bucket(front) == Recent(front, Now, before)
    ensures Bucket(front + [now]) == Recent(front + [now], Now, now - WINDOW_SECONDS)
  {
    assert (front + [now])[..|front|] == front;
    AppendAndEvict(front, now, Now, before, now - WINDOW_SECONDS);
    EvictThenAppend(Bucket(front), now, Now, now - WINDOW_SECONDS);
  }

  ghost function InWindow(history: seq<real>, cutoff: real): set<int> {
    set k | 0 <= k < |history| && history[k] >= cutoff
  }

  lemma {:induction false} CountRecent(history: seq<real>, cutoff: real)
    ensures |InWindow(history, cutoff)| == |Recent(history, Now, cutoff)|
    decreases |history|
  {
    if history != [] {
      var n := |history| - 1;
      CountRecent(history[..n], cutoff);
      var smaller := InWindow(history[..n], cutoff);
      if history[n] >= cutoff {
        assert InWindow(history, cutoff) == smaller + {n};
      } else {
        assert InWindow(history, cutoff) == smaller;
      }
    }
  }

  /** A call is refused exactly when the attempts of its last 60 seconds exceed the limit. */
  lemma AdmittedIff(history: seq<real>, limit: int, k: nat)
    requires Ordered(history, Now) && k < |history|
    ensures Admitted(history, limit, k)
            <==> |set i | 0 <= i <= k && history[i] >= history[k] - WINDOW_SECONDS| <= limit
  {
    var upTo := history[..k + 1];
    BucketIsRecent(upTo);
    CountRecent(upTo, history[k] - WINDOW_SECONDS);
    assert InWindow(upTo, history[k] - WINDOW_SECONDS)
        == set i | 0 <= i <= k && history[i] >= history[k] - WINDOW_SECONDS;
  }

  ghost function AdmittedBetween(history: seq<real>, limit: int, lo: real, hi: real): set<int> {
    set k | 0 <= k < |history| && lo <= history[k] <= hi && Admitted(history, limit, k)
  }

  /** No 60-second window, wherever it starts, ever admits more than the limit. */
  lemma NoBurst(history: seq<real>, limit: int, lo: real)
    requires Ordered(history, Now)
    ensures var admitted := AdmittedBetween(history, limit, lo, lo + WINDOW_SECONDS);
            admitted != {} ==> |admitted| <= limit
  {
    var admitted := AdmittedBetween(history, limit, lo, lo + WINDOW_SECONDS);
    if admitted != {} {
      var last := Largest(admitted);
      AdmittedIff(history, limit, last);
      var attempts := set i | 0 <= i <= last && history[i] >= history[last] - WINDOW_SECONDS;
      assert admitted <= attempts;
      SubsetSize(admitted, attempts);
    }
  }

  lemma Pick<T>(s: set<T>) returns (x: T)
    requires s != {}
    ensures x in s
  {
    x :| x in s;
  }

  lemma {:induction false} Largest(s: set<int>) returns (m: int)
    requires s != {}
    ensures m in s && forall x :: x in s ==> x <= m
    decreases s
  {
    var x := Pick(s);
    m := x;
    if s - {x} != {} {
      var other := Largest(s - {x});
      assert forall y :: y in s ==> y == x || y in s - {x};
      m := if other > x then other else x;
    } else {
      assert forall y :: y in s ==> y == x || y in s - {x};
    }
  }

  class LocalWindowCache {
    var buckets: map<string, seq<real>>

    constructor ()
      ensures buckets == map[]
    {
      buckets := map[];
    }

    method HitKey(key: string, now: real, window: real) returns (count: nat)
      modifies this
      ensures buckets == old(buckets)[key := Hit(if key in old(buckets) then old(buckets[key]) else [], now, window)]
      ensures count == |buckets[key]|
    {
      var bucket := if key in buckets then buckets[key] else [];
      var cutoff := now - window;
      ghost var start := bucket;
      while bucket != [] && bucket[0] < cutoff
        invariant Evict(bucket, Now, cutoff) == Evict(start, Now, cutoff)
      {
        bucket := bucket[1..];
      }
      bucket := bucket + [now];
      buckets := buckets[key := bucket];
      count := |bucket|;
    }

    /** How many recorded hits are still in the window, without evicting any. */
    method Count(key: string, now: real, window: real) returns (count: nat)
      ensures count == |Recent(if key in buckets then buckets[key] else [], Now, now - window)|
    {
      var bucket := if key in buckets then buckets[key] else [];
      count := 0;
      for i := 0 to |bucket|
        invariant count == |Recent(bucket[..i], Now, now - window)|
      {
        assert bucket[..i + 1][..i] == bucket[..i];
        if bucket[i] >= now - window {
          count := count + 1;
        }
      }
      assert bucket[..|bucket|] == bucket;
    }
  }

  // ------------------------------------------------------------------
  // Circuit breaker
  // ------------------------------------------------------------------

  datatype BreakerConfig = BreakerConfig(
    window: real, threshold: real, minSamples: int, volumeCeiling: int, countPolicyDenials: bool)

  datatype Sample = Sample(at: real, error: bool)

  datatype Trip = ErrorRate | Volume

  datatype Opening = Opening(at: real, reason: Trip)

  datatype Breaker = Breaker(events: seq<Sample>, opening: Option<Opening>)

  function At(s: Sample): real { s.at }

  function Errors(events: seq<Sample>): nat {
    if events == [] then 0
    else Errors(events[..|events| - 1]) + if events[|events| - 1].error then 1 else 0
  }

  function ErrorRateOf(events: seq<Sample>): real {
    if events == [] then 0.0 else Errors(events) as real / |events| as real
  }

  function Verdict(cfg: BreakerConfig, events: seq<Sample>): Option<Trip> {
    if |events| >= cfg.minSamples && ErrorRateOf(events) >= cfg.threshold then Some(ErrorRate)
    else if |events| > cfg.volumeCeiling then Some(Volume)
    else None
  }

  function Slide(cfg: BreakerConfig, events: seq<Sample>, x: Sample): seq<Sample> {
    Evict(events + [x], At, x.at - cfg.window)
  }

  /** The reason this outcome trips the breaker, if it does. */
  function Trips(cfg: BreakerConfig, b: Breaker, x: Sample): Option<Trip> {
    if b.opening.Some? then None else Verdict(cfg, Slide(cfg, b.events, x))
  }

  function RecordOutcome(cfg: BreakerConfig, b: Breaker, x: Sample): Breaker {
    var tripped := Trips(cfg, b, x);
    Breaker(Slide(cfg, b.events, x),
            if tripped.Some? then Some(Opening(x.at, tripped.value)) else b.opening)
  }

  datatype BreakerCall = Outcome(sample: Sample) | Reset

  /** The rows that the firewall writes about its breaker. */
  datatype BreakerRow = CircuitOpened(reason: Trip) | CircuitReset

  datatype BreakerRun = BreakerRun(breaker: Breaker, rows: seq<BreakerRow>)

  function StepBreaker(cfg: BreakerConfig, r: BreakerRun, call: BreakerCall): BreakerRun {
    match call
    case Reset => BreakerRun(Breaker([], None), r.rows + [CircuitReset])
    case Outcome(x) =>
      var tripped := Trips(cfg, r.breaker, x);
      BreakerRun(RecordOutcome(cfg, r.breaker, x),
                 r.rows + if tripped.Some? then [CircuitOpened(tripped.value)] else [])
  }

  function RunBreaker(cfg: BreakerConfig, calls: seq<BreakerCall>): BreakerRun {
    if calls == [] then BreakerRun(Breaker([], None), [])
    else StepBreaker(cfg, RunBreaker(cfg, calls[..|calls| - 1]), calls[|calls| - 1])
  }

  /** The outcomes since the last reset. */
  function SinceReset(calls: seq<BreakerCall>): seq<Sample> {
    if calls == [] || calls[|calls| - 1].Reset? then []
    else SinceReset(calls[..|calls| - 1]) + [calls[|calls| - 1].sample]
  }

  lemma {:induction false} SinceResetPrefix(calls: seq<BreakerCall>)
    requires calls != [] && calls[|calls| - 1].Outcome? && Ordered(SinceReset(calls), At)
    ensures Ordered(SinceReset(calls[..|calls| - 1]), At)
  {
    var all, front := SinceReset(calls), SinceReset(calls[..|calls| - 1]);
    assert forall i :: 0 <= i < |front| ==> all[i] == front[i];
  }

  ghost predicate DequeOf(cfg: BreakerConfig, history: seq<Sample>, events: seq<Sample>) {
    && (history == [] ==> events == [])
    && (history != [] ==> events == Recent(history, At, history[|history| - 1].at - cfg.window))
  }

  lemma DequeStep(cfg: BreakerConfig, history: seq<Sample>, events: seq<Sample>, x: Sample)
    requires Ordered(history + [x], At) && DequeOf(cfg, history, events)
    ensures DequeOf(cfg, history + [x], Slide(cfg, events, x))
  {
    var cutoff := x.at - cfg.window;
    if history == [] {
      assert Recent(history, At, cutoff) == [];
      AppendAndEvict(history, x, At, cutoff, cutoff);
    } else {
      OrderedFront(history + [x], At);
      assert (history + [x])[|history| - 1] == history[|history| - 1];
      AppendAndEvict(history, x, At, history[|history| - 1].at - cfg.window, cutoff);
    }
  }

  /** The deque alone: every outcome slides it and a reset empties it. */
  function Slides(cfg: BreakerConfig, calls: seq<BreakerCall>): seq<Sample> {
    if calls == [] || calls[|calls| - 1].Reset? then []
    else Slide(cfg, Slides(cfg, calls[..|calls| - 1]), calls[|calls| - 1].sample)
  }

  lemma {:induction false} EventsSlide(cfg: BreakerConfig, calls: seq<BreakerCall>)
    ensures RunBreaker(cfg, calls).breaker.events == Slides(cfg, calls)
  {
    if calls != [] {
      EventsSlide(cfg, calls[..|calls| - 1]);
    }
  }

  lemma {:induction false} SlidesMeaning(cfg: BreakerConfig, calls: seq<BreakerCall>)
    requires Ordered(SinceReset(calls), At)
    ensures DequeOf(cfg, SinceReset(calls), Slides(cfg, calls))
    decreases |calls|
  {
    if calls != [] && calls[|calls| - 1].Outcome? {
      var n := |calls| - 1;
      SinceResetPrefix(calls);
      SlidesMeaning(cfg, calls[..n]);
      DequeStep(cfg, SinceReset(calls[..n]), Slides(cfg, calls[..n]), calls[n].sample);
    }
  }

  /** The deque is the history since the last reset, cut to the window of the latest outcome. */
  lemma BreakerWindow(cfg: BreakerConfig, calls: seq<BreakerCall>)
    requires Ordered(SinceReset(calls), At)
    ensures DequeOf(cfg, SinceReset(calls), RunBreaker(cfg, calls).breaker.events)
  {
    EventsSlide(cfg, calls);
    SlidesMeaning(cfg, calls);
  }

  // ------------------------------------------------------------------
  // When the breaker trips
  // ------------------------------------------------------------------

  /** Call k is an outcome since the last reset, no older than the window of one at time `now`. */
  ghost predicate Counts(calls: seq<BreakerCall>, k: int, now: real, window: real) {
    && 0 <= k < |calls| && calls[k].Outcome? && calls[k].sample.at >= now - window
    && forall m :: k < m < |calls| ==> calls[m].Outcome?
  }

  ghost function Samples(calls: seq<BreakerCall>, now: real, window: real): set<int> {
    set k | 0 <= k < |calls| && Counts(calls, k, now, window)
  }

  ghost function ErrorSamples(calls: seq<BreakerCall>, now: real, window: real): set<int> {
    set k | 0 <= k < |calls| && Counts(calls, k, now, window) && calls[k].sample.error
  }

  lemma CountsStep(calls: seq<BreakerCall>, now: real, window: real)
    requires calls != [] && calls[|calls| - 1].Outcome?
    ensures var n := |calls| - 1; var last := calls[n].sample;
            && Samples(calls, now, window)
               == Samples(calls[..n], now, window) + (if last.at >= now - window then {n} else {})
            && ErrorSamples(calls, now, window)
               == ErrorSamples(calls[..n], now, window) + (if last.at >= now - window && last.error then {n} else {})
  {
    var n := |calls| - 1;
    forall k | 0 <= k < n
      ensures Counts(calls, k, now, window) <==> Counts(calls[..n], k, now, window)
    {
      assert calls[..n][k] == calls[k];
      assert forall m :: 0 <= m < n ==> calls[..n][m] == calls[m];
    }
  }

  lemma NothingCounts(calls: seq<BreakerCall>, now: real, window: real)
    requires calls == [] || calls[|calls| - 1].Reset?
    ensures Samples(calls, now, window) == {} && ErrorSamples(calls, now, window) == {}
  {
  }

  lemma RecentStep(s: seq<Sample>, x: Sample, cutoff: real)
    ensures Recent(s + [x], At, cutoff) == Recent(s, At, cutoff) + (if x.at >= cutoff then [x] else [])
  {
    assert (s + [x])[..|s|] == s;
  }

  lemma ErrorsStep(s: seq<Sample>, x: Sample)
    ensures Errors(s + [x]) == Errors(s) + if x.error then 1 else 0
  {
    assert (s + [x])[..|s|] == s;
  }

  lemma RecentCounts(s: seq<Sample>, x: Sample, cutoff: real)
    ensures var before, after := Recent(s, At, cutoff), Recent(s + [x], At, cutoff);
            && |after| == |before| + (if x.at >= cutoff then 1 else 0)
            && Errors(after) == Errors(before) + (if x.at >= cutoff && x.error then 1 else 0)
  {
    var before := Recent(s, At, cutoff);
    RecentStep(s, x, cutoff);
    if x.at >= cutoff {
      ErrorsStep(before, x);
    } else {
      assert before + [] == before;
    }
  }

  lemma SetsGrow(calls: seq<BreakerCall>, now: real, window: real)
    requires calls != [] && calls[|calls| - 1].Outcome?
    ensures var n := |calls| - 1; var last := calls[n].sample;
            && |Samples(calls, now, window)|
               == |Samples(calls[..n], now, window)| + (if last.at >= now - window then 1 else 0)
            && |ErrorSamples(calls, now, window)|
               == |ErrorSamples(calls[..n], now, window)| + (if last.at >= now - window && last.error then 1 else 0)
  {
    var n := |calls| - 1;
    CountsStep(calls, now, window);
    assert n !in Samples(calls[..n], now, window) && n !in ErrorSamples(calls[..n], now, window);
  }

  /** The two counts of the deque are the sizes of the two sets of calls. */
  ghost predicate Tallies(calls: seq<BreakerCall>, now: real, window: real) {
    var recent := Recent(SinceReset(calls), At, now - window);
    |Samples(calls, now, window)| == |recent| && |ErrorSamples(calls, now, window)| == Errors(recent)
  }

  lemma TalliesOneMore(calls: seq<BreakerCall>, now: real, window: real)
    requires calls != [] && calls[|calls| - 1].Outcome? && Tallies(calls[..|calls| - 1], now, window)
    ensures Tallies(calls, now, window)
  {
    var n := |calls| - 1;
    SetsGrow(calls, now, window);
    RecentCounts(SinceReset(calls[..n]), calls[n].sample, now - window);
  }

  lemma {:induction false} CountsAreRecent(calls: seq<BreakerCall>, now: real, window: real)
    ensures Tallies(calls, now, window)
    decreases |calls|
  {
    if calls == [] || calls[|calls| - 1].Reset? {
      NothingCounts(calls, now, window);
    } else {
      CountsAreRecent(calls[..|calls| - 1], now, window);
      TalliesOneMore(calls, now, window);
    }
  }

  /** There are enough samples, and the errors are at least the threshold's share of them. */
  predicate TooManyErrors(cfg: BreakerConfig, samples: nat, errors: nat) {
    samples > 0 && samples >= cfg.minSamples && errors as real >= cfg.threshold * samples as real
  }

  /** What an outcome does to a closed breaker, by the number of samples and of errors in its window. */
  function Opens(cfg: BreakerConfig, samples: nat, errors: nat): Option<Trip> {
    if TooManyErrors(cfg, samples, errors) then Some(ErrorRate)
    else if samples > cfg.volumeCeiling then Some(Volume)
    else None
  }

  lemma RateAtLeast(errors: nat, samples: nat, threshold: real)
    requires samples > 0
    ensures errors as real / samples as real >= threshold <==> errors as real >= threshold * samples as real
  {
    var e, n := errors as real, samples as real;
    assert (e / n) * n == e;
    if e / n >= threshold {
      assert (e / n - threshold) * n >= 0.0;
    } else {
      assert (threshold - e / n) * n > 0.0;
    }
  }

  lemma VerdictIsOpens(cfg: BreakerConfig, events: seq<Sample>)
    requires cfg.threshold > 0.0
    ensures Verdict(cfg, events) == Opens(cfg, |events|, Errors(events))
  {
    if events != [] {
      RateAtLeast(Errors(events), |events|, cfg.threshold);
    }
  }

  /** An outcome at a closed breaker. */
  lemma TripIsVerdict(cfg: BreakerConfig, r: BreakerRun, x: Sample)
    requires r.breaker.opening.None?
    ensures var b := StepBreaker(cfg, r, Outcome(x)).breaker; var verdict := Verdict(cfg, b.events);
            b.opening == if verdict.None? then None else Some(Opening(x.at, verdict.value))
  {
  }

  /**
   A closed breaker trips on an outcome because of the error rate exactly if, of the outcomes since the
   last reset that lie in its window, there are enough and the erroneous ones are at least the
   threshold's share; otherwise because of volume exactly if they exceed the ceiling; otherwise not at all.
   */
  lemma TripsExactly(cfg: BreakerConfig, calls: seq<BreakerCall>)
    requires calls != [] && calls[|calls| - 1].Outcome? && cfg.threshold > 0.0 && Ordered(SinceReset(calls), At)
    requires RunBreaker(cfg, calls[..|calls| - 1]).breaker.opening.None?
    ensures var now := calls[|calls| - 1].sample.at;
            var samples, errors := |Samples(calls, now, cfg.window)|, |ErrorSamples(calls, now, cfg.window)|;
            RunBreaker(cfg, calls).breaker.opening
            == if TooManyErrors(cfg, samples, errors) then Some(Opening(now, ErrorRate))
               else if samples > cfg.volumeCeiling then Some(Opening(now, Volume))
               else None
  {
    var n := |calls| - 1;
    var now := calls[n].sample.at;
    DequeCounts(cfg, calls);
    TripIsVerdict(cfg, RunBreaker(cfg, calls[..n]), calls[n].sample);
    VerdictIsOpens(cfg, RunBreaker(cfg, calls).breaker.events);
  }

  lemma DequeCounts(cfg: BreakerConfig, calls: seq<BreakerCall>)
    requires calls != [] && calls[|calls| - 1].Outcome? && Ordered(SinceReset(calls), At)
    ensures var now := calls[|calls| - 1].sample.at; var events := RunBreaker(cfg, calls).breaker.events;
            && |events| == |Samples(calls, now, cfg.window)|
            && Errors(events) == |ErrorSamples(calls, now, cfg.window)|
  {
    var now := calls[|calls| - 1].sample.at;
    BreakerWindow(cfg, calls);
    CountsAreRecent(calls, now, cfg.window);
    assert SinceReset(calls) != [] && SinceReset(calls)[|SinceReset(calls)| - 1] == calls[|calls| - 1].sample;
  }

  /** The breaker is open exactly when the last row about it says so. */
  lemma {:induction false} OpenIffLastRow(cfg: BreakerConfig, calls: seq<BreakerCall>)
    ensures var r := RunBreaker(cfg, calls);
            r.breaker.opening.Some? <==> r.rows != [] && r.rows[|r.rows| - 1].CircuitOpened?
  {
    if calls != [] {
      OpenIffLastRow(cfg, calls[..|calls| - 1]);
    }
  }

  /** An open breaker keeps its opening, reason and time, through any outcomes until a reset. */
  lemma {:induction false} OpenLatches(cfg: BreakerConfig, calls: seq<BreakerCall>, more: seq<BreakerCall>)
    requires RunBreaker(cfg, calls).breaker.opening.Some?
    requires forall k :: 0 <= k < |more| ==> more[k].Outcome?
    ensures RunBreaker(cfg, calls + more).breaker.opening == RunBreaker(cfg, calls).breaker.opening
  {
    if more == [] {
      assert calls + more == calls;
    } else {
      var n := |more| - 1;
      OpenLatches(cfg, calls, more[..n]);
      assert (calls + more)[..|calls| + n] == calls + more[..n];
    }
  }

  ghost predicate ErrorFree(events: seq<Sample>) {
    forall s :: s in events ==> !s.error
  }

  lemma {:induction false} ErrorFreeCount(events: seq<Sample>)
    ensures Errors(events) == 0 <==> ErrorFree(events)
  {
    if events != [] {
      var n := |events| - 1;
      ErrorFreeCount(events[..n]);
      assert events == events[..n] + [events[n]];
    }
  }

  lemma {:induction false} EvictKeepsErrorFree(events: seq<Sample>, cutoff: real)
    requires ErrorFree(events)
    ensures ErrorFree(Evict(events, At, cutoff))
  {
    if events != [] && events[0].at < cutoff {
      EvictKeepsErrorFree(events[1..], cutoff);
    }
  }

  /** With no error among the samples, only call volume can open the breaker, and it does so exactly
      when the window holds more samples than the ceiling. */
  lemma OnlyVolumeTrips(cfg: BreakerConfig, b: Breaker, now: real)
    requires cfg.threshold > 0.0 && ErrorFree(b.events)
    ensures var x := Sample(now, false);
            && ErrorFree(Slide(cfg, b.events, x))
            && Trips(cfg, b, x) != Some(ErrorRate)
            && (Trips(cfg, b, x) == Some(Volume)
                <==> b.opening.None? && |Slide(cfg, b.events, x)| > cfg.volumeCeiling)
  {
    var x := Sample(now, false);
    var grown := b.events + [x];
    assert ErrorFree(grown);
    EvictKeepsErrorFree(grown, now - cfg.window);
    var events := Slide(cfg, b.events, x);
    ErrorFreeCount(events);
    if events != [] {
      assert ErrorRateOf(events) == 0.0 / |events| as real;
    }
  }

  class CircuitBreaker {
    const cfg: BreakerConfig
    var events: seq<Sample>
    var opening: Option<Opening>

    function Value(): Breaker
      reads this
    {
      Breaker(events, opening)
    }

    constructor (cfg: BreakerConfig)
      ensures this.cfg == cfg && Value() == Breaker([], None)
    {
      this.cfg, events, opening := cfg, [], None;
    }

    method Record(now: real, error: bool) returns (tripped: Option<Trip>)
      modifies this
      ensures Value() == RecordOutcome(cfg, old(Value()), Sample(now, error))
      ensures tripped == Trips(cfg, old(Value()), Sample(now, error))
    {
      events := events + [Sample(now, error)];
      var cutoff := now - cfg.window;
      ghost var start := events;
      while events != [] && events[0].at < cutoff
        invariant Evict(events, At, cutoff) == Evict(start, At, cutoff)
        invariant opening == old(opening)
        decreases |events|
      {
        events := events[1..];
      }
      var samples, errors := |events|, 0;
      for i := 0 to |events|
        invariant errors == Errors(events[..i])
        invariant events == Evict(start, At, cutoff) && opening == old(opening)
      {
        assert events[..i + 1][..i] == events[..i];
        if events[i].error {
          errors := errors + 1;
        }
      }
      assert events[..samples] == events;
      var rate := if samples > 0 then errors as real / samples as real else 0.0;
      tripped := None;
      if opening.None? {
        if samples >= cfg.minSamples && rate >= cfg.threshold {
          tripped := Some(ErrorRate);
        } else if samples > cfg.volumeCeiling {
          tripped := Some(Volume);
        }
        if tripped.Some? {
          opening := Some(Opening(now, tripped.value));
        }
      }
    }

    method ResetBreaker()
      modifies this
      ensures Value() == Breaker([], None)
    {
      events, opening := [], None;
    }
  }
}
