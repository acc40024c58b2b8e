/** The Herfindahl concentration statistic of risk.py, over reals. */
module Risk {

  // ------------------------------------------------------------------
  // Products and quotients, named so that the solver treats them one at a time
  // ------------------------------------------------------------------

  function Times(a: real, b: real): real { a * b }

  lemma SameSign(a: real, b: real)
    requires (a > 0.0 && b > 0.0) || (a < 0.0 && b < 0.0)
    ensures Times(a, b) > 0.0
  {
  }

  lemma WithZero(a: real, b: real)
    requires a == 0.0 || b == 0.0
    ensures Times(a, b) == 0.0
  {
  }

  lemma WithOne(a: real, b: real)
    requires a == 1.0
    ensures Times(a, b) == b && Times(b, a) == b
  {
  }

  lemma Distribute(a: real, b: real, c: real)
    ensures Times(a, b + c) == Times(a, b) + Times(a, c)
    ensures Times(b - c, a) == Times(b, a) - Times(c, a)
  {
  }

  lemma Associate(a: real, b: real, c: real)
    ensures Times(a, Times(b, c)) == Times(Times(a, b), c) == Times(b, Times(a, c))
  {
  }

  lemma Expand(p: real, c: real)
    ensures Times(p - c, p - c) == Times(p, p) + -2.0 * Times(c, p) + Times(c, c)
  {
  }

  lemma Square(x: real)
    ensures x != 0.0 ==> Times(x, x) > 0.0
    ensures x == 0.0 ==> Times(x, x) == 0.0
  {
    if x == 0.0 {
      WithZero(x, x);
    } else {
      SameSign(x, x);
    }
  }

  lemma Undivide(x: real, t: real)
    requires t != 0.0
    ensures Times(x / t, t) == x
  {
  }

  lemma CancelFactor(a: real, b: real, t: real)
    requires t > 0.0 && Times(a, t) == Times(b, t)
    ensures a == b
  {
    Distribute(t, a, b);
    Distribute(t, b, a);
    if a > b {
      SameSign(a - b, t);
    } else if b > a {
      SameSign(b - a, t);
    }
  }

  // ------------------------------------------------------------------
  // The statistic
  // ------------------------------------------------------------------

  function Sum(xs: seq<real>): real {
    if xs == [] then 0.0 else Sum(xs[..|xs| - 1]) + xs[|xs| - 1]
  }

  function Squares(xs: seq<real>): seq<real> {
    seq(|xs|, i requires 0 <= i < |xs| => Times(xs[i], xs[i]))
  }

  function Normalised(xs: seq<real>): seq<real>
    requires Sum(xs) > 0.0
  {
    var total := Sum(xs);
    seq(|xs|, i requires 0 <= i < |xs| => xs[i] / total)
  }

  function Herfindahl(shares: seq<real>): real {
    if Sum(shares) <= 0.0 then 0.0 else Sum(Squares(Normalised(shares)))
  }

  ghost predicate NonNegative(xs: seq<real>) {
    forall i :: 0 <= i < |xs| ==> xs[i] >= 0.0
  }

  ghost predicate AllAre(xs: seq<real>, x: real) {
    forall i :: 0 <= i < |xs| ==> xs[i] == x
  }

  ghost predicate AllEqual(xs: seq<real>) {
    forall i, j :: 0 <= i < |xs| && 0 <= j < |xs| ==> xs[i] == xs[j]
  }

  // ------------------------------------------------------------------
  // Sums
  // ------------------------------------------------------------------

  function Scale(xs: seq<real>, f: real): seq<real> {
    seq(|xs|, i requires 0 <= i < |xs| => Times(f, xs[i]))
  }

  lemma {:induction false} SumScale(xs: seq<real>, f: real)
    ensures Sum(Scale(xs, f)) == Times(f, Sum(xs))
  {
    if xs == [] {
      WithZero(f, 0.0);
    } else {
      var n := |xs| - 1;
      SumScale(xs[..n], f);
      assert Scale(xs, f)[..n] == Scale(xs[..n], f);
      Distribute(f, Sum(xs[..n]), xs[n]);
    }
  }

  /** Sums of sequences related term by term: zs = xs + a * ys + b. */
  lemma {:induction false} SumOf(xs: seq<real>, ys: seq<real>, zs: seq<real>, a: real, b: real)
    requires |xs| == |ys| == |zs|
    requires forall i :: 0 <= i < |xs| ==> zs[i] == xs[i] + a * ys[i] + b
    ensures Sum(zs) == Sum(xs) + a * Sum(ys) + Times(|xs| as real, b)
  {
    if xs == [] {
      WithZero(0.0, b);
    } else {
      var n := |xs| - 1;
      SumOf(xs[..n], ys[..n], zs[..n], a, b);
      assert |xs| as real == n as real + 1.0;
      WithOne(1.0, b);
      Distribute(b, n as real + 1.0, 1.0);
    }
  }

  lemma {:induction false} SumConstant(xs: seq<real>, x: real)
    requires AllAre(xs, x)
    ensures Sum(xs) == Times(|xs| as real, x)
  {
    if xs == [] {
      WithZero(0.0, x);
    } else {
      var n := |xs| - 1;
      SumConstant(xs[..n], x);
      assert |xs| as real == n as real + 1.0;
      WithOne(1.0, x);
      Distribute(x, n as real + 1.0, 1.0);
    }
  }

  lemma {:induction false} SumNonNegative(xs: seq<real>)
    requires NonNegative(xs)
    ensures Sum(xs) >= 0.0
    ensures Sum(xs) == 0.0 <==> AllAre(xs, 0.0)
  {
    if xs != [] {
      var front := xs[..|xs| - 1];
      SumNonNegative(front);
      assert forall i :: 0 <= i < |front| ==> front[i] == xs[i];
    }
  }

  lemma {:induction false} EachAtMostSum(xs: seq<real>, i: nat)
    requires NonNegative(xs) && i < |xs|
    ensures 0.0 <= xs[i] <= Sum(xs)
    decreases |xs|
  {
    var n := |xs| - 1;
    SumNonNegative(xs[..n]);
    if i < n {
      EachAtMostSum(xs[..n], i);
    }
  }

  lemma {:induction false} PairAtMostSum(xs: seq<real>, i: nat, k: nat)
    requires NonNegative(xs) && i < k < |xs|
    ensures xs[i] + xs[k] <= Sum(xs)
    decreases |xs|
  {
    var n := |xs| - 1;
    if k < n {
      PairAtMostSum(xs[..n], i, k);
    } else {
      EachAtMostSum(xs[..n], i);
    }
  }

  lemma NormalisedSum(xs: seq<real>)
    requires Sum(xs) > 0.0
    ensures Sum(Normalised(xs)) == 1.0
  {
    var total, ps := Sum(xs), Normalised(xs);
    forall i | 0 <= i < |xs|
      ensures Scale(ps, total)[i] == xs[i]
    {
      Undivide(xs[i], total);
    }
    assert Scale(ps, total) == xs;
    SumScale(ps, total);
    WithOne(1.0, total);
    CancelFactor(Sum(ps), 1.0, total);
  }

  // ------------------------------------------------------------------
  // The lower bound
  // ------------------------------------------------------------------

  function SquaredDistances(ps: seq<real>, c: real): seq<real> {
    seq(|ps|, i requires 0 <= i < |ps| => Times(ps[i] - c, ps[i] - c))
  }

  lemma DistanceTerms(ps: seq<real>, c: real)
    ensures forall i :: 0 <= i < |ps| ==>
              SquaredDistances(ps, c)[i] == Squares(ps)[i] + -2.0 * Scale(ps, c)[i] + Times(c, c)
  {
    forall i | 0 <= i < |ps|
      ensures SquaredDistances(ps, c)[i] == Squares(ps)[i] + -2.0 * Scale(ps, c)[i] + Times(c, c)
    {
      Expand(ps[i], c);
    }
  }

  /** The cross term of the squares. */
  lemma ScaledToUniform(ps: seq<real>, c: real)
    requires Sum(ps) == 1.0
    ensures Sum(Scale(ps, c)) == c
  {
    SumScale(ps, c);
    WithOne(1.0, c);
  }

  /** The constant term of the squares. */
  lemma UniformSquares(n: real, c: real)
    requires Times(n, c) == 1.0
    ensures Times(n, Times(c, c)) == c
  {
    Associate(n, c, c);
    WithOne(1.0, c);
  }

  lemma SquaresExpand(ps: seq<real>, c: real)
    ensures Sum(SquaredDistances(ps, c))
            == Sum(Squares(ps)) + -2.0 * Sum(Scale(ps, c)) + Times(|ps| as real, Times(c, c))
  {
    DistanceTerms(ps, c);
    SumOf(Squares(ps), Scale(ps, c), SquaredDistances(ps, c), -2.0, Times(c, c));
  }

  /** What the statistic has above 1/K is the squared distance from the uniform shares. */
  lemma FromUniform(ps: seq<real>, c: real)
    requires Sum(ps) == 1.0 && Times(|ps| as real, c) == 1.0
    ensures Sum(Squares(ps)) == c + Sum(SquaredDistances(ps, c))
  {
    SquaresExpand(ps, c);
    ScaledToUniform(ps, c);
    UniformSquares(|ps| as real, c);
  }

  lemma DistanceSign(ps: seq<real>, c: real)
    ensures Sum(SquaredDistances(ps, c)) >= 0.0
    ensures Sum(SquaredDistances(ps, c)) == 0.0 <==> AllAre(ps, c)
  {
    var ds := SquaredDistances(ps, c);
    forall i | 0 <= i < |ds|
      ensures ds[i] >= 0.0 && (ds[i] == 0.0 <==> ps[i] == c)
    {
      Square(ps[i] - c);
    }
    SumNonNegative(ds);
  }

  lemma UniformIffEqual(shares: seq<real>, c: real)
    requires Sum(shares) > 0.0 && Times(|shares| as real, c) == 1.0
    ensures AllAre(Normalised(shares), c) <==> AllEqual(shares)
  {
    var ps, total := Normalised(shares), Sum(shares);
    forall i | 0 <= i < |shares|
      ensures shares[i] == Times(ps[i], total)
    {
      Undivide(shares[i], total);
    }
    if AllEqual(shares) {
      SumConstant(shares, shares[0]);
      var k, x := |shares| as real, shares[0];
      Associate(c, k, x);
      WithOne(1.0, x);
      assert Times(c, k) == Times(k, c);
      forall i | 0 <= i < |ps|
        ensures ps[i] == c
      {
        CancelFactor(ps[i], c, total);
      }
    }
  }

  /** 1/K at least, with equality exactly when the shares are all equal. */
  lemma LowerBound(shares: seq<real>)
    requires Sum(shares) > 0.0
    ensures shares != [] && Herfindahl(shares) >= 1.0 / |shares| as real
    ensures Herfindahl(shares) == 1.0 / |shares| as real <==> AllEqual(shares)
  {
    var ps, c := Normalised(shares), 1.0 / |shares| as real;
    Undivide(1.0, |shares| as real);
    assert Times(c, |shares| as real) == Times(|shares| as real, c);
    NormalisedSum(shares);
    FromUniform(ps, c);
    DistanceSign(ps, c);
    UniformIffEqual(shares, c);
  }

  // ------------------------------------------------------------------
  // The upper bound
  // ------------------------------------------------------------------

  function Gaps(ps: seq<real>): seq<real> {
    seq(|ps|, i requires 0 <= i < |ps| => Times(ps[i], 1.0 - ps[i]))
  }

  lemma SumGaps(ps: seq<real>)
    ensures Sum(Squares(ps)) == Sum(ps) - Sum(Gaps(ps))
  {
    forall i | 0 <= i < |ps|
      ensures Squares(ps)[i] == ps[i] + -1.0 * Gaps(ps)[i] + 0.0
    {
      Distribute(ps[i], 1.0 - ps[i], ps[i]);
      WithOne(1.0, ps[i]);
    }
    SumOf(ps, Gaps(ps), Squares(ps), -1.0, 0.0);
    WithZero(|ps| as real, 0.0);
  }

  lemma GapsVanish(ps: seq<real>)
    requires Sum(ps) == 1.0 && NonNegative(ps)
    ensures Sum(Gaps(ps)) >= 0.0
    ensures Sum(Gaps(ps)) == 0.0 <==> exists k :: 0 <= k < |ps| && ps[k] == 1.0
  {
    var gaps := Gaps(ps);
    forall i | 0 <= i < |ps|
      ensures gaps[i] >= 0.0 && (gaps[i] == 0.0 <==> ps[i] == 0.0 || ps[i] == 1.0)
    {
      EachAtMostSum(ps, i);
      if 0.0 < ps[i] < 1.0 {
        SameSign(ps[i], 1.0 - ps[i]);
      } else {
        WithZero(ps[i], 1.0 - ps[i]);
      }
    }
    SumNonNegative(gaps);
    SumNonNegative(ps);
    if k :| 0 <= k < |ps| && ps[k] == 1.0 {
      forall i | 0 <= i < |gaps|
        ensures gaps[i] == 0.0
      {
        if i != k {
          PairAtMostSum(ps, if i < k then i else k, if i < k then k else i);
        }
      }
    }
  }

  /** 1 at most, with equality exactly when one share carries everything. */
  lemma UpperBound(shares: seq<real>)
    requires NonNegative(shares) && Sum(shares) > 0.0
    ensures Herfindahl(shares) <= 1.0
    ensures Herfindahl(shares) == 1.0 <==> exists k :: 0 <= k < |shares| && shares[k] == Sum(shares)
  {
    var ps := Normalised(shares);
    NormalisedSum(shares);
    forall i | 0 <= i < |ps|
      ensures 0.0 <= ps[i] && (ps[i] == 1.0 <==> shares[i] == Sum(shares))
    {
      ShareSign(shares[i], Sum(shares));
    }
    SumGaps(ps);
    GapsVanish(ps);
    assert (exists k :: 0 <= k < |ps| && ps[k] == 1.0)
      <==> exists k :: 0 <= k < |shares| && shares[k] == Sum(shares);
  }

  lemma ShareSign(x: real, total: real)
    requires 0.0 <= x && total > 0.0
    ensures 0.0 <= x / total && (x / total == 1.0 <==> x == total)
  {
    var q := x / total;
    Undivide(x, total);
    WithOne(1.0, total);
    if q < 0.0 {
      SameSign(-q, total);
      Distribute(total, 0.0, q);
      WithZero(0.0, total);
    }
    if x == total {
      CancelFactor(q, 1.0, total);
    }
  }

  // ------------------------------------------------------------------
  // Normalisation
  // ------------------------------------------------------------------

  /** Percentages, counts or fractions: one positive factor on every share changes nothing. */
  lemma ScaleInvariant(shares: seq<real>, f: real)
    requires f > 0.0
    ensures Herfindahl(Scale(shares, f)) == Herfindahl(shares)
  {
    var total := Sum(shares);
    SumScale(shares, f);
    if total > 0.0 {
      SameSign(f, total);
      forall i | 0 <= i < |shares|
        ensures Times(f, shares[i]) / Times(f, total) == shares[i] / total
      {
        CancelScale(shares[i], total, f);
      }
      assert Normalised(Scale(shares, f)) == Normalised(shares);
    } else if total < 0.0 {
      SameSign(f, -total);
      Distribute(f, total, -total);
      WithZero(f, 0.0);
    } else {
      WithZero(f, total);
    }
  }

  lemma CancelScale(x: real, total: real, f: real)
    requires f > 0.0 && total > 0.0 && Times(f, total) > 0.0
    ensures Times(f, x) / Times(f, total) == x / total
  {
    var q := x / total;
    Undivide(x, total);
    Undivide(Times(f, x), Times(f, total));
    Associate(q, f, total);
    assert Times(q, Times(f, total)) == Times(f, Times(q, total));
    CancelFactor(Times(f, x) / Times(f, total), q, Times(f, total));
  }
}
