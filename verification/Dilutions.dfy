/**
 * What a deposit earns in a pool whose rate falls with the square of the deposit's dilution: its finite
 * differences fall until the deposit is twice what the pool held and rise from there on, and rounding
 * deposits down moves them by no more than a stated noise.
 */
module Dilutions {
  import opened Prelude
  import opened Curves
  import opened NearOptimal

  // === The reach of the finite difference ===

  function Reach(x: real): real { MaxReal(x * 0.000001, 0.000001) }
  function Lower(x: real): real { MaxReal(0.0, x - Reach(x)) }
  function Upper(x: real): real { x + Reach(x) }

  lemma ReachFacts(x: real, y: real)
    requires 0.0 <= x <= y
    ensures 0.0 <= Lower(x) <= x < Upper(x) && Lower(x) <= Lower(y) && Upper(x) <= Upper(y)
    ensures x < y ==> Upper(x) < Upper(y)
    ensures Upper(x) <= 500001.0 * (Upper(x) - Lower(x))
  {
  }

  // === A diluted pool ===

  /**
   * A pool of `pool` units before the deposit and what a deposit of x earns there: `smooth(x)`, and
   * `rounded(x)` when only `floor(x)` of it dilutes, at the rates named with them. `share(x)` is the part of
   * the pool that was there before, `spot` the rate it paid then, `flat` a rate on top. The slopes are finite
   * differences.
   */
  datatype Dilution = Dilution(
    smooth: real -> real, smoothRate: real -> real, smoothSlope: real -> real,
    rounded: real -> real, roundedRate: real -> real, roundedSlope: real -> real,
    share: real -> real, floor: real -> real, spot: real, pool: real, flat: real, grain: real)

  predicate ShareAt(w: real -> real, t: real, x: real) {
    w(x) * (t + x) == t && x * w(x) == t * (1.0 - w(x)) && 0.0 < w(x) <= 1.0
  }

  predicate EarnsAt(g: real -> real, rate: real -> real, x: real) { g(x) == x * rate(x) }

  /** The rate at `x` when the share is `p`. */
  predicate RateIs(rate: real -> real, spot: real, flat: real, x: real, p: real) {
    rate(x) == spot * (p * p) + flat
  }

  predicate FloorAt(d: Dilution, x: real) { 0.0 <= d.floor(x) <= x <= d.floor(x) + d.grain }

  /** `f` is the finite difference of `g`. */
  predicate SlopeAt(f: real -> real, g: real -> real, x: real) {
    f(x) * (Upper(x) - Lower(x)) == g(Upper(x)) - g(Lower(x))
  }

  ghost predicate Shares(w: real -> real, t: real) { t > 0.0 && forall x :: x >= 0.0 ==> ShareAt(w, t, x) }

  ghost predicate Diluted(d: Dilution) {
    && Shares(d.share, d.pool) && d.spot >= 0.0
    && (forall x :: x >= 0.0 ==> EarnsAt(d.smooth, d.smoothRate, x) && SlopeAt(d.smoothSlope, d.smooth, x))
    && forall x, p :: x >= 0.0 && p == d.share(x) ==> RateIs(d.smoothRate, d.spot, d.flat, x, p)
  }

  ghost predicate RoundsDown(d: Dilution) {
    && d.grain >= 0.0
    && (forall x :: x >= 0.0 ==>
          FloorAt(d, x) && EarnsAt(d.rounded, d.roundedRate, x) && SlopeAt(d.roundedSlope, d.rounded, x))
    && forall x, p :: x >= 0.0 && p == d.share(d.floor(x)) ==> RateIs(d.roundedRate, d.spot, d.flat, x, p)
  }

  lemma ShareOrder(w: real -> real, t: real, x: real, y: real)
    requires t > 0.0 && 0.0 <= x <= y && ShareAt(w, t, x) && ShareAt(w, t, y)
    ensures w(y) <= w(x) && (x < y ==> w(y) < w(x))
  {
    ShareFalls(w(x), w(y), t, x, y);
  }

  lemma ShareFalls(p: real, q: real, t: real, x: real, y: real)
    requires t > 0.0 && 0.0 <= x <= y && p * (t + x) == t && q * (t + y) == t && q > 0.0
    ensures q <= p && (x < y ==> q < p)
  {
    assert (p - q) * (t + x) == p * (t + x) - q * (t + x);
    assert q * (t + y) == q * (t + x) + (y - x) * q;
    ProductOrder(0.0, y - x, q);
    ProductOrder(y - x, 0.0, q);
    ProductOrder(0.0, p - q, t + x);
    ProductOrder(p - q, 0.0, t + x);
  }

  const THIRD: real := 1.0 / 3.0

  /** The pool makes up a third or more exactly while the deposit is at most twice the pool. */
  lemma ShareAboveThird(w: real -> real, t: real, x: real)
    requires t > 0.0 && x >= 0.0 && ShareAt(w, t, x)
    ensures w(x) >= THIRD <==> x <= 2.0 * t
    ensures w(x) <= THIRD <==> x >= 2.0 * t
  {
    ThirdAtTwice(w(x), t, x);
  }

  lemma ThirdAtTwice(p: real, t: real, x: real)
    requires t > 0.0 && x >= 0.0 && p * (t + x) == t
    ensures (p >= THIRD <==> x <= 2.0 * t) && (p <= THIRD <==> x >= 2.0 * t)
  {
    ProductOrder(p, THIRD, t + x);
    ProductOrder(THIRD, p, t + x);
  }

  // === Chords ===

  /** The slope between two deposits, given by their weights. */
  function Chord(p: real, q: real): real { p * q * (p + q - 1.0) }

  lemma Distance(t: real, a: real, b: real, p: real, q: real)
    requires a * p == t * (1.0 - p) && b * q == t * (1.0 - q)
    ensures (b - a) * (p * q) == t * (p - q)
  {
    var ap, bq := a * p, b * q;
    assert (b - a) * (p * q) == bq * p - ap * q;
    assert t * (1.0 - q) * p - t * (1.0 - p) * q == t * (p - q);
  }

  lemma InterestByWeight(spot: real, t: real, r: real, a: real, p: real)
    requires a * p == t * (1.0 - p)
    ensures a * (spot * (p * p) + r) == spot * t * (p * (1.0 - p)) + r * a
  {
    var ap := a * p;
    assert a * (spot * (p * p) + r) == spot * p * ap + r * a;
    assert spot * p * (t * (1.0 - p)) == spot * t * (p * (1.0 - p));
  }

  lemma ChordAlgebra(spot: real, t: real, r: real, a: real, b: real, p: real, q: real)
    requires a * p == t * (1.0 - p) && b * q == t * (1.0 - q)
    ensures b * (spot * (q * q) + r) - a * (spot * (p * p) + r) == (spot * Chord(p, q) + r) * (b - a)
  {
    InterestByWeight(spot, t, r, a, p);
    InterestByWeight(spot, t, r, b, q);
    Distance(t, a, b, p, q);
    var d := (b - a) * (p * q);
    assert (spot * Chord(p, q) + r) * (b - a) == spot * (p + q - 1.0) * d + r * (b - a);
    assert spot * (p + q - 1.0) * (t * (p - q)) == spot * t * (q * (1.0 - q)) - spot * t * (p * (1.0 - p));
  }

  /** Moving one end of a chord: its slope follows the weight while the weights are a third or more. */
  lemma ChordMoves(u: real, v: real, q: real)
    requires 0.0 < u <= v && q > 0.0
    ensures u >= THIRD && q >= THIRD ==> Chord(u, q) <= Chord(v, q)
    ensures v <= THIRD && q <= THIRD && u < v ==> Chord(u, q) > Chord(v, q)
    ensures Chord(u, q) == Chord(q, u)
  {
    var slope := v + u + q - 1.0;
    assert Chord(v, q) - Chord(u, q) == q * ((v - u) * slope);
    if u >= THIRD && q >= THIRD {
      ProductUp(0.0, v - u, slope);
      ProductUp(0.0, (v - u) * slope, q);
    }
    if v <= THIRD && q <= THIRD && u < v {
      assert (v - u) * slope < 0.0 by { assert (v - u) * (0.0 - slope) > 0.0; }
      assert q * ((v - u) * slope) < 0.0 by { assert q * (0.0 - (v - u) * slope) > 0.0; }
    }
  }

  /** Both weights fall and stay at a third or above: so does the slope. */
  lemma ChordFalls(p: real, q: real, p2: real, q2: real)
    requires THIRD <= p2 <= p && THIRD <= q2 <= q
    ensures Chord(p2, q2) <= Chord(p, q)
  {
    ChordMoves(p2, p, q2);
    ChordMoves(q2, q, p);
  }

  lemma ChordRises(p: real, q: real, p2: real, q2: real)
    requires 0.0 < p2 <= p <= THIRD && 0.0 < q2 < q <= THIRD
    ensures Chord(p2, q2) > Chord(p, q)
  {
    if p2 < p { ChordMoves(p2, p, q2); }
    ChordMoves(q2, q, p);
    ChordMoves(p, p, q2);
    ChordMoves(p, p, q);
  }

  lemma ChordRange(p: real, q: real)
    requires THIRD <= p <= 1.0 && THIRD <= q <= 1.0
    ensures -1.0 <= Chord(p, q) <= 1.0
  {
    ChordFalls(1.0, 1.0, p, q);
    ChordFalls(p, q, THIRD, THIRD);
  }

  lemma SmoothAt(d: Dilution, x: real, p: real)
    requires Diluted(d) && x >= 0.0 && p == d.share(x)
    ensures d.smooth(x) == x * (d.spot * (p * p) + d.flat)
  {
    assert EarnsAt(d.smooth, d.smoothRate, x) && RateIs(d.smoothRate, d.spot, d.flat, x, p);
  }

  lemma RoundedAt(d: Dilution, x: real, p: real)
    requires RoundsDown(d) && x >= 0.0 && p == d.share(d.floor(x))
    ensures d.rounded(x) == x * (d.spot * (p * p) + d.flat)
  {
    assert EarnsAt(d.rounded, d.roundedRate, x) && RateIs(d.roundedRate, d.spot, d.flat, x, p);
  }

  lemma ChordSlope(d: Dilution, a: real, b: real)
    requires Diluted(d) && a >= 0.0 && b >= 0.0
    ensures d.smooth(b) - d.smooth(a) == (d.spot * Chord(d.share(a), d.share(b)) + d.flat) * (b - a)
  {
    assert ShareAt(d.share, d.pool, a) && ShareAt(d.share, d.pool, b);
    SmoothAt(d, a, d.share(a));
    SmoothAt(d, b, d.share(b));
    ChordAlgebra(d.spot, d.pool, d.flat, a, b, d.share(a), d.share(b));
  }

  /** The slope the finite difference at `x` takes, for a unit spot rate. */
  function Tilt(w: real -> real, x: real): real { Chord(w(Lower(x)), w(Upper(x))) }

  lemma SameSlope(m: real, n: real, d: real, rise: real)
    requires d > 0.0 && m * d == rise && n * d == rise
    ensures m == n
  {
    ProductOrder(m, n, d);
    ProductOrder(n, m, d);
  }

  lemma MarginalIsTilt(d: Dilution, x: real)
    requires Diluted(d) && x >= 0.0
    ensures d.smoothSlope(x) == d.spot * Tilt(d.share, x) + d.flat
  {
    ReachFacts(x, x);
    assert SlopeAt(d.smoothSlope, d.smooth, x);
    ChordSlope(d, Lower(x), Upper(x));
    SameSlope(d.smoothSlope(x), d.spot * Tilt(d.share, x) + d.flat, Upper(x) - Lower(x),
              d.smooth(Upper(x)) - d.smooth(Lower(x)));
  }

  lemma TiltFalls(w: real -> real, t: real, x: real, y: real)
    requires Shares(w, t) && 0.0 <= x <= y && Upper(y) <= 2.0 * t
    ensures Tilt(w, y) <= Tilt(w, x)
  {
    ReachFacts(x, y);
    ReachFacts(y, y);
    ShareOrder(w, t, Lower(x), Lower(y));
    ShareOrder(w, t, Upper(x), Upper(y));
    ShareAboveThird(w, t, Lower(y));
    ShareAboveThird(w, t, Upper(y));
    ChordFalls(w(Lower(x)), w(Upper(x)), w(Lower(y)), w(Upper(y)));
  }

  lemma TiltRises(w: real -> real, t: real, x: real, y: real)
    requires Shares(w, t) && 0.0 <= x < y && Lower(x) >= 2.0 * t
    ensures Tilt(w, y) > Tilt(w, x)
  {
    ReachFacts(x, y);
    assert ShareAt(w, t, Lower(y)) && ShareAt(w, t, Upper(y));
    ShareOrder(w, t, Lower(x), Lower(y));
    ShareOrder(w, t, Upper(x), Upper(y));
    ShareAboveThird(w, t, Lower(x));
    ShareAboveThird(w, t, Upper(x));
    ChordRises(w(Lower(x)), w(Upper(x)), w(Lower(y)), w(Upper(y)));
  }

  lemma TimesUp(spot: real, a: real, b: real)
    requires spot >= 0.0 && a <= b
    ensures spot * a <= spot * b
  {
    assert spot * (b - a) >= 0.0;
    assert spot * b - spot * a == spot * (b - a);
  }

  lemma TimesUpStrictly(spot: real, a: real, b: real)
    requires spot > 0.0 && a < b
    ensures spot * a < spot * b
  {
    assert spot * (b - a) > 0.0;
    assert spot * b - spot * a == spot * (b - a);
  }

  lemma Above(spot: real, r: real, a: real, b: real, fa: real, fb: real)
    requires fa == spot * a + r && fb == spot * b + r
    ensures spot * a <= spot * b ==> fa <= fb
    ensures spot * a < spot * b ==> fa < fb
  {
  }

  /** Without rounding, the marginal falls while deposits stay within twice the pool. */
  lemma DilutedFalls(d: Dilution, x: real, y: real)
    requires Diluted(d) && 0.0 <= x <= y && Upper(y) <= 2.0 * d.pool
    ensures d.smoothSlope(y) <= d.smoothSlope(x)
  {
    MarginalIsTilt(d, x);
    MarginalIsTilt(d, y);
    TiltFalls(d.share, d.pool, x, y);
    TimesUp(d.spot, Tilt(d.share, y), Tilt(d.share, x));
    Above(d.spot, d.flat, Tilt(d.share, y), Tilt(d.share, x), d.smoothSlope(y), d.smoothSlope(x));
  }

  /** Beyond twice the pool it rises, strictly. */
  lemma DilutedRises(d: Dilution, x: real, y: real)
    requires Diluted(d) && d.spot > 0.0 && 0.0 <= x < y && Lower(x) >= 2.0 * d.pool
    ensures d.smoothSlope(y) > d.smoothSlope(x)
  {
    MarginalIsTilt(d, x);
    MarginalIsTilt(d, y);
    TiltRises(d.share, d.pool, x, y);
    TimesUpStrictly(d.spot, Tilt(d.share, x), Tilt(d.share, y));
    Above(d.spot, d.flat, Tilt(d.share, x), Tilt(d.share, y), d.smoothSlope(x), d.smoothSlope(y));
  }

  // === Tangents ===

  lemma GapBound(e: real, d: real, reach: real)
    requires reach >= 0.0 && -2.0 <= e <= 2.0
    requires d < -reach ==> e >= 0.0
    requires d > reach ==> e <= 0.0
    ensures e * d <= 2.0 * reach
  {
    var e2, d2 := 0.0 - e, 0.0 - d;
    assert e2 * d2 == e * d;
    if d < -reach {
      ProductUp(e2, 0.0, d2);
    } else if d > reach {
      ProductUp(e, 0.0, d);
    } else if d >= 0.0 {
      ProductUp(e, 2.0, d);
    } else {
      ProductUp(e2, 2.0, d2);
    }
  }

  /** `s` is the slope of the chord, `m` the marginal's part of it. */
  lemma ChordAgainst(spot: real, r: real, s: real, m: real, d: real, reach: real)
    requires spot >= 0.0 && reach >= 0.0 && -2.0 <= s - m <= 2.0
    requires (d < -reach ==> m <= s) && (d > reach ==> s <= m)
    ensures (spot * s + r) * d <= (spot * m + r) * d + 2.0 * reach * spot
  {
    GapBound(s - m, d, reach);
    ProductUp((s - m) * d, 2.0 * reach, spot);
    assert (spot * s + r) * d - (spot * m + r) * d == (s - m) * d * spot;
  }

  /** What is needed of a chord of slope `s` and a marginal of slope `m`, both for a unit spot rate. */
  predicate Sided(s: real, m: real, d: real, reach: real) {
    -2.0 <= s - m <= 2.0 && (d < -reach ==> m <= s) && (d > reach ==> s <= m)
  }

  lemma BelowByChord(
    g: real -> real, f: real -> real, x: real, y: real, spot: real, r: real, s: real, m: real, reach: real)
    requires g(y) - g(x) == (spot * s + r) * (y - x) && f(x) == spot * m + r
    requires spot >= 0.0 && reach >= 0.0 && Sided(s, m, y - x, reach)
    ensures Below(g, f, x, y, 2.0 * reach * spot)
  {
    ChordAgainst(spot, r, s, m, y - x, reach);
  }

  /** Outside the reach of the finite difference, the chord from `x` to `y` is on the right side of it. */
  lemma FarChord(w: real -> real, t: real, x: real, y: real)
    requires Shares(w, t) && 0.0 <= x && Upper(x) <= 2.0 * t && 0.0 <= y <= 2.0 * t
    ensures y <= Lower(x) ==> Tilt(w, x) <= Chord(w(x), w(y))
    ensures Upper(x) <= y ==> Chord(w(x), w(y)) <= Tilt(w, x)
  {
    ReachFacts(x, x);
    ShareAboveThird(w, t, x);
    ShareAboveThird(w, t, Upper(x));
    ShareAboveThird(w, t, y);
    ShareOrder(w, t, Lower(x), x);
    ShareOrder(w, t, x, Upper(x));
    if y <= Lower(x) {
      ShareOrder(w, t, y, Lower(x));
      ChordFalls(w(y), w(x), w(Lower(x)), w(Upper(x)));
      ChordTurns(w(x), w(y));
    }
    if Upper(x) <= y {
      ShareOrder(w, t, Upper(x), y);
      ChordFalls(w(Lower(x)), w(Upper(x)), w(x), w(y));
    }
  }

  lemma ChordTurns(p: real, q: real)
    ensures Chord(p, q) == Chord(q, p)
  {
  }

  lemma NearChord(w: real -> real, t: real, x: real, y: real)
    requires Shares(w, t) && 0.0 <= x && Upper(x) <= 2.0 * t && 0.0 <= y <= 2.0 * t
    ensures -2.0 <= Chord(w(x), w(y)) - Tilt(w, x) <= 2.0
  {
    ReachFacts(x, x);
    ShareAboveThird(w, t, x);
    ShareAboveThird(w, t, y);
    ShareAboveThird(w, t, Lower(x));
    ShareAboveThird(w, t, Upper(x));
    ChordRange(w(x), w(y));
    ChordRange(w(Lower(x)), w(Upper(x)));
  }

  lemma DilutedTangent(d: Dilution, x: real, y: real)
    requires Diluted(d) && 0.0 <= x && Upper(x) <= 2.0 * d.pool && 0.0 <= y <= 2.0 * d.pool
    ensures Below(d.smooth, d.smoothSlope, x, y, 2.0 * Reach(x) * d.spot)
  {
    ReachFacts(x, x);
    MarginalIsTilt(d, x);
    ChordSlope(d, x, y);
    FarChord(d.share, d.pool, x, y);
    NearChord(d.share, d.pool, x, y);
    BelowByChord(d.smooth, d.smoothSlope, x, y, d.spot, d.flat,
                 Chord(d.share(x), d.share(y)), Tilt(d.share, x), Reach(x));
  }

  // === Rounding ===

  /** `gap` between the shares at the rounded deposit and at the deposit `x`, whose share is `q`. */
  lemma GapSmall(t: real, moved: real, x: real, p: real, q: real, grain: real, gap: real)
    requires t > 0.0 && x >= 0.0 && 0.0 <= moved <= grain && 0.0 < q <= p <= 1.0
    requires moved * (p * q) == t * gap && x * q == t * (1.0 - q)
    ensures x * gap <= grain * (1.0 - q)
  {
    ProductUp(p, 1.0, q);
    ProductUp(moved, grain, p * q);
    ProductUp(p * q, q, grain);
    var pq := p * q;
    assert grain * pq == pq * grain && grain * q == q * grain;
    GapTimes(t, x, q, grain, gap);
  }

  lemma GapTimes(t: real, x: real, q: real, grain: real, gap: real)
    requires t > 0.0 && x >= 0.0 && t * gap <= grain * q && x * q == t * (1.0 - q)
    ensures x * gap <= grain * (1.0 - q)
  {
    var left, right := t * gap, grain * q;
    ProductUp(left, right, x);
    assert left * x == (x * gap) * t;
    var xq := x * q;
    assert right * x == grain * xq;
    assert grain * (t * (1.0 - q)) == (grain * (1.0 - q)) * t;
    ProductOrder(x * gap, grain * (1.0 - q), t);
  }

  lemma DifferenceOfSquares(x: real, p: real, q: real)
    ensures x * (p * p - q * q) == x * (p - q) * (p + q)
  {
  }

  lemma WithinDouble(gap: real, sum: real, bound: real)
    requires 0.0 <= gap <= bound && 0.0 <= sum <= 2.0
    ensures 0.0 <= gap * sum <= 2.0 * bound
  {
    TimesUp(gap, 0.0, sum);
    TimesUp(gap, sum, 2.0);
  }

  lemma GapAt(t: real, a: real, x: real, p: real, q: real, grain: real, gap: real)
    requires t > 0.0 && 0.0 <= a <= x <= a + grain && gap == p - q
    requires a * p == t * (1.0 - p) && x * q == t * (1.0 - q) && 0.0 < q <= p <= 1.0
    ensures x * gap <= grain * (1.0 - q)
  {
    Distance(t, a, x, p, q);
    GapSmall(t, x - a, x, p, q, grain, gap);
  }

  lemma SquaresFromGap(x: real, p: real, q: real, gap: real, bound: real)
    requires x >= 0.0 && 0.0 < q <= p <= 1.0 && gap == p - q && x * gap <= bound
    ensures 0.0 <= x * (p * p - q * q) <= 2.0 * bound
  {
    TimesUp(x, 0.0, gap);
    WithinDouble(x * gap, p + q, bound);
    DifferenceOfSquares(x, p, q);
  }

  /** `p` at the rounded deposit `a`, `q` at the deposit `x`: squares are no further apart than twice `bound`. */
  lemma SquaresClose(t: real, a: real, x: real, p: real, q: real, grain: real) returns (square: real, bound: real)
    requires t > 0.0 && 0.0 <= a <= x <= a + grain
    requires a * p == t * (1.0 - p) && x * q == t * (1.0 - q) && 0.0 < q <= p <= 1.0
    ensures square == x * (p * p - q * q) && bound == grain * (1.0 - q) && 0.0 <= square <= 2.0 * bound
  {
    square, bound := x * (p * p - q * q), grain * (1.0 - q);
    GapAt(t, a, x, p, q, grain, p - q);
    SquaresFromGap(x, p, q, p - q, bound);
  }

  lemma AddedPlain(x: real, spot: real, r: real, p: real, q: real, iX: real, gX: real, square: real)
    requires iX == x * (spot * (p * p) + r) && gX == x * (spot * (q * q) + r) && square == x * (p * p - q * q)
    ensures iX - gX == spot * square
  {
    assert iX == spot * (x * (p * p)) + x * r;
    assert gX == spot * (x * (q * q)) + x * r;
    assert square == x * (p * p) - x * (q * q);
  }

  /** The most rounding adds. */
  function Rounding(d: Dilution): real { 2.0 * d.spot * d.grain }

  lemma AddedAtMost(spot: real, grain: real, q: real, square: real, bound: real, added: real, most: real)
    requires spot >= 0.0 && grain >= 0.0 && 0.0 < q <= 1.0 && added == spot * square && most == 2.0 * spot * grain
    requires bound == grain * (1.0 - q) && 0.0 <= square <= 2.0 * bound
    ensures 0.0 <= added <= most
  {
    TimesUp(grain, 1.0 - q, 1.0);
    TimesUp(spot, 0.0, square);
    TimesUp(spot, square, 2.0 * grain);
  }

  lemma AddedInProportion(
    t: real, x: real, spot: real, grain: real, q: real, square: real, bound: real, added: real, most: real)
    requires t > 0.0 && x >= 0.0 && spot >= 0.0 && grain >= 0.0 && 0.0 < q <= 1.0 && x * q == t * (1.0 - q)
    requires bound == grain * (1.0 - q) && 0.0 <= square <= 2.0 * bound
    requires added == spot * square && most == 2.0 * spot * grain
    ensures added * t <= most * x
  {
    var xq := x * q;
    TimesUp(x, q, 1.0);
    TimesUp(grain, xq, x);
    assert bound * t == grain * xq;
    TimesUp(t, square, 2.0 * bound);
    TimesUp(spot, t * square, 2.0 * (grain * x));
    assert spot * (t * square) == added * t;
    assert spot * (2.0 * (grain * x)) == most * x;
  }

  /** A deposit `x`, what is left of it after rounding, and the two shares. */
  predicate Pair(t: real, a: real, x: real, p: real, q: real, grain: real) {
    && t > 0.0 && grain >= 0.0 && 0.0 <= a <= x <= a + grain
    && a * p == t * (1.0 - p) && x * q == t * (1.0 - q) && 0.0 < q <= p <= 1.0
  }

  lemma PairAt(d: Dilution, x: real) returns (a: real, p: real, q: real)
    requires Diluted(d) && RoundsDown(d) && x >= 0.0
    ensures Pair(d.pool, a, x, p, q, d.grain) && p == d.share(a) && q == d.share(x) && a == d.floor(x)
  {
    a := d.floor(x);
    assert FloorAt(d, x);
    assert ShareAt(d.share, d.pool, x) && ShareAt(d.share, d.pool, a);
    p, q := d.share(a), d.share(x);
    ShareFalls(p, q, d.pool, a, x);
  }

  lemma SquareOf(t: real, a: real, x: real, p: real, q: real, grain: real, square: real, bound: real)
    requires Pair(t, a, x, p, q, grain) && square == x * (p * p - q * q) && bound == grain * (1.0 - q)
    ensures 0.0 < q <= 1.0 && x * q == t * (1.0 - q) && 0.0 <= square <= 2.0 * bound
  {
    var s, b := SquaresClose(t, a, x, p, q, grain);
  }

  lemma SquareAt(d: Dilution, x: real, p: real, q: real, square: real, bound: real)
    requires Diluted(d) && RoundsDown(d) && x >= 0.0 && p == d.share(d.floor(x)) && q == d.share(x)
    requires square == x * (p * p - q * q) && bound == d.grain * (1.0 - q)
    ensures 0.0 < q <= 1.0 && x * q == d.pool * (1.0 - q) && 0.0 <= square <= 2.0 * bound
  {
    var a, p2, q2 := PairAt(d, x);
    SquareOf(d.pool, a, x, p, q, d.grain, square, bound);
  }

  lemma AddedIs(d: Dilution, x: real, p: real, q: real, square: real)
    requires Diluted(d) && RoundsDown(d) && x >= 0.0 && p == d.share(d.floor(x)) && q == d.share(x)
    requires square == x * (p * p - q * q)
    ensures d.rounded(x) - d.smooth(x) == d.spot * square
  {
    SmoothAt(d, x, q);
    RoundedAt(d, x, p);
    AddedPlain(x, d.spot, d.flat, p, q, d.rounded(x), d.smooth(x), square);
  }

  lemma AddedParts(d: Dilution, x: real, added: real) returns (q: real, square: real, bound: real)
    requires Diluted(d) && RoundsDown(d) && x >= 0.0 && added == d.rounded(x) - d.smooth(x)
    ensures 0.0 < q <= 1.0 && x * q == d.pool * (1.0 - q) && bound == d.grain * (1.0 - q)
    ensures 0.0 <= square <= 2.0 * bound && added == d.spot * square
  {
    var p := d.share(d.floor(x));
    q := d.share(x);
    square, bound := x * (p * p - q * q), d.grain * (1.0 - q);
    SquareAt(d, x, p, q, square, bound);
    AddedIs(d, x, p, q, square);
  }

  /** Rounding adds at most `Rounding`, and less in proportion for deposits small against the pool. */
  lemma AddedBounds(d: Dilution, x: real, added: real, most: real)
    requires Diluted(d) && RoundsDown(d) && x >= 0.0
    requires added == d.rounded(x) - d.smooth(x) && most == Rounding(d)
    ensures 0.0 <= added <= most && added * d.pool <= most * x
  {
    var q, square, bound := AddedParts(d, x, added);
    AddedAtMost(d.spot, d.grain, q, square, bound, added, most);
    AddedInProportion(d.pool, x, d.spot, d.grain, q, square, bound, added, most);
  }

  // === The rounded marginal ===

  lemma OneSide(gap: real, d: real, over: real, hi: real, e: real)
    requires d > 0.0 && gap * d <= over <= e * hi && hi <= 500001.0 * d && e >= 0.0
    ensures gap <= 500001.0 * e
  {
    TimesUp(e, hi, 500001.0 * d);
    assert e * (500001.0 * d) == (500001.0 * e) * d;
    Cancel(gap, 500001.0 * e, d);
  }

  lemma GapOfSlopes(m: real, n: real, d: real, rise: real, other: real)
    requires m * d == rise && n * d == other
    ensures (m - n) * d == rise - other
  {
  }

  /** The first function is above the second, by at most `e` per unit, at both ends of the finite difference. */
  lemma NoisePlain(m: real, n: real, lo: real, hi: real, iLo: real, iHi: real, gLo: real, gHi: real, e: real)
    requires 0.0 <= lo < hi <= 500001.0 * (hi - lo) && e >= 0.0
    requires m * (hi - lo) == iHi - iLo && n * (hi - lo) == gHi - gLo
    requires 0.0 <= iLo - gLo <= e * lo && 0.0 <= iHi - gHi <= e * hi
    ensures m - n <= 500001.0 * e && n - m <= 500001.0 * e
  {
    GapOfSlopes(m, n, hi - lo, iHi - iLo, gHi - gLo);
    GapOfSlopes(n, m, hi - lo, gHi - gLo, iHi - iLo);
    TimesUp(e, lo, hi);
    OneSide(m - n, hi - lo, iHi - gHi, hi, e);
    OneSide(n - m, hi - lo, iLo - gLo, hi, e);
  }

  lemma PerUnit(added: real, e: real, x: real, t: real, most: real)
    requires t > 0.0 && e * t == most && added * t <= most * x
    ensures added <= e * x
  {
    assert (e * x) * t == (e * t) * x;
    Cancel(added, e * x, t);
  }

  lemma AddedPerUnit(d: Dilution, x: real, e: real)
    requires Diluted(d) && RoundsDown(d) && x >= 0.0 && e * d.pool == Rounding(d)
    ensures 0.0 <= d.rounded(x) - d.smooth(x) <= e * x
  {
    AddedBounds(d, x, d.rounded(x) - d.smooth(x), Rounding(d));
    PerUnit(d.rounded(x) - d.smooth(x), e, x, d.pool, Rounding(d));
  }

  lemma NoiseShare(noise: real, t: real, most: real) returns (e: real)
    requires noise * t == 500001.0 * most && noise >= 0.0
    ensures e * t == most && e >= 0.0 && 500001.0 * e == noise
  {
    e := noise / 500001.0;
  }

  /** `noise` is how far rounding moves the marginal at most. */
  lemma MarginalMoves(d: Dilution, x: real, noise: real)
    requires Diluted(d) && RoundsDown(d) && x >= 0.0 && noise >= 0.0 && noise * d.pool == 500001.0 * Rounding(d)
    ensures -noise <= d.roundedSlope(x) - d.smoothSlope(x) <= noise
  {
    ReachFacts(x, x);
    var lo, hi := Lower(x), Upper(x);
    assert SlopeAt(d.roundedSlope, d.rounded, x) && SlopeAt(d.smoothSlope, d.smooth, x);
    var e := NoiseShare(noise, d.pool, Rounding(d));
    AddedPerUnit(d, lo, e);
    AddedPerUnit(d, hi, e);
    NoisePlain(d.roundedSlope(x), d.smoothSlope(x), lo, hi,
               d.rounded(lo), d.rounded(hi), d.smooth(lo), d.smooth(hi), e);
  }

  lemma RoundedHardlyRises(d: Dilution, x: real, y: real, noise: real)
    requires Diluted(d) && RoundsDown(d) && noise >= 0.0 && noise * d.pool == 500001.0 * Rounding(d)
    requires 0.0 <= x <= y && Upper(y) <= 2.0 * d.pool
    ensures d.roundedSlope(y) <= d.roundedSlope(x) + 2.0 * noise
  {
    MarginalMoves(d, x, noise);
    MarginalMoves(d, y, noise);
    DilutedFalls(d, x, y);
  }

  lemma WorseSlope(m: real, n: real, noise: real, step: real, cap: real)
    requires -noise <= m - n <= noise && noise >= 0.0 && -cap <= step <= cap
    ensures n * step <= m * step + noise * cap
  {
    var gap := n - m;
    assert n * step == m * step + gap * step;
    if step >= 0.0 {
      TimesUp(step, gap, noise);
      TimesUp(noise, step, cap);
    } else {
      TimesUp(0.0 - step, 0.0 - noise, gap);
      TimesUp(noise, 0.0 - step, cap);
    }
  }

  lemma SmoothSide(d: Dilution, x: real, y: real, cap: real)
    requires Diluted(d) && 0.0 <= x <= cap && 0.0 <= y <= cap && Upper(cap) <= 2.0 * d.pool
    ensures d.smooth(y) <= d.smooth(x) + d.smoothSlope(x) * (y - x) + 2.0 * d.spot * Reach(cap)
  {
    ReachFacts(x, cap);
    ReachFacts(cap, cap);
    DilutedTangent(d, x, y);
    TimesUp(2.0 * d.spot, Reach(x), Reach(cap));
    assert 2.0 * d.spot * Reach(x) == 2.0 * Reach(x) * d.spot;
  }

  lemma TangentPlain(
    gX: real, gY: real, iX: real, iY: real, n: real, m: real, step: real,
    near: real, most: real, noise: real, cap: real)
    requires gY <= gX + n * step + near && gX <= iX && iY <= gY + most
    requires -noise <= m - n <= noise && noise >= 0.0 && -cap <= step <= cap
    ensures iY <= iX + m * step + (near + most + noise * cap)
  {
    WorseSlope(m, n, noise, step, cap);
  }

  lemma RoundedTangent(d: Dilution, x: real, y: real, cap: real, noise: real, near: real, most: real)
    requires Diluted(d) && RoundsDown(d) && noise >= 0.0 && noise * d.pool == 500001.0 * Rounding(d)
    requires 0.0 <= x <= cap && 0.0 <= y <= cap && Upper(cap) <= 2.0 * d.pool
    requires near == 2.0 * d.spot * Reach(cap) && most == Rounding(d)
    ensures Below(d.rounded, d.roundedSlope, x, y, near + most + noise * cap)
  {
    assert d.smooth(y) <= d.smooth(x) + d.smoothSlope(x) * (y - x) + near by { SmoothSide(d, x, y, cap); }
    assert -noise <= d.roundedSlope(x) - d.smoothSlope(x) <= noise by { MarginalMoves(d, x, noise); }
    assert d.smooth(x) <= d.rounded(x) by { AddedBounds(d, x, d.rounded(x) - d.smooth(x), most); }
    assert d.rounded(y) <= d.smooth(y) + most by { AddedBounds(d, y, d.rounded(y) - d.smooth(y), most); }
    TangentPlain(d.smooth(x), d.smooth(y), d.rounded(x), d.rounded(y), d.smoothSlope(x), d.roundedSlope(x), y - x,
                 near, most, noise, cap);
  }
}
