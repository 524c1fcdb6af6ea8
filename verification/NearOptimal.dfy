/**
 * Water-filling against every other split. Concavity of the interest is a hypothesis of the comparison, with
 * explicit slack; module StraightLines shows curves that meet it and one that does not.
 */
module NearOptimal {
  import opened Prelude
  import opened Curves
  import opened WaterFilling

  /**
   * On [0, cap] the interest is concave with the finite-difference marginal as its slope, up to `slack`:
   * nowhere does the line through a point with that slope fall more than `slack` below the interest.
   */
  ghost predicate ConcaveUpTo(p: Pool, slack: real) { Tangents(p.interest, p.marginal, p.cap, slack) }

  ghost predicate Tangents(g: real -> real, m: real -> real, cap: real, slack: real) {
    forall x, y :: 0.0 <= x <= cap && 0.0 <= y <= cap ==> Below(g, m, x, y, slack)
  }

  predicate Below(g: real -> real, m: real -> real, x: real, y: real, slack: real) {
    g(y) <= g(x) + m(x) * (y - x) + slack
  }

  /** Half the width of the bracket an allocation was taken from, times the marginal's drop across it. */
  function Loss(p: Pool, level: real): real {
    if !Inner(p, level) then 0.0
    else
      var b := BracketX(p, level);
      (b.hi - b.lo) / 2.0 * (p.marginal(b.lo) - p.marginal(b.hi))
  }

  // === One leg, in plain numbers ===

  /**
   * Gains at the ends `gLo`, `gHi` and the middle `gX` of a bracket of half-width `d` and at a point at
   * distance `t` from the middle, with the slopes at the ends and in the middle.
   */
  lemma MiddleBeats(
    gLo: real, gX: real, gHi: real, gY: real, mLo: real, mX: real, mHi: real, t: real, d: real, slack: real)
    requires mLo >= 0.0 >= mHi && d >= 0.0 && slack >= 0.0
    requires gHi <= gX + mX * d + slack && gX <= gHi - mHi * d + slack
    requires gLo <= gX - mX * d + slack && gX <= gLo + mLo * d + slack
    requires gY <= gX + mX * t + slack
    requires gY <= gLo + mLo * (t + d) + slack && gY <= gHi - mHi * (d - t) + slack
    ensures gY <= gX + (mLo * d - mHi * d) + 4.0 * slack
  {
    ProductUp(mHi, 0.0, d);
    ProductUp(0.0, mLo, d);
    Products(mLo, mX, mHi, t, d);
    Weighed(gLo, gX, gHi, gY, mLo * d, mX * d, mHi * d, mLo * (t + d), mX * t, mHi * (d - t), slack);
  }

  lemma Products(mLo: real, mX: real, mHi: real, t: real, d: real)
    requires mLo >= 0.0 >= mHi && d >= 0.0
    ensures mLo * (t + d) <= 0.0 || mHi * (d - t) >= 0.0 || mX * t <= mX * d || mX * t <= -(mX * d)
  {
    if t < -d {
      ProductUp(t + d, 0.0, mLo);
    } else if t > d {
      ProductUp(d - t, 0.0, -mHi);
      assert mHi * (d - t) == -((d - t) * -mHi);
    } else if mX >= 0.0 {
      ProductUp(t, d, mX);
    } else {
      ProductUp(-d, t, -mX);
      assert (-d) * (-mX) == mX * d && t * (-mX) == -(mX * t);
    }
  }

  /** `MiddleBeats` with its products named. */
  lemma Weighed(
    gLo: real, gX: real, gHi: real, gY: real,
    loD: real, xD: real, hiD: real, loT: real, xT: real, hiT: real, slack: real)
    requires loD >= 0.0 >= hiD && slack >= 0.0
    requires gHi <= gX + xD + slack && gX <= gHi - hiD + slack
    requires gLo <= gX - xD + slack && gX <= gLo + loD + slack
    requires gY <= gX + xT + slack && gY <= gLo + loT + slack && gY <= gHi - hiT + slack
    requires loT <= 0.0 || hiT >= 0.0 || xT <= xD || xT <= -xD
    ensures gY <= gX + (loD - hiD) + 4.0 * slack
  {
  }

  /** The tangent at `x`, read at distance `t`. */
  lemma At(g: real -> real, m: real -> real, cap: real, slack: real, x: real, y: real, t: real)
    requires Tangents(g, m, cap, slack) && 0.0 <= x <= cap && 0.0 <= y <= cap && y == x + t
    ensures g(y) <= g(x) + m(x) * t + slack
  {
    assert Below(g, m, x, y, slack);
  }

  lemma Before(g: real -> real, m: real -> real, cap: real, slack: real, x: real, y: real, t: real)
    requires Tangents(g, m, cap, slack) && 0.0 <= x <= cap && 0.0 <= y <= cap && y == x - t
    ensures g(y) <= g(x) - m(x) * t + slack
  {
    assert Below(g, m, x, y, slack);
    assert m(x) * (y - x) == -(m(x) * t);
  }

  /** What the tangents at the two ends and in the middle of a bracket say of each other. */
  lemma TangentsOfBracket(
    g: real -> real, m: real -> real, cap: real, slack: real, lo: real, x: real, hi: real, d: real)
    requires Tangents(g, m, cap, slack) && 0.0 <= lo <= x <= hi <= cap && lo == x - d && hi == x + d
    ensures g(hi) <= g(x) + m(x) * d + slack && g(x) <= g(hi) - m(hi) * d + slack
    ensures g(lo) <= g(x) - m(x) * d + slack && g(x) <= g(lo) + m(lo) * d + slack
  {
    At(g, m, cap, slack, x, hi, d);
    Before(g, m, cap, slack, hi, x, d);
    Before(g, m, cap, slack, x, lo, d);
    At(g, m, cap, slack, lo, x, d);
  }

  lemma MiddleOfBracket(
    g: real -> real, m: real -> real, cap: real, slack: real, lo: real, x: real, hi: real, d: real, y: real, t: real)
    requires Tangents(g, m, cap, slack) && slack >= 0.0 && 0.0 <= y <= cap && y == x + t
    requires 0.0 <= lo <= hi <= cap && d >= 0.0 && lo == x - d && hi == x + d && m(lo) >= 0.0 >= m(hi)
    ensures g(y) <= g(x) + (m(lo) * d - m(hi) * d) + 4.0 * slack
  {
    TangentsOfBracket(g, m, cap, slack, lo, x, hi, d);
    At(g, m, cap, slack, x, y, t);
    At(g, m, cap, slack, lo, y, t + d);
    Before(g, m, cap, slack, hi, y, d - t);
    MiddleBeats(g(lo), g(x), g(hi), g(y), m(lo), m(x), m(hi), t, d, slack);
  }

  // === One leg, net of a price per unit ===

  function Net(p: Pool, level: real): real -> real { x => p.interest(x) - level * x }

  function Slope(p: Pool, level: real): real -> real { x => p.marginal(x) - level }

  lemma NetBelow(p: Pool, level: real, slack: real, x: real, y: real)
    requires Below(p.interest, p.marginal, x, y, slack)
    ensures Below(Net(p, level), Slope(p, level), x, y, slack)
  {
    var m := p.marginal(x);
    assert (m - level) * (y - x) == m * (y - x) - level * (y - x);
    assert level * (y - x) == level * y - level * x;
  }

  lemma NetTangents(p: Pool, level: real, slack: real)
    requires ConcaveUpTo(p, slack)
    ensures Tangents(Net(p, level), Slope(p, level), p.cap, slack)
  {
    forall x, y | 0.0 <= x <= p.cap && 0.0 <= y <= p.cap
      ensures Below(Net(p, level), Slope(p, level), x, y, slack)
    {
      assert Below(p.interest, p.marginal, x, y, slack);
      NetBelow(p, level, slack, x, y);
    }
  }

  lemma Drop(mLo: real, mHi: real, level: real, d: real)
    ensures (mLo - level) * d - (mHi - level) * d == d * (mLo - mHi)
  {
  }

  lemma InnerLeg(p: Pool, level: real, slack: real, y: real)
    requires ConcaveUpTo(p, slack) && slack >= 0.0 && Inner(p, level) && 0.0 <= y <= p.cap
    ensures Net(p, level)(y) <= Net(p, level)(SolveX(p, level)) + Loss(p, level) + 4.0 * slack
  {
    NetTangents(p, level, slack);
    BracketXKept(p, level);
    var b := BracketX(p, level);
    MiddleOfBracket(Net(p, level), Slope(p, level), p.cap, slack, b.lo, Middle(b), b.hi, (b.hi - b.lo) / 2.0,
                    y, y - Middle(b));
    Drop(p.marginal(b.lo), p.marginal(b.hi), level, (b.hi - b.lo) / 2.0);
  }

  /** A leg left empty. */
  lemma EmptyLeg(g: real -> real, m: real -> real, cap: real, slack: real, y: real)
    requires Tangents(g, m, cap, slack) && 0.0 <= y <= cap && m(0.0) <= 0.0
    ensures g(y) <= g(0.0) + slack
  {
    assert Below(g, m, 0.0, y, slack);
    ProductUp(m(0.0), 0.0, y);
    assert y - 0.0 == y;
  }

  /** A leg filled to its cap. */
  lemma FullLeg(g: real -> real, m: real -> real, cap: real, slack: real, y: real)
    requires Tangents(g, m, cap, slack) && 0.0 <= y <= cap && m(cap) >= 0.0
    ensures g(y) <= g(cap) + slack
  {
    assert Below(g, m, cap, y, slack);
    ProductUp(0.0, m(cap), cap - y);
    assert m(cap) * (y - cap) == -(m(cap) * (cap - y));
  }

  lemma CornerLeg(p: Pool, level: real, slack: real, y: real)
    requires ConcaveUpTo(p, slack) && slack >= 0.0 && !Inner(p, level) && 0.0 <= y <= p.cap
    ensures Net(p, level)(y) <= Net(p, level)(SolveX(p, level)) + slack
  {
    if p.cap > 0.0 {
      NetTangents(p, level, slack);
      if p.marginal(0.0) <= level {
        EmptyLeg(Net(p, level), Slope(p, level), p.cap, slack, y);
      } else {
        FullLeg(Net(p, level), Slope(p, level), p.cap, slack, y);
      }
    }
  }

  lemma LegNearOptimal(p: Pool, level: real, slack: real, y: real)
    requires ConcaveUpTo(p, slack) && slack >= 0.0 && 0.0 <= y <= p.cap
    ensures Net(p, level)(y) <= Net(p, level)(SolveX(p, level)) + Loss(p, level) + 4.0 * slack
  {
    if Inner(p, level) { InnerLeg(p, level, slack, y); } else { CornerLeg(p, level, slack, y); }
  }

  // === All legs ===

  function Earned(ps: seq<Pool>, xs: seq<real>): real
    requires |xs| == |ps|
  {
    if ps == [] then 0.0 else ps[0].interest(xs[0]) + Earned(ps[1..], xs[1..])
  }

  /** The sum, over the legs, of the loss of each and four times the concavity slack. */
  function Allowance(ps: seq<Pool>, level: real, slack: real): real {
    if ps == [] then 0.0 else Loss(ps[0], level) + 4.0 * slack + Allowance(ps[1..], level, slack)
  }

  /** What a split earns when every unit placed costs `level`. */
  function NetEarned(ps: seq<Pool>, xs: seq<real>, level: real): real
    requires |xs| == |ps|
  {
    if ps == [] then 0.0 else Net(ps[0], level)(xs[0]) + NetEarned(ps[1..], xs[1..], level)
  }

  function Price(level: real): real -> real { z => level * z }

  function Cost(price: real -> real, xs: seq<real>): real {
    if xs == [] then 0.0 else price(xs[0]) + Cost(price, xs[1..])
  }

  predicate FairAt(price: real -> real, a: real, b: real) {
    price(a + b) == price(a) + price(b) && (a <= b ==> price(a) <= price(b))
  }

  /** A price that is additive and does not fall with the quantity. */
  ghost predicate Fair(price: real -> real) { forall a, b :: FairAt(price, a, b) }

  lemma PriceIsFair(level: real)
    requires level >= 0.0
    ensures Fair(Price(level))
  {
    forall a, b ensures FairAt(Price(level), a, b) {
      assert level * (a + b) == level * a + level * b;
      if a <= b { ProductUp(a, b, level); }
    }
  }

  lemma {:induction false} CostOfTotal(price: real -> real, xs: seq<real>)
    requires Fair(price)
    ensures Cost(price, xs) == price(Sum(xs))
  {
    if xs == [] {
      assert FairAt(price, 0.0, 0.0);
    } else {
      CostOfTotal(price, xs[1..]);
      assert FairAt(price, xs[0], Sum(xs[1..]));
    }
  }

  lemma LessCostsLess(price: real -> real, xs: seq<real>, ys: seq<real>)
    requires Fair(price) && Sum(ys) <= Sum(xs)
    ensures Cost(price, ys) <= Cost(price, xs)
  {
    CostOfTotal(price, xs);
    CostOfTotal(price, ys);
    assert FairAt(price, Sum(ys), Sum(xs));
  }

  lemma {:induction false} PriceOfSplit(ps: seq<Pool>, xs: seq<real>, level: real)
    requires |xs| == |ps|
    ensures NetEarned(ps, xs, level) == Earned(ps, xs) - Cost(Price(level), xs)
  {
    if ps != [] { PriceOfSplit(ps[1..], xs[1..], level); }
  }

  /** A split of money over the pools that respects the caps. */
  predicate WithinCaps(ps: seq<Pool>, ys: seq<real>) {
    |ys| == |ps| && forall i :: 0 <= i < |ps| ==> 0.0 <= ys[i] <= ps[i].cap
  }

  ghost predicate AllConcave(ps: seq<Pool>, slack: real) {
    forall i :: 0 <= i < |ps| ==> ConcaveUpTo(ps[i], slack)
  }

  lemma AllocTail(ps: seq<Pool>, level: real)
    requires ps != []
    ensures AllocAt(ps, level)[1..] == AllocAt(ps[1..], level)
  {
  }

  lemma {:induction false} NetNearOptimal(
    ps: seq<Pool>, level: real, slack: real, xs: seq<real>, ys: seq<real>)
    requires WithinCaps(ps, ys) && AllConcave(ps, slack) && slack >= 0.0 && xs == AllocAt(ps, level)
    ensures NetEarned(ps, ys, level) <= NetEarned(ps, xs, level) + Allowance(ps, level, slack)
  {
    if ps != [] {
      LegNearOptimal(ps[0], level, slack, ys[0]);
      AllocTail(ps, level);
      NetNearOptimal(ps[1..], level, slack, xs[1..], ys[1..]);
    }
  }

  /** At any level whatever: a split that places no more cannot earn much more. */
  lemma AnyLevelNearOptimal(ps: seq<Pool>, level: real, slack: real, ys: seq<real>)
    requires WithinCaps(ps, ys) && AllConcave(ps, slack) && slack >= 0.0
    requires level >= 0.0 && Sum(ys) <= TotalAt(ps, level)
    ensures Earned(ps, ys) <= Earned(ps, AllocAt(ps, level)) + Allowance(ps, level, slack)
  {
    NetNearOptimal(ps, level, slack, AllocAt(ps, level), ys);
    PriceOfSplit(ps, ys, level);
    PriceOfSplit(ps, AllocAt(ps, level), level);
    PriceIsFair(level);
    LessCostsLess(Price(level), AllocAt(ps, level), ys);
  }

  lemma LevelNotNegative(ps: seq<Pool>, budget: real)
    requires budget >= 0.0
    ensures Level(ps, budget) >= 0.0
  {
    LevelBracketed(ps, budget);
  }

  // === Full capacity ===

  /** What a leg at its cap can lose against a smaller one: the marginal there, if negative, times the cap. */
  function Overfill(p: Pool): real { MaxReal(0.0, 0.0 - p.marginal(p.cap)) * p.cap }

  function FullAllowance(ps: seq<Pool>, slack: real): real {
    if ps == [] then 0.0 else Overfill(ps[0]) + slack + FullAllowance(ps[1..], slack)
  }

  lemma AtMostOverfill(m: real, cap: real, y: real, over: real)
    requires 0.0 <= y <= cap && over == MaxReal(0.0, 0.0 - m)
    ensures m * (y - cap) <= over * cap
  {
    assert m * (y - cap) == (0.0 - m) * (cap - y);
    ProductUp(0.0 - m, over, cap - y);
    ProductUp(cap - y, cap, over);
  }

  lemma CappedLeg(p: Pool, slack: real, y: real)
    requires ConcaveUpTo(p, slack) && 0.0 <= y <= p.cap
    ensures p.interest(y) <= p.interest(p.cap) + Overfill(p) + slack
  {
    assert Below(p.interest, p.marginal, p.cap, y, slack);
    AtMostOverfill(p.marginal(p.cap), p.cap, y, MaxReal(0.0, 0.0 - p.marginal(p.cap)));
  }

  lemma CapsTail(ps: seq<Pool>)
    requires ps != []
    ensures Caps(ps)[1..] == Caps(ps[1..])
  {
  }

  lemma {:induction false} CapsNearOptimal(ps: seq<Pool>, slack: real, xs: seq<real>, ys: seq<real>)
    requires WithinCaps(ps, ys) && AllConcave(ps, slack) && xs == Caps(ps)
    ensures Earned(ps, ys) <= Earned(ps, xs) + FullAllowance(ps, slack)
  {
    if ps != [] {
      CappedLeg(ps[0], slack, ys[0]);
      CapsTail(ps);
      CapsNearOptimal(ps[1..], slack, xs[1..], ys[1..]);
    }
  }

  /** By how much a split can beat the returned one, in the branch the budget decides. */
  function AllowanceFor(ps: seq<Pool>, budget: real, slack: real): real {
    if budget >= Sum(Caps(ps)) then FullAllowance(ps, slack) else Allowance(ps, Level(ps, budget), slack)
  }

  /**
   * Water-filling is near-optimal. No split within the caps that places no more than the returned allocation
   * earns more than it by more than the sum, over the legs, of half the bracket width times the marginal's drop
   * across it when the budget is below total capacity, and of the cap times what the marginal there is below
   * zero when it is not (plus the concavity slack).
   */
  lemma WaterFillNearOptimal(ps: seq<Pool>, budget: real, slack: real, ys: seq<real>)
    requires budget >= 0.0 && AllConcave(ps, slack) && slack >= 0.0
    requires WithinCaps(ps, ys) && Sum(ys) <= Sum(Fill(ps, budget).xUnits)
    ensures |Fill(ps, budget).xUnits| == |ps|
    ensures Earned(ps, ys) <= Earned(ps, Fill(ps, budget).xUnits) + AllowanceFor(ps, budget, slack)
  {
    if budget >= Sum(Caps(ps)) {
      CapsNearOptimal(ps, slack, Caps(ps), ys);
    } else {
      LevelNotNegative(ps, budget);
      AnyLevelNearOptimal(ps, Level(ps, budget), slack, ys);
    }
  }

  lemma {:induction false} EarnedUpdate(ps: seq<Pool>, xs: seq<real>, i: nat, y: real)
    requires |xs| == |ps| && i < |ps|
    ensures Earned(ps, xs[i := y]) == Earned(ps, xs) - ps[i].interest(xs[i]) + ps[i].interest(y)
  {
    if i == 0 {
      assert xs[i := y][1..] == xs[1..];
    } else {
      EarnedUpdate(ps[1..], xs[1..], i - 1, y);
      assert xs[i := y][1..] == xs[1..][i - 1 := y];
    }
  }

  /**
   * The part for negative marginals is needed: at full capacity a leg whose marginal at some smaller deposit is
   * already negative enough earns strictly more, and the whole split with it, when it gets that deposit.
   */
  lemma OverfilledLegIsBeaten(ps: seq<Pool>, budget: real, slack: real, i: nat, y: real)
    requires budget >= Sum(Caps(ps)) && i < |ps| && ConcaveUpTo(ps[i], slack)
    requires 0.0 <= y <= ps[i].cap && ps[i].marginal(y) * (ps[i].cap - y) + slack < 0.0
    ensures |Fill(ps, budget).xUnits| == |ps|
    ensures Earned(ps, Fill(ps, budget).xUnits[i := y]) > Earned(ps, Fill(ps, budget).xUnits)
  {
    assert Below(ps[i].interest, ps[i].marginal, y, ps[i].cap, slack);
    EarnedUpdate(ps, Caps(ps), i, y);
  }

  lemma LineTangent(iX: real, iY: real, m: real, r: real, x: real, y: real)
    requires iX == x * r && iY == y * r && m == r
    ensures iY <= iX + m * (y - x) + 0.0
  {
    assert r * (y - x) == y * r - x * r;
  }

  lemma LineConcave(interest: real -> real, r: real, cap: real)
    requires IsLine(interest, r)
    ensures Tangents(interest, MarginalYield(interest), cap, 0.0)
  {
    forall x, y | 0.0 <= x <= cap && 0.0 <= y <= cap ensures Below(interest, MarginalYield(interest), x, y, 0.0) {
      MarginalOfLine(interest, r, x);
      LineTangent(interest(x), interest(y), MarginalYield(interest)(x), r, x, y);
    }
  }

  /** The hypothesis is met, with no slack, by pools whose rate does not depend on the deposit. */
  lemma FlatPoolsAreConcave(c: ReserveCurve, cap: real)
    requires c.borrowedRaw == 0
    ensures ConcaveUpTo(PoolOf(c, cap), 0.0)
  {
    FlatInterestIsLine(c);
    LineConcave(Interest(c), c.rewardSupplyApr, cap);
  }
}
