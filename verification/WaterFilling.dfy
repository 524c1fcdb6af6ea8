/** The own-impact-aware allocation solver of agent/src/core/allocation.ts, in exact arithmetic. */
module WaterFilling {
  import opened Prelude
  import opened Curves

  const LAMBDA_ITERATIONS: nat := 80
  const X_ITERATIONS: nat := 60

  function Sum(xs: seq<real>): real { if xs == [] then 0.0 else xs[0] + Sum(xs[1..]) }

  /** `w` times two to the power `n`. */
  function TimesPow2(w: real, n: nat): real
    decreases n, w
  {
    if n == 0 then w else 2.0 * TimesPow2(w, n - 1)
  }

  // === Bisection ===

  datatype Bracket = Bracket(lo: real, hi: real)

  function Middle(b: Bracket): real { (b.lo + b.hi) / 2.0 }

  /** `n` halvings; `up` says of the midpoint that the answer lies above it. */
  function Bisect(up: real -> bool, b: Bracket, n: nat): Bracket
    decreases n, b
  {
    if n == 0 then b
    else
      var mid := (b.lo + b.hi) / 2.0;
      Bisect(up, if up(mid) then b.(lo := mid) else b.(hi := mid), n - 1)
  }

  /** An end that has moved carries its verdict, and the bracket shrinks by half each time. */
  predicate Narrowed(up: real -> bool, b: Bracket, r: Bracket, n: nat) {
    && b.lo <= r.lo <= r.hi <= b.hi
    && (r.lo == b.lo || up(r.lo)) && (r.hi == b.hi || !up(r.hi))
    && TimesPow2(r.hi - r.lo, n) == b.hi - b.lo
  }

  lemma {:induction false} BisectNarrows(up: real -> bool, b: Bracket, n: nat)
    requires b.lo <= b.hi
    ensures Narrowed(up, b, Bisect(up, b, n), n)
    decreases n
  {
    if n > 0 {
      var mid := (b.lo + b.hi) / 2.0;
      var next := if up(mid) then b.(lo := mid) else b.(hi := mid);
      BisectNarrows(up, next, n - 1);
    }
  }

  /** What a search of `n` halvings from [0, top] leaves: the top end is not below the answer, the other is or is 0. */
  predicate Bracketed(up: real -> bool, top: real, b: Bracket, n: nat) {
    && 0.0 <= b.lo <= b.hi <= top
    && !up(b.hi) && (b.lo == 0.0 || up(b.lo))
    && TimesPow2(b.hi - b.lo, n) == top
  }

  lemma SearchBracketed(up: real -> bool, top: real, n: nat)
    requires top >= 0.0 && !up(top)
    ensures Bracketed(up, top, Bisect(up, Bracket(0.0, top), n), n)
  {
    BisectNarrows(up, Bracket(0.0, top), n);
  }

  // === Inverting one pool's marginal ===

  /**
   * A candidate as the search sees it: interest earned and marginal yield as functions of the deposit in
   * token units, and the most it may be given. `PoolOf` builds it from a reserve curve.
   */
  datatype Pool = Pool(interest: real -> real, marginal: real -> real, cap: real)

  function AboveLevel(p: Pool, level: real): real -> bool { x => p.marginal(x) > level }

  function BracketX(p: Pool, level: real): Bracket {
    Bisect(AboveLevel(p, level), Bracket(0.0, p.cap), X_ITERATIONS)
  }

  /** The level lies strictly between the marginals at the two ends, so the bisection is needed. */
  predicate Inner(p: Pool, level: real) {
    p.cap > 0.0 && p.marginal(0.0) > level && p.marginal(p.cap) < level
  }

  function SolveX(p: Pool, level: real): real {
    if p.cap <= 0.0 || p.marginal(0.0) <= level then 0.0
    else if p.marginal(p.cap) >= level then p.cap
    else Middle(BracketX(p, level))
  }

  method SolveMarginalEquals(p: Pool, level: real) returns (x: real)
    ensures x == SolveX(p, level)
  {
    if p.cap <= 0.0 {
      return 0.0;
    }
    if p.marginal(0.0) <= level {
      return 0.0;
    }
    if p.marginal(p.cap) >= level {
      return p.cap;
    }
    var lo, hi := 0.0, p.cap;
    for i := 0 to X_ITERATIONS
      invariant Bisect(AboveLevel(p, level), Bracket(lo, hi), X_ITERATIONS - i) == BracketX(p, level)
    {
      var mid := (lo + hi) / 2.0;
      if p.marginal(mid) > level {
        lo := mid;
      } else {
        hi := mid;
      }
    }
    return (lo + hi) / 2.0;
  }

  /** Bisection keeps marginal(lo) > level >= marginal(hi), with hi - lo = cap / 2^60 at the end. */
  lemma BracketXKept(p: Pool, level: real)
    requires Inner(p, level)
    ensures var b := BracketX(p, level);
      && 0.0 <= b.lo <= b.hi <= p.cap
      && p.marginal(b.lo) > level >= p.marginal(b.hi)
      && TimesPow2(b.hi - b.lo, X_ITERATIONS) == p.cap
  {
    BisectNarrows(AboveLevel(p, level), Bracket(0.0, p.cap), X_ITERATIONS);
  }

  lemma SolveXBounds(p: Pool, level: real)
    ensures 0.0 <= SolveX(p, level) <= MaxReal(0.0, p.cap)
  {
    if Inner(p, level) { BracketXKept(p, level); }
  }

  // === The water level ===

  function Caps(ps: seq<Pool>): (r: seq<real>)
    ensures |r| == |ps|
    ensures forall i :: 0 <= i < |ps| ==> r[i] == ps[i].cap
  {
    seq(|ps|, i requires 0 <= i < |ps| => ps[i].cap)
  }

  function AllocAt(ps: seq<Pool>, level: real): (r: seq<real>)
    ensures |r| == |ps|
    ensures forall i :: 0 <= i < |ps| ==> r[i] == SolveX(ps[i], level)
  {
    seq(|ps|, i requires 0 <= i < |ps| => SolveX(ps[i], level))
  }

  function TotalAt(ps: seq<Pool>, level: real): real { Sum(AllocAt(ps, level)) }

  function OverBudget(ps: seq<Pool>, budget: real): real -> bool { level => TotalAt(ps, level) > budget }

  function HighestMarginal(ps: seq<Pool>): (r: real)
    ensures r >= 0.0
  {
    if ps == [] then 0.0 else MaxReal(ps[0].marginal(0.0), HighestMarginal(ps[1..]))
  }

  function LevelBracket(ps: seq<Pool>, budget: real): Bracket {
    Bisect(OverBudget(ps, budget), Bracket(0.0, HighestMarginal(ps)), LAMBDA_ITERATIONS)
  }

  function Level(ps: seq<Pool>, budget: real): real { Middle(LevelBracket(ps, budget)) }

  datatype Solved = Solved(xUnits: seq<real>, marginal: real, iterations: nat)

  function Fill(ps: seq<Pool>, budget: real): Solved {
    if budget >= Sum(Caps(ps)) then Solved(Caps(ps), 0.0, 0)
    else Solved(AllocAt(ps, Level(ps, budget)), Level(ps, budget), LAMBDA_ITERATIONS)
  }

  method WaterFill(ps: seq<Pool>, budget: real) returns (solved: Solved)
    ensures solved == Fill(ps, budget)
  {
    var caps := Caps(ps);
    if budget >= Sum(caps) {
      return Solved(caps, 0.0, 0);
    }
    var lo, hi := 0.0, HighestMarginal(ps);
    var iterations := 0;
    for i := 0 to LAMBDA_ITERATIONS
      invariant Bisect(OverBudget(ps, budget), Bracket(lo, hi), LAMBDA_ITERATIONS - i) == LevelBracket(ps, budget)
      invariant iterations == i
    {
      iterations := iterations + 1;
      var mid := (lo + hi) / 2.0;
      var total := TotalAt(ps, mid);
      if total > budget {
        lo := mid;
      } else {
        hi := mid;
      }
    }
    var level := (lo + hi) / 2.0;
    return Solved(AllocAt(ps, level), level, iterations);
  }

  lemma {:induction false} SumOfZeros(xs: seq<real>)
    requires forall i :: 0 <= i < |xs| ==> xs[i] == 0.0
    ensures Sum(xs) == 0.0
  {
    if xs != [] { SumOfZeros(xs[1..]); }
  }

  lemma {:induction false} HighestIsHighest(ps: seq<Pool>, i: nat)
    requires i < |ps|
    ensures ps[i].marginal(0.0) <= HighestMarginal(ps)
  {
    if i > 0 { HighestIsHighest(ps[1..], i - 1); }
  }

  lemma NothingAtTheTop(ps: seq<Pool>)
    ensures TotalAt(ps, HighestMarginal(ps)) == 0.0
  {
    forall i | 0 <= i < |ps| ensures AllocAt(ps, HighestMarginal(ps))[i] == 0.0 {
      HighestIsHighest(ps, i);
    }
    SumOfZeros(AllocAt(ps, HighestMarginal(ps)));
  }

  /**
   * The search keeps total(hi) <= budget, and lo = 0 or total(lo) > budget, and 80 halvings leave a
   * bracket 2^-80 times as wide as the highest first-unit marginal.
   */
  lemma LevelBracketed(ps: seq<Pool>, budget: real)
    requires budget >= 0.0
    ensures Bracketed(OverBudget(ps, budget), HighestMarginal(ps), LevelBracket(ps, budget), LAMBDA_ITERATIONS)
  {
    NothingAtTheTop(ps);
    SearchBracketed(OverBudget(ps, budget), HighestMarginal(ps), LAMBDA_ITERATIONS);
  }

  /** Every allocation is within its cap. */
  lemma FillWithinCaps(ps: seq<Pool>, budget: real)
    requires forall i :: 0 <= i < |ps| ==> ps[i].cap >= 0.0
    ensures var x := Fill(ps, budget).xUnits;
      |x| == |ps| && forall i :: 0 <= i < |ps| ==> 0.0 <= x[i] <= ps[i].cap
  {
    forall i | 0 <= i < |ps| ensures 0.0 <= SolveX(ps[i], Level(ps, budget)) <= ps[i].cap {
      SolveXBounds(ps[i], Level(ps, budget));
    }
  }

  // === Pools from reserve curves ===

  function Interest(c: ReserveCurve): real -> real {
    x => MaxReal(0.0, x) * NetSupplyApr(c, ToRaw(MaxReal(0.0, x), c.decimals))
  }

  /** Central finite difference, one-sided at zero. */
  function MarginalYield(interest: real -> real): real -> real {
    x =>
      var h := MaxReal(x * 0.000001, 0.000001);
      var lo := MaxReal(0.0, x - h);
      var hi := x + h;
      if hi <= lo then 0.0 else (interest(hi) - interest(lo)) / (hi - lo)
  }

  function PoolOf(c: ReserveCurve, cap: real): Pool { Pool(Interest(c), MarginalYield(Interest(c)), cap) }

  /** Nothing borrowed: utilisation is zero and only the reward is paid. */
  lemma FlatInterest(c: ReserveCurve, x: real)
    requires c.borrowedRaw == 0 && x >= 0.0
    ensures Interest(c)(x) == x * c.rewardSupplyApr
  {
    var raw := ToRaw(x, c.decimals);
    assert ToUnits(0, c.decimals) == 0.0;
    assert UtilizationAfterDeposit(c, raw) == 0.0;
    assert SupplyApr(c, 0.0) == 0.0;
  }

  ghost predicate IsLine(f: real -> real, r: real) { forall z :: z >= 0.0 ==> f(z) == z * r }

  lemma SlopeOfLine(iLo: real, iHi: real, r: real, lo: real, hi: real)
    requires lo < hi && iLo == lo * r && iHi == hi * r
    ensures (iHi - iLo) / (hi - lo) == r
  {
    assert hi * r - lo * r == (hi - lo) * r;
  }

  /** The finite difference of a line is its slope. */
  lemma MarginalOfLine(interest: real -> real, r: real, x: real)
    requires x >= 0.0 && IsLine(interest, r)
    ensures MarginalYield(interest)(x) == r
  {
    var h := MaxReal(x * 0.000001, 0.000001);
    SlopeOfLine(interest(MaxReal(0.0, x - h)), interest(x + h), r, MaxReal(0.0, x - h), x + h);
  }

  lemma FlatInterestIsLine(c: ReserveCurve)
    requires c.borrowedRaw == 0
    ensures IsLine(Interest(c), c.rewardSupplyApr)
  {
    forall z | z >= 0.0 ensures Interest(c)(z) == z * c.rewardSupplyApr {
      FlatInterest(c, z);
    }
  }

  // === Equal pools with a constant marginal ===

  lemma {:induction false} PositiveWidth(w: real, n: nat)
    requires TimesPow2(w, n) > 0.0
    ensures w > 0.0
    decreases n
  {
    if n > 0 { PositiveWidth(w, n - 1); }
  }

  lemma {:induction false} HighestOfEqual(ps: seq<Pool>, r: real)
    requires r > 0.0 && ps != [] && forall i :: 0 <= i < |ps| ==> ps[i].marginal(0.0) == r
    ensures HighestMarginal(ps) == r
  {
    if |ps| > 1 {
      HighestOfEqual(ps[1..], r);
    } else {
      assert HighestMarginal(ps[1..]) == 0.0;
    }
  }

  lemma LevelBelowHighest(ps: seq<Pool>, budget: real)
    requires budget >= 0.0 && HighestMarginal(ps) > 0.0
    ensures Level(ps, budget) < HighestMarginal(ps)
  {
    LevelBracketed(ps, budget);
    var b := LevelBracket(ps, budget);
    PositiveWidth(b.hi - b.lo, LAMBDA_ITERATIONS);
  }

  /** Any level below a constant marginal fills a pool to its cap, so equal pools are filled whatever the budget. */
  lemma EqualFlatPoolsAllFill(ps: seq<Pool>, budget: real, r: real)
    requires ps != [] && budget >= 0.0 && r > 0.0
    requires forall i :: 0 <= i < |ps| ==> ps[i].cap >= 0.0 && ps[i].marginal(0.0) == r == ps[i].marginal(ps[i].cap)
    ensures Fill(ps, budget).xUnits == Caps(ps)
  {
    HighestOfEqual(ps, r);
    LevelBelowHighest(ps, budget);
  }
}
