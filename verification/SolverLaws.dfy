/** What the solver's result conserves and respects, in exact arithmetic. */
module SolverLaws {
  import opened Prelude
  import opened Curves
  import opened WaterFilling
  import opened Solver
  import Amounts

  /** A request that reaches the pruning loop. */
  predicate Funded(input: SolveInput) { input.curves != [] && input.budgetRaw > 0 }

  function Decimals(input: SolveInput): nat
    requires Funded(input)
  {
    input.curves[0].decimals
  }

  /** The floored amounts, before the repair. */
  function Floored(input: SolveInput): (r: seq<int>)
    requires Funded(input)
    ensures r != [] && |r| == |Candidates(input)|
  {
    RawAmounts(Units(input), Decimals(input))
  }

  // === Units and raw amounts ===

  lemma FloorKeepsOrder(x: real, y: real, p: real)
    requires x <= y && p > 0.0
    ensures (x * p).Floor <= (y * p).Floor
  {
    assert (y - x) * p >= 0.0;
    assert y * p - x * p == (y - x) * p;
  }

  lemma ToRawKeepsOrder(x: real, y: real, decimals: nat)
    requires x <= y
    ensures ToRaw(x, decimals) <= ToRaw(y, decimals) && ToRaw(x, decimals) >= 0
  {
    var p := Amounts.Pow10(decimals) as real;
    if x > 0.0 {
      FloorKeepsOrder(x, y, p);
      FloorKeepsOrder(0.0, x, p);
    } else if y > 0.0 {
      FloorKeepsOrder(0.0, y, p);
    }
  }

  lemma QuotientTimes(raw: real, p: real)
    requires p > 0.0
    ensures raw / p * p == raw && (raw <= 0.0 <==> raw / p <= 0.0)
  {
    var q := raw / p;
    assert q * p == raw;
    if q <= 0.0 {
      assert (-q) * p >= 0.0;
      assert (-q) * p == -(q * p);
    } else {
      assert q * p > 0.0;
    }
  }

  lemma RawOfUnits(raw: int, decimals: nat)
    ensures ToRaw(ToUnits(raw, decimals), decimals) == if raw <= 0 then 0 else raw
  {
    QuotientTimes(raw as real, Amounts.Pow10(decimals) as real);
  }

  lemma QuotientOrder(a: real, b: real, p: real)
    requires p > 0.0
    ensures a / p >= b / p <==> a >= b
  {
    var x, y := a / p, b / p;
    assert x * p == a && y * p == b;
    if x >= y {
      assert (x - y) * p >= 0.0;
      assert x * p - y * p == (x - y) * p;
    } else {
      assert (y - x) * p > 0.0;
      assert y * p - x * p == (y - x) * p;
    }
  }

  lemma UnitsOrder(a: int, b: int, decimals: nat)
    ensures ToUnits(a, decimals) >= ToUnits(b, decimals) <==> a >= b
  {
    QuotientOrder(a as real, b as real, Amounts.Pow10(decimals) as real);
  }

  lemma OptMinCommutes(a: Option<int>, b: int, decimals: nat)
    ensures OptMinUnits(a, decimals, ToUnits(b, decimals)) == ToUnits(OptMin(a, b), decimals)
  {
    if a.Some? { UnitsOrder(a.value, b, decimals); }
  }

  /** The cap in token units is the cap in raw units. */
  lemma CapForIsCapRaw(input: SolveInput, decimals: nat, c: ReserveCurve)
    ensures ToRaw(CapFor(input, decimals, c), decimals) == CapRaw(input, c)
  {
    var own := OptMin(c.depositCapRaw, input.budgetRaw);
    OptMinCommutes(c.depositCapRaw, input.budgetRaw, decimals);
    OptMinCommutes(input.perProtocolCapRaw, own, decimals);
    RawOfUnits(OptMin(input.perProtocolCapRaw, own), decimals);
  }

  // === Amounts before the repair ===

  lemma UnitsWithinCaps(input: SolveInput, i: nat)
    requires Funded(input) && i < |Units(input)|
    ensures 0.0 <= Units(input)[i] <= CapFor(input, Decimals(input), Candidates(input)[i])
  {
    var decimals := Decimals(input);
    FillWithinCaps(Pools(input, decimals, Candidates(input)), ToUnits(input.budgetRaw, decimals));
  }

  lemma FlooredWithinCaps(input: SolveInput)
    requires Funded(input)
    ensures forall i :: 0 <= i < |Floored(input)| ==>
      0 <= Floored(input)[i] <= CapRaw(input, Candidates(input)[i]) <= input.budgetRaw
  {
    var decimals := Decimals(input);
    forall i | 0 <= i < |Floored(input)|
      ensures 0 <= Floored(input)[i] <= CapRaw(input, Candidates(input)[i]) <= input.budgetRaw
    {
      var c := Candidates(input)[i];
      UnitsWithinCaps(input, i);
      CapForIsCapRaw(input, decimals, c);
      ToRawKeepsOrder(Units(input)[i], CapFor(input, decimals, c), decimals);
    }
  }

  // === The result ===

  /** The result in terms of the repaired amounts. */
  lemma SolveIs(input: SolveInput)
    requires Funded(input)
    ensures var xs, r := Repaired(Floored(input), input.budgetRaw), Solve(input);
      && r.allocations == SortLegs(PositiveLegs(Candidates(input), xs, SumRaw(xs)))
      && r.budgetRaw == input.budgetRaw && r.allocatedRaw == SumRaw(xs)
      && r.unallocatedRaw == input.budgetRaw - SumRaw(xs) && r.blendedNetApr == Round4(Blended(r.allocations))
  {
  }

  predicate AllPositive(legs: seq<AllocationLeg>) { forall i :: 0 <= i < |legs| ==> legs[i].xRaw > 0 }

  predicate Conserves(r: AllocationResult, budgetRaw: int) {
    && r.budgetRaw == budgetRaw
    && r.allocatedRaw + r.unallocatedRaw == budgetRaw
    && LegsTotal(r.allocations) == r.allocatedRaw
    && AllPositive(r.allocations) && LargestFirst(r.allocations)
  }

  lemma LegsConserve(cs: seq<ReserveCurve>, xs: seq<int>, placed: int)
    requires |xs| == |cs| && forall i :: 0 <= i < |xs| ==> xs[i] >= 0
    ensures LegsTotal(SortLegs(PositiveLegs(cs, xs, placed))) == SumRaw(xs)
    ensures AllPositive(SortLegs(PositiveLegs(cs, xs, placed)))
    ensures forall leg :: leg in SortLegs(PositiveLegs(cs, xs, placed)) ==> FromAmount(leg, cs, xs, placed)
  {
    var legs := PositiveLegs(cs, xs, placed);
    PositiveLegsAre(cs, xs, placed);
    SortLegsKeeps(legs);
    SameMembers(SortLegs(legs), legs);
    forall i | 0 <= i < |SortLegs(legs)| ensures SortLegs(legs)[i].xRaw > 0 {
      assert SortLegs(legs)[i] in legs;
    }
  }

  /** Conservation: the legs are positive, largest first, add up to the placed amount, and nothing is lost. */
  lemma SolveConserves(input: SolveInput)
    ensures Conserves(Solve(input), input.budgetRaw)
  {
    if Funded(input) {
      SolveIs(input);
      FlooredWithinCaps(input);
      RepairedWithinBudget(Floored(input), input.budgetRaw);
      var xs := Repaired(Floored(input), input.budgetRaw);
      LegsConserve(Candidates(input), xs, SumRaw(xs));
    }
  }

  lemma SameMembers(a: seq<AllocationLeg>, b: seq<AllocationLeg>)
    requires multiset(a) == multiset(b)
    ensures forall x :: x in a <==> x in b
  {
    assert forall x :: x in a <==> x in multiset(a);
    assert forall x :: x in b <==> x in multiset(b);
  }

  /** No overspending, exactly when the floored amounts overshoot the budget by no more than the largest of them. */
  lemma SolveWithinBudgetIff(input: SolveInput)
    requires Funded(input)
    ensures Solve(input).unallocatedRaw >= 0
       <==> Overshoot(Floored(input), input.budgetRaw) <= Floored(input)[LargestIndex(Floored(input))]
  {
    SolveIs(input);
    FlooredWithinCaps(input);
    RepairedWithinBudget(Floored(input), input.budgetRaw);
  }

  // === Caps that keep the budget ===

  /** The total without the largest. */
  function AllButLargest(xs: seq<int>): int { if xs == [] then 0 else SumRaw(xs) - xs[LargestIndex(xs)] }

  predicate NoneNegative(xs: seq<int>) { forall i :: 0 <= i < |xs| ==> xs[i] >= 0 }

  lemma {:induction false} SumRises(xs: seq<int>, ys: seq<int>)
    requires |xs| == |ys| && forall i :: 0 <= i < |xs| ==> xs[i] <= ys[i]
    ensures SumRaw(xs) <= SumRaw(ys)
  {
    if xs != [] { SumRises(xs[1..], ys[1..]); }
  }

  lemma {:induction false} SumWithout(xs: seq<int>, k: nat)
    requires k < |xs|
    ensures SumRaw(Without(xs, k)) == SumRaw(xs) - xs[k]
  {
    if k == 0 {
      assert Without(xs, 0) == xs[1..];
    } else {
      SumWithout(xs[1..], k - 1);
      assert Without(xs, k)[1..] == Without(xs[1..], k - 1) && Without(xs, k)[0] == xs[0];
    }
  }

  lemma AllButLargestRises(xs: seq<int>, ys: seq<int>)
    requires |xs| == |ys| && forall i :: 0 <= i < |xs| ==> xs[i] <= ys[i]
    ensures AllButLargest(xs) <= AllButLargest(ys)
  {
    if xs != [] {
      var k := LargestIndex(ys);
      SumRawUpdate(xs, k, 0);
      SumRawUpdate(ys, k, 0);
      SumRises(xs[k := 0], ys[k := 0]);
    }
  }

  lemma AllButLargestOfFewer(xs: seq<int>, k: nat)
    requires k < |xs| && NoneNegative(xs)
    ensures AllButLargest(Without(xs, k)) <= AllButLargest(xs)
  {
    var rest, j := Without(xs, k), LargestIndex(xs);
    SumWithout(xs, k);
    if j != k && rest != [] { assert rest[if j < k then j else j - 1] == xs[j]; }
  }

  function CapsOf(input: SolveInput, cs: seq<ReserveCurve>): (r: seq<int>)
    ensures |r| == |cs| && NoneNegative(r)
    ensures forall i :: 0 <= i < |cs| ==> r[i] == CapRaw(input, cs[i])
  {
    seq(|cs|, i requires 0 <= i < |cs| => CapRaw(input, cs[i]))
  }

  lemma CapsOfFewer(input: SolveInput, cs: seq<ReserveCurve>, k: nat)
    requires k < |cs|
    ensures AllButLargest(CapsOf(input, Without(cs, k))) <= AllButLargest(CapsOf(input, cs))
  {
    assert CapsOf(input, Without(cs, k)) == Without(CapsOf(input, cs), k);
    AllButLargestOfFewer(CapsOf(input, cs), k);
  }

  lemma {:induction false} CapsOfKept(input: SolveInput, cs: seq<ReserveCurve>, fill: Filler, min: real)
    requires FillsEach(fill)
    ensures AllButLargest(CapsOf(input, DropDust(cs, fill, min))) <= AllButLargest(CapsOf(input, cs))
    decreases |cs|
  {
    if !NothingToPrune(fill(cs), min) {
      var k := SmallestDust(fill(cs), min);
      CapsOfKept(input, Without(cs, k), fill, min);
      CapsOfFewer(input, cs, k);
    }
  }

  /** The caps of all curves but the largest add up to no more than the budget. */
  predicate CapsFit(input: SolveInput) { AllButLargest(CapsOf(input, input.curves)) <= input.budgetRaw }

  lemma FlooredBelowCaps(input: SolveInput)
    requires Funded(input)
    ensures AllButLargest(Floored(input)) <= AllButLargest(CapsOf(input, input.curves))
  {
    var decimals := Decimals(input);
    FlooredWithinCaps(input);
    AllButLargestRises(Floored(input), CapsOf(input, Candidates(input)));
    FillForFillsEach(input, decimals);
    CapsOfKept(input, input.curves, FillFor(input, decimals), MinPosition(input, decimals));
  }

  /** Then the budget is never exceeded, whatever the rate curves, the minimum position and the largest cap. */
  lemma FittingCapsNeverOverspend(input: SolveInput)
    requires CapsFit(input) && input.budgetRaw >= 0
    ensures 0 <= Solve(input).unallocatedRaw <= input.budgetRaw
  {
    if Funded(input) {
      FlooredBelowCaps(input);
      SolveWithinBudgetIff(input);
    }
    SolveConserves(input);
    LegsNotNegative(Solve(input).allocations);
  }

  lemma TwoCapsFit(input: SolveInput)
    requires |input.curves| <= 2 && input.budgetRaw >= 0
    ensures CapsFit(input)
  {
    var xs := CapsOf(input, input.curves);
    if xs != [] {
      assert SumRaw(xs) == xs[0] + SumRaw(xs[1..]);
      if |xs| == 2 { assert SumRaw(xs[1..]) == xs[1] + SumRaw(xs[2..]); }
    }
  }

  /** With one or two curves that is always so. */
  lemma TwoCurvesNeverOverspend(input: SolveInput)
    requires |input.curves| <= 2 && input.budgetRaw >= 0
    ensures 0 <= Solve(input).unallocatedRaw <= input.budgetRaw
  {
    TwoCapsFit(input);
    FittingCapsNeverOverspend(input);
  }

  lemma {:induction false} LegsNotNegative(legs: seq<AllocationLeg>)
    requires AllPositive(legs)
    ensures LegsTotal(legs) >= 0
  {
    if legs != [] { LegsNotNegative(legs[1..]); }
  }

  /**
   * The leg is the repaired amount of candidate `i`. It stays within the smallest of that curve's caps; the
   * largest leg alone may go beyond it, by the shortfall it takes, at most one unit per candidate.
   */
  predicate LegOfCandidate(input: SolveInput, leg: AllocationLeg, i: nat)
    requires Funded(input)
  {
    var cs, xs := Candidates(input), Floored(input);
    && i < |cs| && cs[i] in input.curves && leg.protocol == cs[i].protocol
    && leg.xRaw == Repaired(xs, input.budgetRaw)[i] > 0 && leg.netSupplyApr == Round4(NetSupplyApr(cs[i], leg.xRaw))
    && leg.xRaw <= CapRaw(input, cs[i]) + if i == LargestIndex(xs) then |cs| else 0
  }

  lemma RepairRaisesTheLargest(xs: seq<int>, budget: int, i: nat)
    requires i < |xs| && forall j :: 0 <= j < |xs| ==> xs[j] >= 0
    ensures Repaired(xs, budget)[i] <= xs[i] + if i == LargestIndex(xs) then |xs| else 0
  {
  }

  lemma SolveRespectsCaps(input: SolveInput)
    ensures forall leg :: leg in Solve(input).allocations ==>
      Funded(input) && exists i: nat :: LegOfCandidate(input, leg, i)
  {
    if Funded(input) {
      var cs, xs := Candidates(input), Repaired(Floored(input), input.budgetRaw);
      SolveIs(input);
      FlooredWithinCaps(input);
      RepairedWithinBudget(Floored(input), input.budgetRaw);
      LegsConserve(cs, xs, SumRaw(xs));
      CandidatesAreCurves(input);
      forall leg | leg in Solve(input).allocations ensures exists i: nat :: LegOfCandidate(input, leg, i) {
        assert FromAmount(leg, cs, xs, SumRaw(xs));
        var i :| 0 <= i < |cs| && leg == LegFor(cs[i], xs[i], SumRaw(xs)) && xs[i] > 0;
        RepairRaisesTheLargest(Floored(input), input.budgetRaw, i);
        assert cs[i] in cs;
        assert LegOfCandidate(input, leg, i);
      }
    }
  }

  lemma CandidatesAreCurves(input: SolveInput)
    requires Funded(input)
    ensures forall c :: c in Candidates(input) ==> c in input.curves
  {
    FillForFillsEach(input, Decimals(input));
  }

  /** A shortfall of at most one raw unit per candidate is placed in full, if anything was placed. */
  lemma RoundingShortfallIsPlaced(input: SolveInput)
    requires Funded(input)
    requires 0 <= -Overshoot(Floored(input), input.budgetRaw) <= |Floored(input)|
    requires Floored(input)[LargestIndex(Floored(input))] > 0
    ensures Solve(input).unallocatedRaw == 0
  {
    SolveIs(input);
    RoundingIsPlaced(Floored(input), input.budgetRaw);
  }

  // === Reported shares and rates ===

  function SharesTotal(legs: seq<AllocationLeg>): real {
    if legs == [] then 0.0 else legs[0].share + SharesTotal(legs[1..])
  }

  predicate SharesOf(legs: seq<AllocationLeg>, placed: int) {
    placed > 0 && forall i :: 0 <= i < |legs| ==> legs[i].share == legs[i].xRaw as real / placed as real
  }

  lemma QuotientsAdd(a: real, b: real, d: real)
    requires d > 0.0
    ensures a / d + b / d == (a + b) / d
  {
  }

  lemma {:induction false} SharesAdd(legs: seq<AllocationLeg>, placed: int)
    requires SharesOf(legs, placed)
    ensures SharesTotal(legs) == LegsTotal(legs) as real / placed as real
  {
    if legs != [] {
      SharesAdd(legs[1..], placed);
      QuotientsAdd(legs[0].xRaw as real, LegsTotal(legs[1..]) as real, placed as real);
    }
  }

  predicate RatesBetween(legs: seq<AllocationLeg>, low: real, high: real) {
    forall i :: 0 <= i < |legs| ==> low <= legs[i].netSupplyApr <= high && legs[i].share >= 0.0
  }

  lemma {:induction false} BlendedBetween(legs: seq<AllocationLeg>, low: real, high: real)
    requires RatesBetween(legs, low, high)
    ensures low * SharesTotal(legs) <= Blended(legs) <= high * SharesTotal(legs)
  {
    if legs != [] {
      BlendedBetween(legs[1..], low, high);
      ProductUp(low, legs[0].netSupplyApr, legs[0].share);
      ProductUp(legs[0].netSupplyApr, high, legs[0].share);
    }
  }

  lemma Round4Rises(v: real, w: real)
    requires v <= w
    ensures Round4(v) <= Round4(w)
  {
    FloorOrder(v * 10000.0 + 0.5, w * 10000.0 + 0.5);
    TenThousandths((v * 10000.0 + 0.5).Floor, (w * 10000.0 + 0.5).Floor);
  }

  lemma FloorOrder(x: real, y: real)
    requires x <= y
    ensures x.Floor <= y.Floor
  {
  }

  lemma TenThousandths(m: int, n: int)
    requires m <= n
    ensures m as real / 10000.0 <= n as real / 10000.0
  {
  }

  lemma NearestOf(x: real, n: int)
    requires x == n as real + 0.5
    ensures x.Floor == n
  {
  }

  lemma Round4Again(v: real)
    ensures Round4(Round4(v)) == Round4(v)
  {
    NearestOf(Round4(v) * 10000.0 + 0.5, (v * 10000.0 + 0.5).Floor);
  }

  lemma RateIsRounded(leg: AllocationLeg, cs: seq<ReserveCurve>, xs: seq<int>, placed: int)
    requires |xs| == |cs| && FromAmount(leg, cs, xs, placed)
    ensures Round4(leg.netSupplyApr) == leg.netSupplyApr
    ensures placed > 0 ==> leg.share == leg.xRaw as real / placed as real
  {
    var i :| 0 <= i < |cs| && leg == LegFor(cs[i], xs[i], placed) && xs[i] > 0;
    Round4Again(NetSupplyApr(cs[i], xs[i]));
  }

  lemma SharesNotNegative(legs: seq<AllocationLeg>, placed: int)
    requires SharesOf(legs, placed) && AllPositive(legs)
    ensures forall i :: 0 <= i < |legs| ==> legs[i].share >= 0.0
  {
    forall i | 0 <= i < |legs| ensures legs[i].share >= 0.0 {
      QuotientTimes(legs[i].xRaw as real, placed as real);
    }
  }

  lemma MeanOfLegs(legs: seq<AllocationLeg>, placed: int, low: real, high: real)
    requires legs != [] && SharesOf(legs, placed) && AllPositive(legs) && LegsTotal(legs) == placed
    requires forall i :: 0 <= i < |legs| ==> low <= legs[i].netSupplyApr <= high
    ensures SharesTotal(legs) == 1.0 && low <= Blended(legs) <= high
  {
    SharesAdd(legs, placed);
    WholeShare(placed as real);
    SharesNotNegative(legs, placed);
    BlendedBetween(legs, low, high);
    AtOne(low, high, Blended(legs), SharesTotal(legs));
  }

  lemma WholeShare(d: real)
    requires d > 0.0
    ensures d / d == 1.0
  {
  }

  lemma AtOne(low: real, high: real, v: real, total: real)
    requires low * total <= v <= high * total && total == 1.0
    ensures low <= v <= high
  {
  }

  lemma ReportedLegs(input: SolveInput)
    requires Funded(input) && Solve(input).allocations != []
    ensures var r := Solve(input);
      && AllPositive(r.allocations) && SharesOf(r.allocations, r.allocatedRaw)
      && LegsTotal(r.allocations) == r.allocatedRaw && r.blendedNetApr == Round4(Blended(r.allocations))
      && forall leg :: leg in r.allocations ==> Round4(leg.netSupplyApr) == leg.netSupplyApr
  {
    var cs, xs, legs := Candidates(input), Repaired(Floored(input), input.budgetRaw), Solve(input).allocations;
    SolveIs(input);
    FlooredWithinCaps(input);
    RepairedWithinBudget(Floored(input), input.budgetRaw);
    LegsConserve(cs, xs, SumRaw(xs));
    LegsNotNegative(legs[1..]);
    forall leg | leg in legs
      ensures Round4(leg.netSupplyApr) == leg.netSupplyApr
      ensures SumRaw(xs) > 0 ==> leg.share == leg.xRaw as real / SumRaw(xs) as real
    {
      RateIsRounded(leg, cs, xs, SumRaw(xs));
    }
  }

  /**
   * What the solver reports of a split: shares that add up to one, and a blended rate between the lowest and
   * the highest of its legs, rounding included.
   */
  lemma BlendedIsAMean(input: SolveInput, low: AllocationLeg, high: AllocationLeg)
    requires var legs := Solve(input).allocations;
      && low in legs && high in legs
      && forall leg :: leg in legs ==> low.netSupplyApr <= leg.netSupplyApr <= high.netSupplyApr
    ensures SharesTotal(Solve(input).allocations) == 1.0
    ensures low.netSupplyApr <= Solve(input).blendedNetApr <= high.netSupplyApr
  {
    assert Funded(input);
    var legs, placed := Solve(input).allocations, Solve(input).allocatedRaw;
    ReportedLegs(input);
    MeanOfLegs(legs, placed, low.netSupplyApr, high.netSupplyApr);
    Round4Rises(low.netSupplyApr, Blended(legs));
    Round4Rises(Blended(legs), high.netSupplyApr);
  }

  // === Several equal flat pools ===

  /** Nothing borrowed, a reward. */
  predicate RewardOnly(c: ReserveCurve) { c.borrowedRaw == 0 && c.rewardSupplyApr > 0.0 }

  /** Such pools, all paying the same reward, and no minimum position. */
  predicate EqualRewards(input: SolveInput) {
    && Funded(input) && input.minPositionRaw.None?
    && forall i :: 0 <= i < |input.curves| ==>
         RewardOnly(input.curves[i]) && input.curves[i].rewardSupplyApr == input.curves[0].rewardSupplyApr
  }

  lemma NoMinimumNoPruning(input: SolveInput)
    requires Funded(input) && input.minPositionRaw.None?
    ensures Candidates(input) == input.curves
  {
  }

  lemma RewardPool(c: ReserveCurve, cap: real)
    requires RewardOnly(c) && cap >= 0.0
    ensures PoolOf(c, cap).marginal(0.0) == c.rewardSupplyApr == PoolOf(c, cap).marginal(cap)
  {
    FlatInterestIsLine(c);
    MarginalOfLine(Interest(c), c.rewardSupplyApr, 0.0);
    MarginalOfLine(Interest(c), c.rewardSupplyApr, cap);
  }

  lemma EveryPoolIsFilled(input: SolveInput)
    requires EqualRewards(input)
    ensures Units(input) == Caps(Pools(input, Decimals(input), input.curves))
  {
    var decimals, reward := Decimals(input), input.curves[0].rewardSupplyApr;
    var ps, budget := Pools(input, decimals, input.curves), ToUnits(input.budgetRaw, decimals);
    NoMinimumNoPruning(input);
    QuotientTimes(input.budgetRaw as real, Amounts.Pow10(decimals) as real);
    forall i | 0 <= i < |ps| ensures ps[i].cap >= 0.0 && ps[i].marginal(0.0) == reward == ps[i].marginal(ps[i].cap) {
      RewardPool(input.curves[i], CapFor(input, decimals, input.curves[i]));
    }
    EqualFlatPoolsAllFill(ps, budget, reward);
  }

  /** Every leg is filled to its cap before the repair, whatever the budget. */
  lemma EveryLegIsFilled(input: SolveInput)
    requires EqualRewards(input)
    ensures Floored(input) == CapsOf(input, input.curves)
  {
    EveryPoolIsFilled(input);
    NoMinimumNoPruning(input);
    forall i | 0 <= i < |Floored(input)| ensures Floored(input)[i] == CapRaw(input, input.curves[i]) {
      CapForIsCapRaw(input, Decimals(input), input.curves[i]);
    }
  }

  /** On them the condition on the caps is exact. */
  lemma EqualRewardsFitIff(input: SolveInput)
    requires EqualRewards(input)
    ensures Solve(input).unallocatedRaw >= 0 <==> CapsFit(input)
  {
    EveryLegIsFilled(input);
    SolveWithinBudgetIff(input);
  }

  /** Several such pools, and no cap below the budget. */
  predicate EqualRewardPools(input: SolveInput) {
    && EqualRewards(input) && |input.curves| >= 2
    && forall i :: 0 <= i < |input.curves| ==> CapRaw(input, input.curves[i]) == input.budgetRaw
  }

  /** Every leg gets the whole budget before the repair. */
  lemma EveryLegGetsTheBudget(input: SolveInput)
    requires EqualRewardPools(input)
    ensures |Floored(input)| == |input.curves|
    ensures forall i :: 0 <= i < |Floored(input)| ==> Floored(input)[i] == input.budgetRaw
  {
    EveryLegIsFilled(input);
  }

  lemma {:induction false} SumOfEqual(xs: seq<int>, v: int)
    requires forall i :: 0 <= i < |xs| ==> xs[i] == v
    ensures SumRaw(xs) == |xs| * v
  {
    if xs != [] {
      SumOfEqual(xs[1..], v);
      assert |xs| * v == (|xs| - 1) * v + v;
    }
  }

  lemma RepairOfEqual(xs: seq<int>, b: int)
    requires |xs| >= 2 && b > 0 && forall i :: 0 <= i < |xs| ==> xs[i] == b
    ensures SumRaw(Repaired(xs, b)) == (|xs| - 1) * b
  {
    var n := |xs|;
    SumOfEqual(xs, b);
    SumRawUpdate(xs, LargestIndex(xs), 0);
    assert n * b == (n - 1) * b + b && (n - 1) * b == (n - 2) * b + b;
    assert (n - 2) * b >= 0;
  }

  lemma AllocatedIs(input: SolveInput)
    requires Funded(input)
    ensures Solve(input).allocatedRaw == SumRaw(Repaired(Floored(input), input.budgetRaw))
    ensures Balanced(Solve(input)) && Solve(input).budgetRaw == input.budgetRaw
  {
  }

  predicate Balanced(r: AllocationResult) { r.unallocatedRaw == r.budgetRaw - r.allocatedRaw }

  /** All but one of `n` legs hold the whole budget. */
  predicate Overspends(r: AllocationResult, n: int) { Balanced(r) && r.allocatedRaw == (n - 1) * r.budgetRaw }

  /**
   * The result for n >= 2 equal reward-only pools: the repair empties one leg and the others keep the whole
   * budget each, so from three pools on the result asks for more than the budget.
   */
  lemma EqualPoolsOverspend(input: SolveInput)
    requires EqualRewardPools(input)
    ensures Overspends(Solve(input), |input.curves|)
  {
    EveryLegGetsTheBudget(input);
    AllocatedIs(input);
    OverspendsFrom(Solve(input), Floored(input));
  }

  lemma OverspendsFrom(r: AllocationResult, xs: seq<int>)
    requires |xs| >= 2 && r.budgetRaw > 0 && forall i :: 0 <= i < |xs| ==> xs[i] == r.budgetRaw
    requires Balanced(r) && r.allocatedRaw == SumRaw(Repaired(xs, r.budgetRaw))
    ensures Overspends(r, |xs|)
  {
    RepairOfEqual(xs, r.budgetRaw);
  }

  lemma EqualOrEmptied(xs: seq<int>, b: int)
    requires |xs| >= 2 && b > 0 && forall i :: 0 <= i < |xs| ==> xs[i] == b
    ensures forall i :: 0 <= i < |xs| ==> Repaired(xs, b)[i] == b || Repaired(xs, b)[i] == 0
  {
    SumOfEqual(xs, b);
    assert |xs| * b == (|xs| - 2) * b + b + b;
    assert (|xs| - 2) * b >= 0;
  }

  predicate WholeBudgetLeg(input: SolveInput, leg: AllocationLeg) {
    leg.xRaw == input.budgetRaw && exists i :: 0 <= i < |input.curves| && leg.protocol == input.curves[i].protocol
  }

  /** Each leg of that result is the whole budget. */
  lemma EqualPoolLegs(input: SolveInput)
    requires EqualRewardPools(input)
    ensures forall leg :: leg in Solve(input).allocations ==> WholeBudgetLeg(input, leg)
  {
    var xs := Repaired(Floored(input), input.budgetRaw);
    SolveIs(input);
    EveryLegGetsTheBudget(input);
    EqualOrEmptied(Floored(input), input.budgetRaw);
    LegsConserve(Candidates(input), xs, SumRaw(xs));
    NoMinimumNoPruning(input);
    forall leg | leg in Solve(input).allocations ensures WholeBudgetLeg(input, leg) {
      assert FromAmount(leg, Candidates(input), xs, SumRaw(xs));
    }
  }
}
