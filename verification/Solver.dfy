/** Pruning of dust legs, conversion to raw units and repair: `solveAllocation` of agent/src/core/allocation.ts. */
module Solver {
  import opened Prelude
  import opened StrategyLedger
  import opened Curves
  import opened WaterFilling

  datatype SolveInput = SolveInput(
    curves: seq<ReserveCurve>, budgetRaw: int, perProtocolCapRaw: Option<int>, minPositionRaw: Option<int>)

  datatype AllocationLeg = AllocationLeg(protocol: Protocol, xRaw: int, netSupplyApr: real, share: real)

  datatype AllocationResult = AllocationResult(
    allocations: seq<AllocationLeg>, blendedNetApr: real, marginalApr: real,
    budgetRaw: int, allocatedRaw: int, unallocatedRaw: int, iterations: nat)

  // === Raw amounts ===

  function SumRaw(xs: seq<int>): int { if xs == [] then 0 else xs[0] + SumRaw(xs[1..]) }

  lemma {:induction false} SumRawUpdate(xs: seq<int>, k: nat, v: int)
    requires k < |xs|
    ensures SumRaw(xs[k := v]) == SumRaw(xs) - xs[k] + v
  {
    if k == 0 {
      assert xs[k := v][1..] == xs[1..];
    } else {
      SumRawUpdate(xs[1..], k - 1, v);
      assert xs[k := v][1..] == xs[1..][k - 1 := v];
    }
  }

  /** The first of the largest amounts. */
  predicate IsLargest(xs: seq<int>, k: nat) {
    && k < |xs|
    && (forall i :: 0 <= i < |xs| ==> xs[i] <= xs[k])
    && (forall i :: 0 <= i < k ==> xs[i] < xs[k])
  }

  function LargestIndex(xs: seq<int>): (k: nat)
    requires xs != []
    ensures IsLargest(xs, k)
  {
    if |xs| == 1 then 0
    else
      var j := 1 + LargestIndex(xs[1..]);
      assert xs[j] == xs[1..][j - 1];
      assert forall i :: 1 <= i < |xs| ==> xs[i] == xs[1..][i - 1];
      if xs[0] >= xs[j] then 0 else j
  }

  method FindLargest(a: array<int>) returns (idx: nat)
    requires a.Length > 0
    ensures idx == LargestIndex(a[..])
  {
    idx := 0;
    for i := 1 to a.Length
      invariant IsLargest(a[..i], idx)
    {
      if a[i] > a[idx] {
        idx := i;
      }
    }
    assert a[..] == a[..a.Length];
  }

  method Total(a: array<int>) returns (total: int)
    ensures total == SumRaw(a[..])
  {
    total := 0;
    for i := a.Length downto 0
      invariant total == SumRaw(a[i..])
    {
      total := a[i] + total;
    }
  }

  /**
   * Raw amounts after the repair: an overshoot is taken off the largest amount, which stops at zero, and a
   * shortfall of at most one unit per amount is put on the largest if that is positive.
   */
  function Repaired(xs: seq<int>, budget: int): (r: seq<int>)
    requires xs != []
    ensures |r| == |xs|
  {
    var k := LargestIndex(xs);
    var placed := SumRaw(xs);
    if placed > budget then
      xs[k := if xs[k] > placed - budget then xs[k] - (placed - budget) else 0]
    else if placed < budget && budget - placed <= |xs| && xs[k] > 0 then
      xs[k := xs[k] + (budget - placed)]
    else xs
  }

  method Repair(a: array<int>, budget: int) returns (placed: int)
    requires a.Length > 0
    modifies a
    ensures a[..] == Repaired(old(a[..]), budget)
    ensures placed == SumRaw(a[..])
  {
    ghost var was := a[..];
    placed := Total(a);
    if placed > budget {
      var idx := FindLargest(a);
      var overflow := placed - budget;
      a[idx] := if a[idx] > overflow then a[idx] - overflow else 0;
      placed := Total(a);
    } else if placed < budget && budget - placed <= a.Length {
      var idx := FindLargest(a);
      if a[idx] > 0 {
        SumRawUpdate(was, idx, was[idx] + (budget - placed));
        a[idx] := a[idx] + (budget - placed);
        placed := budget;
      }
    }
  }

  /** By how much the floored amounts exceed the budget. */
  function Overshoot(xs: seq<int>, budget: int): int { SumRaw(xs) - budget }

  /** The repaired total exceeds the budget exactly when the overshoot is larger than the largest amount. */
  lemma RepairedWithinBudget(xs: seq<int>, budget: int)
    requires xs != [] && forall i :: 0 <= i < |xs| ==> xs[i] >= 0
    ensures SumRaw(Repaired(xs, budget)) <= budget <==> Overshoot(xs, budget) <= xs[LargestIndex(xs)]
    ensures forall i :: 0 <= i < |xs| ==> 0 <= Repaired(xs, budget)[i] <= xs[i] + |xs|
  {
    var k := LargestIndex(xs);
    SumRawUpdate(xs, k, Repaired(xs, budget)[k]);
  }

  /** A shortfall of at most one unit per amount is placed in full whenever something was placed at all. */
  lemma RoundingIsPlaced(xs: seq<int>, budget: int)
    requires xs != [] && 0 <= budget - SumRaw(xs) <= |xs| && xs[LargestIndex(xs)] > 0
    ensures SumRaw(Repaired(xs, budget)) == budget
  {
    var k := LargestIndex(xs);
    SumRawUpdate(xs, k, Repaired(xs, budget)[k]);
  }

  // === Legs ===

  function LegsTotal(legs: seq<AllocationLeg>): int {
    if legs == [] then 0 else legs[0].xRaw + LegsTotal(legs[1..])
  }

  /** To four places, halves upwards. */
  function Round4(v: real): real { (v * 10000.0 + 0.5).Floor as real / 10000.0 }

  function LegFor(c: ReserveCurve, xRaw: int, placed: int): AllocationLeg {
    AllocationLeg(c.protocol, xRaw, Round4(NetSupplyApr(c, xRaw)),
                  if placed > 0 then xRaw as real / placed as real else 0.0)
  }

  function PositiveLegs(cs: seq<ReserveCurve>, xs: seq<int>, placed: int): seq<AllocationLeg>
    requires |xs| == |cs|
  {
    if cs == [] then []
    else
      var rest := PositiveLegs(cs[1..], xs[1..], placed);
      if xs[0] <= 0 then rest else [LegFor(cs[0], xs[0], placed)] + rest
  }

  /** The rates of the legs, weighted by their shares. */
  function Blended(legs: seq<AllocationLeg>): real {
    if legs == [] then 0.0 else legs[0].netSupplyApr * legs[0].share + Blended(legs[1..])
  }

  predicate LargestFirst(legs: seq<AllocationLeg>) {
    forall i, j :: 0 <= i < j < |legs| ==> legs[i].xRaw >= legs[j].xRaw
  }

  function InsertLeg(leg: AllocationLeg, legs: seq<AllocationLeg>): (r: seq<AllocationLeg>)
    requires LargestFirst(legs)
    ensures LargestFirst(r)
    ensures forall k :: 0 <= k < |r| ==> r[k] == leg || r[k] in legs
  {
    if legs == [] then [leg]
    else if leg.xRaw >= legs[0].xRaw then [leg] + legs
    else [legs[0]] + InsertLeg(leg, legs[1..])
  }

  lemma {:induction false} InsertLegKeeps(leg: AllocationLeg, legs: seq<AllocationLeg>)
    requires LargestFirst(legs)
    ensures multiset(InsertLeg(leg, legs)) == multiset{leg} + multiset(legs)
  {
    if legs != [] && leg.xRaw < legs[0].xRaw {
      InsertLegKeeps(leg, legs[1..]);
      assert legs == [legs[0]] + legs[1..];
    }
  }

  lemma {:induction false} InsertLegTotal(leg: AllocationLeg, legs: seq<AllocationLeg>)
    requires LargestFirst(legs)
    ensures LegsTotal(InsertLeg(leg, legs)) == leg.xRaw + LegsTotal(legs)
  {
    if legs != [] && leg.xRaw < legs[0].xRaw {
      InsertLegTotal(leg, legs[1..]);
      assert InsertLeg(leg, legs)[1..] == InsertLeg(leg, legs[1..]);
    } else {
      assert ([leg] + legs)[1..] == legs;
    }
  }

  /** A stable sort, largest first. */
  function SortLegs(legs: seq<AllocationLeg>): (r: seq<AllocationLeg>)
    ensures LargestFirst(r)
  {
    if legs == [] then [] else InsertLeg(legs[0], SortLegs(legs[1..]))
  }

  lemma {:induction false} SortLegsKeeps(legs: seq<AllocationLeg>)
    ensures multiset(SortLegs(legs)) == multiset(legs) && LegsTotal(SortLegs(legs)) == LegsTotal(legs)
  {
    if legs != [] {
      SortLegsKeeps(legs[1..]);
      InsertLegKeeps(legs[0], SortLegs(legs[1..]));
      InsertLegTotal(legs[0], SortLegs(legs[1..]));
      assert legs == [legs[0]] + legs[1..];
    }
  }

  /** The leg is a positive amount with its curve's protocol, net rate and share. */
  predicate FromAmount(leg: AllocationLeg, cs: seq<ReserveCurve>, xs: seq<int>, placed: int)
    requires |xs| == |cs|
  {
    exists i :: 0 <= i < |cs| && leg == LegFor(cs[i], xs[i], placed) && xs[i] > 0
  }

  lemma FromTail(leg: AllocationLeg, cs: seq<ReserveCurve>, xs: seq<int>, placed: int)
    requires |xs| == |cs| && cs != [] && FromAmount(leg, cs[1..], xs[1..], placed)
    ensures FromAmount(leg, cs, xs, placed)
  {
    var i :| 0 <= i < |cs[1..]| && leg == LegFor(cs[1..][i], xs[1..][i], placed) && xs[1..][i] > 0;
    assert leg == LegFor(cs[i + 1], xs[i + 1], placed);
  }

  lemma {:induction false} PositiveLegsAre(cs: seq<ReserveCurve>, xs: seq<int>, placed: int)
    requires |xs| == |cs| && forall i :: 0 <= i < |xs| ==> xs[i] >= 0
    ensures LegsTotal(PositiveLegs(cs, xs, placed)) == SumRaw(xs)
    ensures forall leg :: leg in PositiveLegs(cs, xs, placed) ==> FromAmount(leg, cs, xs, placed)
  {
    if cs != [] {
      PositiveLegsAre(cs[1..], xs[1..], placed);
      forall leg | leg in PositiveLegs(cs, xs, placed) ensures FromAmount(leg, cs, xs, placed) {
        if leg in PositiveLegs(cs[1..], xs[1..], placed) { FromTail(leg, cs, xs, placed); }
      }
    }
  }

  function RawAmounts(units: seq<real>, decimals: nat): (r: seq<int>)
    ensures |r| == |units|
    ensures forall i :: 0 <= i < |r| ==> r[i] == ToRaw(MaxReal(0.0, units[i]), decimals)
  {
    seq(|units|, i requires 0 <= i < |units| => ToRaw(MaxReal(0.0, units[i]), decimals))
  }

  function Finalize(
    cs: seq<ReserveCurve>, units: seq<real>, marginal: real, decimals: nat, budgetRaw: int, iterations: nat)
    : AllocationResult
    requires cs != [] && |units| == |cs|
  {
    var xs := Repaired(RawAmounts(units, decimals), budgetRaw);
    var placed := SumRaw(xs);
    var legs := SortLegs(PositiveLegs(cs, xs, placed));
    AllocationResult(legs, Round4(Blended(legs)), Round4(marginal), budgetRaw, placed, budgetRaw - placed, iterations)
  }

  method CollectLegs(cs: seq<ReserveCurve>, a: array<int>, placed: int) returns (legs: seq<AllocationLeg>)
    requires a.Length == |cs|
    ensures legs == PositiveLegs(cs, a[..], placed)
  {
    legs := [];
    for i := 0 to |cs|
      invariant legs + PositiveLegs(cs[i..], a[i..], placed) == PositiveLegs(cs, a[..], placed)
    {
      assert cs[i..][1..] == cs[i + 1..] && a[i..][1..] == a[i + 1..];
      if a[i] > 0 {
        assert legs + ([LegFor(cs[i], a[i], placed)] + PositiveLegs(cs[i + 1..], a[i + 1..], placed))
            == (legs + [LegFor(cs[i], a[i], placed)]) + PositiveLegs(cs[i + 1..], a[i + 1..], placed);
        legs := legs + [LegFor(cs[i], a[i], placed)];
      }
    }
  }

  method FinalizeAllocation(
    cs: seq<ReserveCurve>, units: seq<real>, marginal: real, decimals: nat, budgetRaw: int, iterations: nat)
    returns (r: AllocationResult)
    requires cs != [] && |units| == |cs|
    ensures r == Finalize(cs, units, marginal, decimals, budgetRaw, iterations)
  {
    var a := new int[|units|];
    for i := 0 to |units|
      invariant a[..i] == RawAmounts(units, decimals)[..i]
    {
      a[i] := ToRaw(MaxReal(0.0, units[i]), decimals);
    }
    assert a[..] == RawAmounts(units, decimals);
    var placed := Repair(a, budgetRaw);
    var legs := CollectLegs(cs, a, placed);
    legs := SortLegs(legs);
    return AllocationResult(
      legs, Round4(Blended(legs)), Round4(marginal), budgetRaw, placed, budgetRaw - placed, iterations);
  }

  // === Pruning ===

  predicate IsDust(xs: seq<real>, k: nat, min: real) { k < |xs| && 0.0 < xs[k] < min }

  ghost predicate HasDust(xs: seq<real>, min: real) { exists k: nat :: IsDust(xs, k, min) }

  /** The first of the smallest positive sizes below the minimum, among the first `n`. */
  ghost predicate IsSmallestDust(xs: seq<real>, k: nat, min: real, n: nat) {
    && IsDust(xs, k, min) && k < n
    && (forall i: nat :: i < n && IsDust(xs, i, min) ==> xs[k] <= xs[i])
    && (forall i: nat :: i < k && IsDust(xs, i, min) ==> xs[k] < xs[i])
  }

  function SmallestDust(xs: seq<real>, min: real): (k: int)
    ensures k == -1 <==> !HasDust(xs, min)
    ensures k != -1 ==> k >= 0 && IsSmallestDust(xs, k, min, |xs|)
  {
    if xs == [] then -1
    else
      var j := SmallestDust(xs[1..], min);
      assert forall i: nat :: IsDust(xs[1..], i, min) <==> IsDust(xs, i + 1, min);
      assert forall i: nat :: i > 0 && IsDust(xs, i, min) ==> IsDust(xs[1..], i - 1, min);
      if j == -1 then (assert IsDust(xs, 0, min) <==> 0.0 < xs[0] < min; if 0.0 < xs[0] < min then 0 else -1)
      else if 0.0 < xs[0] < min && xs[0] <= xs[j + 1] then 0
      else assert IsDust(xs, j + 1, min); j + 1
  }

  /** The scan of the source: a strictly smaller one replaces the one held. */
  method FindSmallestDust(xs: seq<real>, min: real) returns (pruneIndex: int)
    ensures pruneIndex == SmallestDust(xs, min)
  {
    pruneIndex := -1;
    for i := 0 to |xs|
      invariant pruneIndex == -1 ==> forall k: nat :: k < i ==> !IsDust(xs, k, min)
      invariant pruneIndex != -1 ==> pruneIndex >= 0 && IsSmallestDust(xs, pruneIndex, min, i)
    {
      if xs[i] > 0.0 && xs[i] < min && (pruneIndex == -1 || xs[i] < xs[pruneIndex]) {
        assert IsDust(xs, i, min);
        pruneIndex := i;
      }
    }
  }

  /** How many legs are funded. */
  function Positive(xs: seq<real>): nat {
    if xs == [] then 0 else (if xs[0] > 0.0 then 1 else 0) + Positive(xs[1..])
  }

  type Filler = seq<ReserveCurve> -> seq<real>

  ghost predicate FillsEach(fill: Filler) { forall cs :: |fill(cs)| == |cs| }

  /** When the loop stops: nothing to enforce, nothing left to merge into, or no leg below the minimum. */
  predicate NothingToPrune(units: seq<real>, min: real) {
    min <= 0.0 || |units| <= 1 || Positive(units) <= 1 || SmallestDust(units, min) == -1
  }

  /** Solve, drop the smallest leg below the minimum, and solve again. */
  function DropDust(cs: seq<ReserveCurve>, fill: Filler, min: real): (r: seq<ReserveCurve>)
    requires FillsEach(fill)
    ensures cs != [] ==> r != []
    ensures |r| <= |cs| && NothingToPrune(fill(r), min)
    ensures forall c :: c in r ==> c in cs
    decreases |cs|
  {
    var units := fill(cs);
    if NothingToPrune(units, min) then cs else DropDust(Without(cs, SmallestDust(units, min)), fill, min)
  }

  /** The iterations of all rounds, when solving for a set of curves takes `cost`. */
  function DropIterations(cs: seq<ReserveCurve>, fill: Filler, min: real, cost: seq<ReserveCurve> -> nat): nat
    requires FillsEach(fill)
    decreases |cs|
  {
    var units := fill(cs);
    if NothingToPrune(units, min) then cost(cs)
    else cost(cs) + DropIterations(Without(cs, SmallestDust(units, min)), fill, min, cost)
  }

  /** What pruning hands on: no minimum, at most one funded leg, or every funded leg at or above the minimum. */
  lemma PruneOutcome(cs: seq<ReserveCurve>, fill: Filler, min: real)
    requires FillsEach(fill) && cs != []
    ensures var units := fill(DropDust(cs, fill, min));
      || min <= 0.0
      || Positive(units) <= 1
      || forall i :: 0 <= i < |units| && units[i] > 0.0 ==> units[i] >= min
  {
    var units := fill(DropDust(cs, fill, min));
    if |units| <= 1 {
      ShortCount(units);
    } else if SmallestDust(units, min) == -1 {
      forall i | 0 <= i < |units| && units[i] > 0.0 ensures units[i] >= min {
        assert !IsDust(units, i, min);
      }
    }
  }

  lemma ShortCount(xs: seq<real>)
    requires |xs| <= 1
    ensures Positive(xs) <= 1
  {
    if xs != [] { assert xs[1..] == []; }
  }

  // === The solver ===

  function OptMin(a: Option<int>, b: int): int { if a.None? || a.value >= b then b else a.value }

  function OptMinUnits(a: Option<int>, decimals: nat, b: real): real {
    if a.None? || ToUnits(a.value, decimals) >= b then b else ToUnits(a.value, decimals)
  }

  /** The cap of one leg, in the token units of the first curve. */
  function CapFor(input: SolveInput, decimals: nat, c: ReserveCurve): real {
    MaxReal(0.0, OptMinUnits(input.perProtocolCapRaw, decimals,
                         OptMinUnits(c.depositCapRaw, decimals, ToUnits(input.budgetRaw, decimals))))
  }

  /** The same in raw units: the least of the global cap, the curve's own cap and the budget, not below zero. */
  function CapRaw(input: SolveInput, c: ReserveCurve): int {
    var cap := OptMin(input.perProtocolCapRaw, OptMin(c.depositCapRaw, input.budgetRaw));
    if cap <= 0 then 0 else cap
  }

  function Pools(input: SolveInput, decimals: nat, cs: seq<ReserveCurve>): (r: seq<Pool>)
    ensures |r| == |cs|
    ensures forall i :: 0 <= i < |cs| ==> r[i] == PoolOf(cs[i], CapFor(input, decimals, cs[i]))
  {
    seq(|cs|, i requires 0 <= i < |cs| => PoolOf(cs[i], CapFor(input, decimals, cs[i])))
  }

  function FillAt(input: SolveInput, decimals: nat, cs: seq<ReserveCurve>): Solved {
    Fill(Pools(input, decimals, cs), ToUnits(input.budgetRaw, decimals))
  }

  function FillFor(input: SolveInput, decimals: nat): Filler { cs => FillAt(input, decimals, cs).xUnits }

  function CostFor(input: SolveInput, decimals: nat): seq<ReserveCurve> -> nat {
    cs => FillAt(input, decimals, cs).iterations
  }

  function MinPosition(input: SolveInput, decimals: nat): real {
    if input.minPositionRaw.None? then 0.0 else ToUnits(input.minPositionRaw.value, decimals)
  }

  lemma FillForFillsEach(input: SolveInput, decimals: nat)
    ensures FillsEach(FillFor(input, decimals))
  {
  }

  function Candidates(input: SolveInput): (r: seq<ReserveCurve>)
    requires input.curves != []
    ensures r != [] && |r| <= |input.curves|
  {
    var decimals := input.curves[0].decimals;
    FillForFillsEach(input, decimals);
    DropDust(input.curves, FillFor(input, decimals), MinPosition(input, decimals))
  }

  function Units(input: SolveInput): (r: seq<real>)
    requires input.curves != []
    ensures |r| == |Candidates(input)|
  {
    FillForFillsEach(input, input.curves[0].decimals);
    FillFor(input, input.curves[0].decimals)(Candidates(input))
  }

  function Iterations(input: SolveInput): nat
    requires input.curves != []
  {
    var decimals := input.curves[0].decimals;
    FillForFillsEach(input, decimals);
    DropIterations(input.curves, FillFor(input, decimals), MinPosition(input, decimals), CostFor(input, decimals))
  }

  function Nothing(input: SolveInput): AllocationResult {
    AllocationResult([], 0.0, 0.0, input.budgetRaw, 0, input.budgetRaw, 0)
  }

  function Solve(input: SolveInput): AllocationResult {
    if input.curves == [] || input.budgetRaw <= 0 then Nothing(input)
    else
      var decimals := input.curves[0].decimals;
      Finalize(Candidates(input), Units(input), FillAt(input, decimals, Candidates(input)).marginal, decimals,
               input.budgetRaw, Iterations(input))
  }

  /**
   * The loop of the source. It always returns from inside: after it, `assert false` stands where the source
   * falls back to the single best curve.
   */
  method SolveAllocation(input: SolveInput) returns (r: AllocationResult)
    ensures r == Solve(input)
  {
    if input.curves == [] || input.budgetRaw <= 0 {
      return Nothing(input);
    }
    var decimals := input.curves[0].decimals;
    var min := MinPosition(input, decimals);
    ghost var fill, cost := FillFor(input, decimals), CostFor(input, decimals);
    FillForFillsEach(input, decimals);
    var candidates, total := input.curves, 0;
    for guard := 0 to |input.curves| + 1
      invariant |candidates| == |input.curves| - guard
      invariant DropDust(candidates, fill, min) == Candidates(input)
      invariant total + DropIterations(candidates, fill, min, cost) == Iterations(input)
    {
      var solved := WaterFill(Pools(input, decimals, candidates), ToUnits(input.budgetRaw, decimals));
      total := total + solved.iterations;
      assert solved.xUnits == fill(candidates) && solved.iterations == cost(candidates);
      if min <= 0.0 || |candidates| <= 1 || Positive(solved.xUnits) <= 1 {
        r := FinalizeAllocation(candidates, solved.xUnits, solved.marginal, decimals, input.budgetRaw, total);
        return;
      }
      var pruneIndex := FindSmallestDust(solved.xUnits, min);
      if pruneIndex == -1 {
        r := FinalizeAllocation(candidates, solved.xUnits, solved.marginal, decimals, input.budgetRaw, total);
        return;
      }
      candidates := Without(candidates, pruneIndex);
    }
    assert false;
  }
}
