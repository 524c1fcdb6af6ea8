/** Reserve rate curves of agent/src/core/allocation.ts, in exact arithmetic. Rates are in percent. */
module Curves {
  import opened Prelude
  import opened StrategyLedger
  import Amounts

  datatype BorrowAprPoint = BorrowAprPoint(util: real, apr: real)

  datatype ReserveCurve = ReserveCurve(
    protocol: Protocol, borrowAprPoints: seq<BorrowAprPoint>, reserveFactorPct: real,
    borrowedRaw: int, availableLiquidityRaw: int, depositCapRaw: Option<int>,
    decimals: nat, rewardSupplyApr: real)

  function Clamp(v: real, min: real, max: real): real {
    var low := if min >= v then min else v;
    if max <= low then max else low
  }

  function ToUnits(raw: int, decimals: nat): real { raw as real / Amounts.Pow10(decimals) as real }

  function ToRaw(units: real, decimals: nat): int {
    if units <= 0.0 then 0 else (units * Amounts.Pow10(decimals) as real).Floor
  }

  // === Evaluation ===

  predicate SortedByUtil(ps: seq<BorrowAprPoint>) {
    forall i, j :: 0 <= i < j < |ps| ==> ps[i].util <= ps[j].util
  }

  function InsertPoint(p: BorrowAprPoint, ps: seq<BorrowAprPoint>): (r: seq<BorrowAprPoint>)
    requires SortedByUtil(ps)
    ensures SortedByUtil(r) && |r| == |ps| + 1
    ensures forall k :: 0 <= k < |r| ==> r[k] == p || r[k] in ps
  {
    if ps == [] then [p]
    else if p.util <= ps[0].util then [p] + ps
    else [ps[0]] + InsertPoint(p, ps[1..])
  }

  lemma {:induction false} InsertKeepsPoints(p: BorrowAprPoint, ps: seq<BorrowAprPoint>)
    requires SortedByUtil(ps)
    ensures multiset(InsertPoint(p, ps)) == multiset{p} + multiset(ps)
  {
    if ps != [] && p.util > ps[0].util {
      InsertKeepsPoints(p, ps[1..]);
      assert ps == [ps[0]] + ps[1..];
    }
  }

  /** A stable sort by utilisation of a copy of the control points. */
  function SortPoints(ps: seq<BorrowAprPoint>): (r: seq<BorrowAprPoint>)
    ensures SortedByUtil(r) && |r| == |ps|
  {
    if ps == [] then [] else InsertPoint(ps[0], SortPoints(ps[1..]))
  }

  lemma {:induction false} SortKeepsPoints(ps: seq<BorrowAprPoint>)
    ensures multiset(SortPoints(ps)) == multiset(ps)
  {
    if ps != [] {
      SortKeepsPoints(ps[1..]);
      InsertKeepsPoints(ps[0], SortPoints(ps[1..]));
      assert ps == [ps[0]] + ps[1..];
    }
  }

  /** The value at `util` on the segment from `prev` to `next`. */
  function Segment(prev: BorrowAprPoint, next: BorrowAprPoint, util: real): real {
    var span := next.util - prev.util;
    if span <= 0.0 then next.apr
    else prev.apr + (util - prev.util) / span * (next.apr - prev.apr)
  }

  /** First index from `i` on whose point lies at or beyond `util`. */
  function FirstAtOrBeyond(ps: seq<BorrowAprPoint>, util: real, i: nat): (k: nat)
    requires i <= |ps|
    ensures i <= k <= |ps|
    ensures k < |ps| ==> util <= ps[k].util
    ensures forall j :: i <= j < k ==> ps[j].util < util
    decreases |ps| - i
  {
    if i == |ps| || util <= ps[i].util then i else FirstAtOrBeyond(ps, util, i + 1)
  }

  function SortedBorrowApr(ps: seq<BorrowAprPoint>, util: real): real {
    if ps == [] then 0.0
    else if util <= ps[0].util then ps[0].apr
    else if util >= ps[|ps| - 1].util then ps[|ps| - 1].apr
    else
      var k := FirstAtOrBeyond(ps, util, 1);
      if k < |ps| then Segment(ps[k - 1], ps[k], util) else ps[|ps| - 1].apr
  }

  function BorrowApr(points: seq<BorrowAprPoint>, u: real): real {
    SortedBorrowApr(SortPoints(points), Clamp(u, 0.0, 1.0))
  }

  /** The scan of the source: the first segment that reaches `util` decides. */
  method ScanBorrowApr(points: seq<BorrowAprPoint>, u: real) returns (apr: real)
    ensures apr == BorrowApr(points, u)
  {
    apr := 0.0;
    var ps := SortPoints(points);
    if ps == [] {
      return;
    }
    var util := Clamp(u, 0.0, 1.0);
    if util <= ps[0].util {
      return ps[0].apr;
    }
    if util >= ps[|ps| - 1].util {
      return ps[|ps| - 1].apr;
    }
    for i := 1 to |ps|
      invariant FirstAtOrBeyond(ps, util, 1) == FirstAtOrBeyond(ps, util, i)
    {
      if util <= ps[i].util {
        return Segment(ps[i - 1], ps[i], util);
      }
    }
    assert false;
  }

  /** What is left of the borrowers' interest for the suppliers. */
  function SupplierShare(borrowApr: real, util: real, reserveFactorPct: real): real {
    borrowApr * util * (1.0 - reserveFactorPct / 100.0)
  }

  function SupplyApr(c: ReserveCurve, u: real): real {
    var util := Clamp(u, 0.0, 1.0);
    SupplierShare(BorrowApr(c.borrowAprPoints, util), util, c.reserveFactorPct)
  }

  function UtilizationAfterDeposit(c: ReserveCurve, xRaw: int): real {
    var borrowed := ToUnits(c.borrowedRaw, c.decimals);
    var denom := borrowed + ToUnits(c.availableLiquidityRaw, c.decimals) + ToUnits(xRaw, c.decimals);
    if denom <= 0.0 then 0.0 else Clamp(borrowed / denom, 0.0, 1.0)
  }

  function NetSupplyApr(c: ReserveCurve, xRaw: int): real {
    SupplyApr(c, UtilizationAfterDeposit(c, xRaw)) + c.rewardSupplyApr
  }

  // === A lending pool pays less the more it is given ===

  /** Rates never fall as utilisation rises. */
  predicate RisingRates(ps: seq<BorrowAprPoint>) {
    && SortedByUtil(ps)
    && (forall i :: 0 <= i < |ps| ==> ps[i].apr >= 0.0)
    && (forall i, j :: 0 <= i < j < |ps| ==> ps[i].apr <= ps[j].apr)
  }

  predicate WellBehaved(c: ReserveCurve) {
    && RisingRates(SortPoints(c.borrowAprPoints))
    && 0.0 <= c.reserveFactorPct <= 100.0
    && c.borrowedRaw >= 0 && c.availableLiquidityRaw >= 0
  }

  lemma ProductUp(t: real, v: real, d: real)
    requires t <= v && d >= 0.0
    ensures t * d <= v * d
  {
    assert (v - t) * d >= 0.0;
  }

  lemma QuotientUp(a: real, b: real, d: real)
    requires a <= b && d > 0.0
    ensures a / d <= b / d
  {
    assert (b - a) / d >= 0.0;
    assert b / d - a / d == (b - a) / d;
  }

  /** A segment stays between its ends and rises along itself. */
  lemma SegmentRises(p: BorrowAprPoint, q: BorrowAprPoint, u: real, v: real)
    requires p.util < u <= v <= q.util && p.apr <= q.apr
    ensures p.apr <= Segment(p, q, u) <= Segment(p, q, v) <= q.apr
  {
    var span, rise := q.util - p.util, q.apr - p.apr;
    QuotientUp(0.0, u - p.util, span);
    QuotientUp(u - p.util, v - p.util, span);
    QuotientUp(v - p.util, span, span);
    ProductUp(0.0, (u - p.util) / span, rise);
    ProductUp((u - p.util) / span, (v - p.util) / span, rise);
    ProductUp((v - p.util) / span, 1.0, rise);
  }

  /** Between the first and the last point, the value lies on the segment the scan stops at. */
  lemma InnerBounds(ps: seq<BorrowAprPoint>, u: real)
    requires RisingRates(ps) && ps != [] && ps[0].util < u < ps[|ps| - 1].util
    ensures var k := FirstAtOrBeyond(ps, u, 1);
      1 <= k < |ps| && ps[k - 1].util < u <= ps[k].util
      && ps[k - 1].apr <= SortedBorrowApr(ps, u) <= ps[k].apr
  {
    var k := FirstAtOrBeyond(ps, u, 1);
    assert forall j :: 1 <= j < k ==> ps[j].util < u;
    assert k < |ps|;
    SegmentRises(ps[k - 1], ps[k], u, u);
  }

  lemma SortedAprRises(ps: seq<BorrowAprPoint>, u: real, v: real)
    requires RisingRates(ps) && u <= v
    ensures SortedBorrowApr(ps, u) <= SortedBorrowApr(ps, v)
    ensures ps != [] ==> ps[0].apr <= SortedBorrowApr(ps, u) <= ps[|ps| - 1].apr
  {
    if ps != [] {
      var last := |ps| - 1;
      if ps[0].util < u < ps[last].util { InnerBounds(ps, u); }
      if ps[0].util < v < ps[last].util { InnerBounds(ps, v); }
      if ps[0].util < u && v < ps[last].util {
        var j, k := FirstAtOrBeyond(ps, u, 1), FirstAtOrBeyond(ps, v, 1);
        if j < k {
          assert ps[j].apr <= ps[k - 1].apr;
        } else {
          assert forall m :: 1 <= m < j ==> ps[m].util < u;
          assert j == k;
          SegmentRises(ps[k - 1], ps[k], u, v);
        }
      }
    }
  }

  lemma BorrowAprUp(points: seq<BorrowAprPoint>, u: real, v: real)
    requires RisingRates(SortPoints(points)) && u <= v
    ensures 0.0 <= BorrowApr(points, u) <= BorrowApr(points, v)
  {
    SortedAprRises(SortPoints(points), Clamp(u, 0.0, 1.0), Clamp(v, 0.0, 1.0));
  }

  lemma SortedMember(points: seq<BorrowAprPoint>, p: BorrowAprPoint)
    requires p in points
    ensures p in SortPoints(points)
  {
    SortKeepsPoints(points);
    assert p in multiset(points);
    assert p in multiset(SortPoints(points));
  }

  /** `low` and `high` are control points with the least and the greatest rate. */
  predicate Extremes(points: seq<BorrowAprPoint>, low: BorrowAprPoint, high: BorrowAprPoint) {
    low in points && high in points && forall p :: p in points ==> low.apr <= p.apr <= high.apr
  }

  lemma SortedEndsAreExtremes(points: seq<BorrowAprPoint>)
    requires RisingRates(SortPoints(points)) && points != []
    ensures var ps := SortPoints(points); Extremes(points, ps[0], ps[|ps| - 1])
  {
    var ps := SortPoints(points);
    SortKeepsPoints(points);
    MemberOfEqual(ps, points, 0);
    MemberOfEqual(ps, points, |ps| - 1);
    forall p | p in points ensures ps[0].apr <= p.apr <= ps[|ps| - 1].apr {
      SortedMember(points, p);
    }
  }

  lemma MemberOfEqual(ps: seq<BorrowAprPoint>, qs: seq<BorrowAprPoint>, i: nat)
    requires multiset(ps) == multiset(qs) && i < |ps|
    ensures ps[i] in qs
  {
    assert ps[i] in multiset(ps);
    assert ps[i] in multiset(qs);
  }

  lemma EndsBetween(points: seq<BorrowAprPoint>, low: BorrowAprPoint, high: BorrowAprPoint)
    requires RisingRates(SortPoints(points)) && Extremes(points, low, high)
    ensures var ps := SortPoints(points); ps != [] && low.apr <= ps[0].apr && ps[|ps| - 1].apr <= high.apr
  {
    SortedEndsAreExtremes(points);
  }

  lemma SortedAprBetween(ps: seq<BorrowAprPoint>, low: real, high: real, u: real, v: real)
    requires RisingRates(ps) && ps != [] && u <= v && low <= ps[0].apr && ps[|ps| - 1].apr <= high
    ensures low <= SortedBorrowApr(ps, u) <= SortedBorrowApr(ps, v) <= high
  {
    SortedAprRises(ps, u, v);
    SortedAprRises(ps, v, v);
  }

  /** `borrowApr` rises with utilisation and stays between its least and greatest control point. */
  lemma BorrowAprRises(points: seq<BorrowAprPoint>, low: BorrowAprPoint, high: BorrowAprPoint, u: real, v: real)
    requires RisingRates(SortPoints(points)) && Extremes(points, low, high) && u <= v
    ensures low.apr <= BorrowApr(points, u) <= BorrowApr(points, v) <= high.apr
  {
    EndsBetween(points, low, high);
    SortedAprBetween(SortPoints(points), low.apr, high.apr, Clamp(u, 0.0, 1.0), Clamp(v, 0.0, 1.0));
  }

  lemma ProductsRise(a: real, b: real, u: real, v: real, k: real)
    requires 0.0 <= a <= b && 0.0 <= u <= v && k >= 0.0
    ensures 0.0 <= a * u * k <= b * v * k
  {
    ProductUp(a, b, u);
    ProductUp(u, v, b);
    assert b * u == u * b && b * v == v * b;
    ProductUp(a * u, b * v, k);
    ProductUp(0.0, a, u);
    ProductUp(0.0, a * u, k);
  }

  lemma SharesRise(a: real, b: real, u: real, v: real, factor: real)
    requires 0.0 <= a <= b && 0.0 <= u <= v && factor <= 100.0
    ensures 0.0 <= SupplierShare(a, u, factor) <= SupplierShare(b, v, factor)
  {
    ProductsRise(a, b, u, v, 1.0 - factor / 100.0);
  }

  lemma SupplyAprRises(c: ReserveCurve, u: real, v: real)
    requires WellBehaved(c) && u <= v
    ensures 0.0 <= SupplyApr(c, u) <= SupplyApr(c, v)
  {
    var a, b := Clamp(u, 0.0, 1.0), Clamp(v, 0.0, 1.0);
    BorrowAprUp(c.borrowAprPoints, a, b);
    var x, y := BorrowApr(c.borrowAprPoints, a), BorrowApr(c.borrowAprPoints, b);
    SharesRise(x, y, a, b, c.reserveFactorPct);
    assert SupplyApr(c, u) == SupplierShare(x, a, c.reserveFactorPct);
    assert SupplyApr(c, v) == SupplierShare(y, b, c.reserveFactorPct);
  }

  lemma Cancel(a: real, b: real, d: real)
    requires d > 0.0 && a * d <= b * d
    ensures a <= b
  {
    assert (b - a) * d >= 0.0;
  }

  lemma RatioFalls(b: real, d: real, e: real)
    requires b >= 0.0 && 0.0 < d <= e
    ensures b / e <= b / d
  {
    var r, s := b / d, b / e;
    assert r * d == b && s * e == b;
    QuotientUp(0.0, b, e);
    ProductUp(0.0, s, e - d);
    assert s * e == s * d + s * (e - d);
    Cancel(s, r, d);
  }

  lemma ToUnitsRises(a: int, b: int, decimals: nat)
    requires a <= b
    ensures ToUnits(a, decimals) <= ToUnits(b, decimals)
    ensures 0 <= a ==> 0.0 <= ToUnits(a, decimals)
  {
    QuotientUp(a as real, b as real, Amounts.Pow10(decimals) as real);
    if 0 <= a { QuotientUp(0.0, a as real, Amounts.Pow10(decimals) as real); }
  }

  lemma UtilizationFalls(c: ReserveCurve, x: nat, y: nat)
    requires c.borrowedRaw >= 0 && c.availableLiquidityRaw >= 0 && x <= y
    ensures UtilizationAfterDeposit(c, y) <= UtilizationAfterDeposit(c, x)
  {
    var borrowed := ToUnits(c.borrowedRaw, c.decimals);
    var other := ToUnits(c.availableLiquidityRaw, c.decimals);
    ToUnitsRises(0, c.borrowedRaw, c.decimals);
    ToUnitsRises(c.borrowedRaw, c.borrowedRaw, c.decimals);
    ToUnitsRises(c.availableLiquidityRaw, c.availableLiquidityRaw, c.decimals);
    ToUnitsRises(x, y, c.decimals);
    var d, e := borrowed + other + ToUnits(x, c.decimals), borrowed + other + ToUnits(y, c.decimals);
    if d > 0.0 {
      RatioFalls(borrowed, d, e);
    } else {
      assert borrowed == 0.0;
      if e > 0.0 { assert borrowed / e == 0.0; }
    }
  }

  /** Own impact is never favourable: supplying more never raises the net rate earned. */
  lemma OwnImpactNeverFavourable(c: ReserveCurve, x: nat, y: nat)
    requires WellBehaved(c) && x <= y
    ensures NetSupplyApr(c, x) >= NetSupplyApr(c, y) >= c.rewardSupplyApr
  {
    UtilizationFalls(c, x, y);
    SupplyAprRises(c, UtilizationAfterDeposit(c, y), UtilizationAfterDeposit(c, x));
    SupplyAprRises(c, UtilizationAfterDeposit(c, y), UtilizationAfterDeposit(c, y));
  }

  // === Calibration ===

  function DeriveReserveFactorPct(spotBorrow: real, spotSupply: real, utilization: real): real {
    var denom := spotBorrow * utilization;
    if denom <= 0.0 then 0.0 else Clamp(1.0 - spotSupply / denom, 0.0, 0.95) * 100.0
  }

  function FallbackBorrowAprPoints(utilization: real, spotBorrow: real): seq<BorrowAprPoint> {
    if utilization <= 0.0 then
      [BorrowAprPoint(0.0, 0.0), BorrowAprPoint(1.0, if 0.0 >= spotBorrow then 0.0 else spotBorrow)]
    else [BorrowAprPoint(0.0, 0.0), BorrowAprPoint(1.0, spotBorrow / utilization)]
  }

  function Abs(x: real): real { if x < 0.0 then -x else x }

  function Tolerance(spotBorrow: real): real {
    if Abs(spotBorrow) * 0.15 <= 0.5 then 0.5 else Abs(spotBorrow) * 0.15
  }

  function ValidatedBorrowAprPoints(
    candidate: seq<BorrowAprPoint>, utilization: real, spotBorrow: real): seq<BorrowAprPoint>
  {
    if |candidate| >= 2 && Abs(BorrowApr(candidate, utilization) - spotBorrow) <= Tolerance(spotBorrow) then candidate
    else FallbackBorrowAprPoints(utilization, spotBorrow)
  }

  /** The fallback line passes through the operating point. */
  lemma FallbackReproducesSpot(u: real, spot: real)
    requires 0.0 < u <= 1.0
    ensures BorrowApr(FallbackBorrowAprPoints(u, spot), u) == spot
  {
    var ps := FallbackBorrowAprPoints(u, spot);
    var p, q := ps[0], ps[1];
    assert ps[1..] == [q] && [q][1..] == [];
    assert SortPoints([q]) == InsertPoint(q, []);
    assert SortPoints(ps) == InsertPoint(p, [q]) == [p] + [q];
    if u < 1.0 {
      assert FirstAtOrBeyond([p] + [q], u, 1) == 1;
      assert u / 1.0 * (spot / u) == spot;
    }
  }

  /** Whatever control points a protocol reports, the curve in use matches the observed spot rate. */
  lemma ValidatedCurveIsCalibrated(candidate: seq<BorrowAprPoint>, u: real, spot: real)
    requires 0.0 < u <= 1.0
    ensures Abs(BorrowApr(ValidatedBorrowAprPoints(candidate, u, spot), u) - spot) <= Tolerance(spot)
  {
    FallbackReproducesSpot(u, spot);
  }

  lemma SupplyAtSpot(c: ReserveCurve, u: real, spotBorrow: real)
    requires 0.0 < u <= 1.0 && c.borrowAprPoints == FallbackBorrowAprPoints(u, spotBorrow)
    ensures SupplyApr(c, u) == spotBorrow * u * (1.0 - c.reserveFactorPct / 100.0)
  {
    FallbackReproducesSpot(u, spotBorrow);
  }

  /**
   * With the fallback line, the derived reserve factor reproduces the observed spot supply rate exactly
   * when that rate is between 5% and 100% of borrow rate times utilisation.
   */
  lemma DerivedFactorReproducesSupply(c: ReserveCurve, u: real, spotBorrow: real, spotSupply: real)
    requires 0.0 < u <= 1.0 && spotBorrow > 0.0
    requires c.borrowAprPoints == FallbackBorrowAprPoints(u, spotBorrow)
    requires c.reserveFactorPct == DeriveReserveFactorPct(spotBorrow, spotSupply, u)
    ensures SupplyApr(c, u) == spotSupply <==> 0.05 * (spotBorrow * u) <= spotSupply <= spotBorrow * u
  {
    var denom := spotBorrow * u;
    assert denom > 0.0;
    var ratio := spotSupply / denom;
    assert ratio * denom == spotSupply;
    assert c.reserveFactorPct / 100.0 == Clamp(1.0 - ratio, 0.0, 0.95);
    SupplyAtSpot(c, u, spotBorrow);
    KeptShare(SupplyApr(c, u), spotSupply, denom, ratio);
  }

  lemma ProductOrder(a: real, b: real, d: real)
    requires d > 0.0
    ensures a * d <= b * d <==> a <= b
  {
    if a <= b {
      ProductUp(a, b, d);
    } else {
      assert (a - b) * d > 0.0;
      assert a * d - b * d == (a - b) * d;
    }
  }

  /** What is left of `denom` after a reserve share of 1 - ratio, held between 0 and 95%. */
  lemma KeptShare(supply: real, spotSupply: real, denom: real, ratio: real)
    requires denom > 0.0 && ratio * denom == spotSupply
    requires supply == denom * (1.0 - Clamp(1.0 - ratio, 0.0, 0.95))
    ensures supply == spotSupply <==> 0.05 * denom <= spotSupply <= denom
  {
    var kept := 1.0 - Clamp(1.0 - ratio, 0.0, 0.95);
    assert supply == kept * denom && denom == 1.0 * denom;
    ProductOrder(kept, ratio, denom);
    ProductOrder(ratio, kept, denom);
    ProductOrder(0.05, ratio, denom);
    ProductOrder(ratio, 1.0, denom);
  }
}
