/**
 * Marginal yield on curves of reserves. On the straight line the source falls back to, the marginal does not
 * rise (rounding noise apart) while deposits stay within twice the pool, and the hypothesis of module
 * NearOptimal holds with an explicit slack. On a curve with a kink it can rise.
 */
module StraightLines {
  import opened Prelude
  import opened StrategyLedger
  import opened Curves
  import opened WaterFilling
  import opened NearOptimal
  import opened Dilutions
  import Amounts

  /** Borrow rate proportional to utilisation, as in `FallbackBorrowAprPoints`, and a pool with something in it. */
  predicate StraightLine(c: ReserveCurve, slope: real) {
    && c.borrowAprPoints == [BorrowAprPoint(0.0, 0.0), BorrowAprPoint(1.0, slope)] && slope >= 0.0
    && c.reserveFactorPct <= 100.0
    && c.borrowedRaw >= 0 && c.availableLiquidityRaw >= 0 && c.borrowedRaw + c.availableLiquidityRaw > 0
  }

  /** The fallback is such a line, whatever the observed spot rate. */
  lemma FallbackIsStraight(c: ReserveCurve, u: real, spot: real)
    requires c.borrowAprPoints == FallbackBorrowAprPoints(u, spot) && spot >= 0.0 && c.reserveFactorPct <= 100.0
    requires c.borrowedRaw >= 0 && c.availableLiquidityRaw >= 0 && c.borrowedRaw + c.availableLiquidityRaw > 0
    ensures StraightLine(c, c.borrowAprPoints[1].apr)
  {
    if u > 0.0 { QuotientUp(0.0, spot, u); }
  }

  /** What the pool holds before the deposit, lent out or not, in token units. */
  function Pooled(c: ReserveCurve): real {
    ToUnits(c.borrowedRaw, c.decimals) + ToUnits(c.availableLiquidityRaw, c.decimals)
  }

  function Share(c: ReserveCurve): real -> real {
    x => if Pooled(c) + x <= 0.0 then 0.0 else Pooled(c) / (Pooled(c) + x)
  }

  /** The base supply rate before any deposit. */
  function SpotRate(c: ReserveCurve): real { SupplyApr(c, UtilizationAfterDeposit(c, 0)) }

  /** One raw unit. */
  function Grain(c: ReserveCurve): real { 1.0 / Amounts.Pow10(c.decimals) as real }

  function FloorOf(c: ReserveCurve): real -> real { x => ToUnits(ToRaw(x, c.decimals), c.decimals) }

  function RoundedRate(c: ReserveCurve): real -> real { x => NetSupplyApr(c, ToRaw(MaxReal(0.0, x), c.decimals)) }

  /** The net rate were deposits not rounded to raw units. */
  function SmoothRate(c: ReserveCurve): real -> real {
    x => SpotRate(c) * (Share(c)(x) * Share(c)(x)) + c.rewardSupplyApr
  }

  function SmoothInterest(c: ReserveCurve): real -> real { x => x * SmoothRate(c)(x) }

  function DilutionOf(c: ReserveCurve): Dilution {
    Dilution(SmoothInterest(c), SmoothRate(c), MarginalYield(SmoothInterest(c)),
             Interest(c), RoundedRate(c), MarginalYield(Interest(c)),
             Share(c), FloorOf(c), SpotRate(c), Pooled(c), c.rewardSupplyApr, Grain(c))
  }

  lemma PooledPositive(c: ReserveCurve)
    requires c.borrowedRaw >= 0 && c.availableLiquidityRaw >= 0 && c.borrowedRaw + c.availableLiquidityRaw > 0
    ensures Pooled(c) > 0.0 && 0.0 <= ToUnits(c.borrowedRaw, c.decimals) <= Pooled(c)
  {
    var scale := Amounts.Pow10(c.decimals) as real;
    ToUnitsRises(0, c.borrowedRaw, c.decimals);
    ToUnitsRises(0, c.availableLiquidityRaw, c.decimals);
    var a, b := ToUnits(c.borrowedRaw, c.decimals), ToUnits(c.availableLiquidityRaw, c.decimals);
    assert a * scale == c.borrowedRaw as real && b * scale == c.availableLiquidityRaw as real;
    assert (a + b) * scale == a * scale + b * scale;
    ProductOrder(a + b, 0.0, scale);
  }

  lemma SharePlain(p: real, t: real, x: real)
    requires t > 0.0 && x >= 0.0 && p == t / (t + x)
    ensures p * (t + x) == t && x * p == t * (1.0 - p) && 0.0 < p <= 1.0
  {
    assert p * (t + x) == t;
    assert p * (t + x) == p * t + x * p;
    ProductOrder(p, 0.0, t + x);
    ProductOrder(p, 1.0, t + x);
  }

  lemma ShareIs(c: ReserveCurve, x: real)
    requires Pooled(c) > 0.0 && x >= 0.0
    ensures ShareAt(Share(c), Pooled(c), x)
  {
    SharePlain(Share(c)(x), Pooled(c), x);
  }

  lemma DifferenceIs(n: real, d: real)
    requires d > 0.0
    ensures n / d * d == n
  {
  }

  lemma MarginalIsSlope(g: real -> real, x: real)
    requires x >= 0.0
    ensures SlopeAt(MarginalYield(g), g, x)
  {
    ReachFacts(x, x);
    DifferenceIs(g(Upper(x)) - g(Lower(x)), Upper(x) - Lower(x));
  }

  lemma LineSorted(p: BorrowAprPoint, q: BorrowAprPoint)
    requires p.util <= q.util
    ensures SortPoints([p, q]) == [p, q]
  {
    assert [p, q][1..] == [q] && [q][1..] == [];
    assert SortPoints([q]) == InsertPoint(q, []) == [q];
    assert SortPoints([p, q]) == InsertPoint(p, [q]) == [p] + [q];
  }

  lemma LineScan(ps: seq<BorrowAprPoint>, slope: real, u: real)
    requires ps == [BorrowAprPoint(0.0, 0.0), BorrowAprPoint(1.0, slope)] && 0.0 <= u <= 1.0
    ensures SortedBorrowApr(ps, u) == slope * u
  {
    assert ps[0] == BorrowAprPoint(0.0, 0.0) && ps[1] == BorrowAprPoint(1.0, slope) && |ps| == 2;
    if 0.0 < u < 1.0 { assert FirstAtOrBeyond(ps, u, 1) == 1; }
  }

  lemma LineApr(slope: real, u: real)
    requires 0.0 <= u <= 1.0
    ensures BorrowApr([BorrowAprPoint(0.0, 0.0), BorrowAprPoint(1.0, slope)], u) == slope * u
  {
    LineSorted(BorrowAprPoint(0.0, 0.0), BorrowAprPoint(1.0, slope));
    LineScan([BorrowAprPoint(0.0, 0.0), BorrowAprPoint(1.0, slope)], slope, u);
  }

  lemma SupplyOnLine(c: ReserveCurve, slope: real, u: real)
    requires StraightLine(c, slope) && 0.0 <= u <= 1.0
    ensures SupplyApr(c, u) == slope * u * u * (1.0 - c.reserveFactorPct / 100.0)
  {
    LineApr(slope, u);
  }

  lemma SpotNotNegative(c: ReserveCurve, slope: real, u: real)
    requires StraightLine(c, slope) && 0.0 <= u <= 1.0
    ensures SupplyApr(c, u) >= 0.0
  {
    SupplyOnLine(c, slope, u);
    var share := 1.0 - c.reserveFactorPct / 100.0;
    ProductUp(0.0, slope, u);
    ProductUp(0.0, slope * u, u);
    ProductUp(0.0, slope * u * u, share);
  }

  /** Utilisation after a deposit is utilisation before it, diluted. */
  lemma UtilizationDiluted(b: real, t: real, x: real, u: real, p: real)
    requires 0.0 <= b <= t && t > 0.0 && x >= 0.0 && u * t == b && p * (t + x) == t
    ensures b / (t + x) == u * p && 0.0 <= b / (t + x) <= 1.0
  {
    assert u * p * (t + x) == u * (p * (t + x));
    DivisionIs(b, t + x, u * p);
    QuotientUp(0.0, b, t + x);
    QuotientUp(b, t + x, t + x);
  }

  lemma DivisionIs(n: real, d: real, q: real)
    requires d > 0.0 && q * d == n
    ensures n / d == q
  {
  }

  lemma UtilizationIs(c: ReserveCurve, raw: nat, u: real, p: real)
    requires c.borrowedRaw >= 0 && c.availableLiquidityRaw >= 0 && Pooled(c) > 0.0
    requires ToUnits(c.borrowedRaw, c.decimals) <= Pooled(c) && u * Pooled(c) == ToUnits(c.borrowedRaw, c.decimals)
    requires p * (Pooled(c) + ToUnits(raw, c.decimals)) == Pooled(c)
    ensures UtilizationAfterDeposit(c, raw) == u * p && 0.0 <= u * p <= 1.0
  {
    ToUnitsRises(0, c.borrowedRaw, c.decimals);
    ToUnitsRises(0, raw, c.decimals);
    UtilizationDiluted(ToUnits(c.borrowedRaw, c.decimals), Pooled(c), ToUnits(raw, c.decimals), u, p);
  }

  lemma DilutedRate(slope: real, k: real, u: real, p: real, v: real, base: real)
    requires v == u * p && base == slope * u * u * k
    ensures slope * v * v * k == base * (p * p)
  {
    calc {
      slope * v * v * k;
      slope * (u * p) * (u * p) * k;
      slope * u * u * k * (p * p);
    }
  }

  /** `u` is utilisation before any deposit and `base` the supply rate there. */
  predicate SpotPoint(c: ReserveCurve, slope: real, u: real, base: real) {
    && Pooled(c) > 0.0 && ToUnits(c.borrowedRaw, c.decimals) <= Pooled(c)
    && u * Pooled(c) == ToUnits(c.borrowedRaw, c.decimals)
    && base == slope * u * u * (1.0 - c.reserveFactorPct / 100.0)
  }

  lemma BaseRateAt(c: ReserveCurve, slope: real, raw: nat, u: real, p: real, base: real)
    requires StraightLine(c, slope) && SpotPoint(c, slope, u, base)
    requires p * (Pooled(c) + ToUnits(raw, c.decimals)) == Pooled(c)
    ensures SupplyApr(c, UtilizationAfterDeposit(c, raw)) == base * (p * p)
    ensures 0.0 <= UtilizationAfterDeposit(c, raw) <= 1.0
  {
    UtilizationIs(c, raw, u, p);
    SupplyOnLine(c, slope, UtilizationAfterDeposit(c, raw));
    DilutedRate(slope, 1.0 - c.reserveFactorPct / 100.0, u, p, UtilizationAfterDeposit(c, raw), base);
  }

  lemma FindSpotPoint(c: ReserveCurve, slope: real) returns (u: real, base: real)
    requires StraightLine(c, slope)
    ensures SpotPoint(c, slope, u, base) && SpotRate(c) == base >= 0.0
  {
    PooledPositive(c);
    u := ToUnits(c.borrowedRaw, c.decimals) / Pooled(c);
    base := slope * u * u * (1.0 - c.reserveFactorPct / 100.0);
    DifferenceIs(ToUnits(c.borrowedRaw, c.decimals), Pooled(c));
    assert ToUnits(0, c.decimals) == 0.0;
    BaseRateAt(c, slope, 0, u, 1.0, base);
    SpotNotNegative(c, slope, UtilizationAfterDeposit(c, 0));
  }

  lemma NetIs(c: ReserveCurve, raw: int, base: real)
    requires SupplyApr(c, UtilizationAfterDeposit(c, raw)) == base
    ensures NetSupplyApr(c, raw) == base + c.rewardSupplyApr
  {
  }

  /** The net rate after a deposit of `raw`, in terms of the share. */
  lemma RateAt(c: ReserveCurve, slope: real, raw: nat, p: real) returns (base: real)
    requires StraightLine(c, slope)
    requires p * (Pooled(c) + ToUnits(raw, c.decimals)) == Pooled(c)
    ensures base == SpotRate(c) && NetSupplyApr(c, raw) == base * (p * p) + c.rewardSupplyApr
  {
    var u;
    u, base := FindSpotPoint(c, slope);
    BaseRateAt(c, slope, raw, u, p, base);
    NetIs(c, raw, base * (p * p));
  }

  // === The dilution of a curve ===

  lemma SmoothRateIs(c: ReserveCurve, x: real, p: real)
    requires p == Share(c)(x)
    ensures RateIs(SmoothRate(c), SpotRate(c), c.rewardSupplyApr, x, p)
  {
  }

  lemma SmoothByRate(c: ReserveCurve, x: real)
    ensures EarnsAt(SmoothInterest(c), SmoothRate(c), x)
  {
  }

  lemma PoolFacts(c: ReserveCurve, slope: real)
    requires StraightLine(c, slope)
    ensures Pooled(c) > 0.0 && SpotRate(c) >= 0.0
  {
    PooledPositive(c);
    var u, base := FindSpotPoint(c, slope);
  }

  lemma DilutionIsDiluted(c: ReserveCurve, slope: real)
    requires StraightLine(c, slope)
    ensures Diluted(DilutionOf(c))
  {
    var d := DilutionOf(c);
    PoolFacts(c, slope);
    forall x | x >= 0.0 ensures ShareAt(d.share, d.pool, x) { ShareIs(c, x); }
    forall x | x >= 0.0 ensures EarnsAt(d.smooth, d.smoothRate, x) { SmoothByRate(c, x); }
    forall x | x >= 0.0 ensures SlopeAt(d.smoothSlope, d.smooth, x) { MarginalIsSlope(SmoothInterest(c), x); }
    forall x, p | x >= 0.0 && p == d.share(x) ensures RateIs(d.smoothRate, d.spot, d.flat, x, p) {
      SmoothRateIs(c, x, p);
    }
  }

  lemma RawBelow(x: real, scale: real, raw: int, grain: real, units: real)
    requires x > 0.0 && scale >= 1.0 && raw == (x * scale).Floor && grain == 1.0 / scale && units == raw as real / scale
    ensures raw >= 0 && units <= x <= units + grain
  {
    assert x * scale > 0.0;
    DifferenceIs(raw as real, scale);
    DifferenceIs(1.0, scale);
    assert (units + grain) * scale == raw as real + 1.0;
    ProductOrder(units, x, scale);
    ProductOrder(x, units + grain, scale);
  }

  lemma RawUnits(c: ReserveCurve, x: real)
    requires x >= 0.0
    ensures ToRaw(x, c.decimals) >= 0 && Grain(c) >= 0.0
    ensures 0.0 <= ToUnits(ToRaw(x, c.decimals), c.decimals) <= x <= ToUnits(ToRaw(x, c.decimals), c.decimals) + Grain(c)
  {
    var scale := Amounts.Pow10(c.decimals) as real;
    QuotientUp(0.0, 1.0, scale);
    if x > 0.0 {
      RawBelow(x, scale, ToRaw(x, c.decimals), Grain(c), ToUnits(ToRaw(x, c.decimals), c.decimals));
    }
    ToUnitsRises(0, ToRaw(x, c.decimals), c.decimals);
  }

  lemma ShareOfFloor(c: ReserveCurve, x: real, p: real)
    requires Pooled(c) > 0.0 && x >= 0.0 && p == Share(c)(FloorOf(c)(x))
    ensures ToRaw(x, c.decimals) >= 0
    ensures p * (Pooled(c) + ToUnits(ToRaw(x, c.decimals), c.decimals)) == Pooled(c)
  {
    RawUnits(c, x);
    ShareIs(c, FloorOf(c)(x));
  }

  lemma RoundedRateAt(c: ReserveCurve, x: real, rate: real)
    requires x >= 0.0 && NetSupplyApr(c, ToRaw(x, c.decimals)) == rate
    ensures RoundedRate(c)(x) == rate
  {
    assert MaxReal(0.0, x) == x;
  }

  lemma FloorRate(c: ReserveCurve, slope: real, x: real, p: real) returns (base: real, rate: real)
    requires StraightLine(c, slope) && x >= 0.0 && p == Share(c)(FloorOf(c)(x))
    ensures base == SpotRate(c) && rate == base * (p * p) + c.rewardSupplyApr
    ensures NetSupplyApr(c, ToRaw(x, c.decimals)) == rate
  {
    PooledPositive(c);
    ShareOfFloor(c, x, p);
    base := RateAt(c, slope, ToRaw(x, c.decimals), p);
    rate := base * (p * p) + c.rewardSupplyApr;
  }

  lemma RoundedRateIs(c: ReserveCurve, slope: real, x: real, p: real)
    requires StraightLine(c, slope) && x >= 0.0 && p == Share(c)(FloorOf(c)(x))
    ensures RateIs(RoundedRate(c), SpotRate(c), c.rewardSupplyApr, x, p)
  {
    var base, rate := FloorRate(c, slope, x, p);
    RoundedRateAt(c, x, rate);
    RateFrom(RoundedRate(c), SpotRate(c), c.rewardSupplyApr, x, p, base, rate);
  }

  lemma RateFrom(f: real -> real, spot: real, flat: real, x: real, p: real, base: real, rate: real)
    requires base == spot && rate == base * (p * p) + flat && f(x) == rate
    ensures RateIs(f, spot, flat, x, p)
  {
  }

  lemma InterestByRate(c: ReserveCurve, x: real)
    requires x >= 0.0
    ensures EarnsAt(Interest(c), RoundedRate(c), x)
  {
    assert MaxReal(0.0, x) == x;
  }

  lemma FloorHolds(c: ReserveCurve, x: real)
    requires x >= 0.0
    ensures FloorAt(DilutionOf(c), x) && Grain(c) >= 0.0
  {
    RawUnits(c, x);
  }

  lemma RoundedSlopes(c: ReserveCurve, x: real)
    requires x >= 0.0
    ensures SlopeAt(DilutionOf(c).roundedSlope, DilutionOf(c).rounded, x)
  {
    MarginalIsSlope(Interest(c), x);
  }

  lemma DilutionRoundsDown(c: ReserveCurve, slope: real)
    requires StraightLine(c, slope)
    ensures RoundsDown(DilutionOf(c))
  {
    var d := DilutionOf(c);
    forall x | x >= 0.0 ensures FloorAt(d, x) { FloorHolds(c, x); }
    forall x | x >= 0.0 ensures EarnsAt(d.rounded, d.roundedRate, x) { InterestByRate(c, x); }
    forall x, p | x >= 0.0 && p == d.share(d.floor(x)) ensures RateIs(d.roundedRate, d.spot, d.flat, x, p) {
      RoundedRateIs(c, slope, x, p);
    }
    forall x | x >= 0.0 ensures SlopeAt(d.roundedSlope, d.rounded, x) { RoundedSlopes(c, x); }
    FloorHolds(c, 0.0);
  }

  // === The marginal of a straight line ===

  /** How far rounding can move the marginal. */
  function Noise(c: ReserveCurve): real
    requires Pooled(c) > 0.0
  {
    500001.0 * Rounding(DilutionOf(c)) / Pooled(c)
  }

  lemma NoiseIs(c: ReserveCurve, slope: real)
    requires StraightLine(c, slope)
    ensures Pooled(c) > 0.0 && Noise(c) >= 0.0 && Noise(c) * Pooled(c) == 500001.0 * Rounding(DilutionOf(c))
  {
    PoolFacts(c, slope);
    FloorHolds(c, 0.0);
    var most := RoundingNotNegative(DilutionOf(c));
    QuotientNotNegative(500001.0 * most, Pooled(c));
  }

  lemma RoundingNotNegative(d: Dilution) returns (most: real)
    requires d.spot >= 0.0 && d.grain >= 0.0
    ensures most == Rounding(d) >= 0.0
  {
    most := Rounding(d);
    TimesUp(2.0 * d.spot, 0.0, d.grain);
  }

  lemma QuotientNotNegative(n: real, d: real)
    requires n >= 0.0 && d > 0.0
    ensures n / d >= 0.0 && n / d * d == n
  {
  }

  lemma Dilute(c: ReserveCurve, slope: real) returns (d: Dilution, noise: real)
    requires StraightLine(c, slope)
    ensures Diluted(d) && RoundsDown(d) && noise >= 0.0 && noise * d.pool == 500001.0 * Rounding(d)
    ensures d == DilutionOf(c) && d.pool == Pooled(c) > 0.0 && noise == Noise(c)
  {
    NoiseIs(c, slope);
    DilutionIsDiluted(c, slope);
    DilutionRoundsDown(c, slope);
    d, noise := DilutionOf(c), Noise(c);
  }

  /** Within twice the pool, depositing more does not raise the marginal yield, rounding noise apart. */
  lemma MarginalHardlyRises(c: ReserveCurve, slope: real, x: real, y: real)
    requires StraightLine(c, slope) && 0.0 <= x <= y && Upper(y) <= 2.0 * Pooled(c)
    ensures Pooled(c) > 0.0
    ensures MarginalYield(Interest(c))(y) <= MarginalYield(Interest(c))(x) + 2.0 * Noise(c)
  {
    var d, noise := Dilute(c, slope);
    RoundedHardlyRises(d, x, y, noise);
  }

  /**
   * Beyond twice the pool it rises: always but for the rounding noise, and strictly wherever the rise without
   * rounding is more than twice the noise.
   */
  lemma MarginalRisesBeyondTwice(c: ReserveCurve, slope: real, x: real, y: real)
    requires StraightLine(c, slope) && SpotRate(c) > 0.0 && 0.0 <= x < y && Lower(x) >= 2.0 * Pooled(c)
    ensures Pooled(c) > 0.0
    ensures MarginalYield(SmoothInterest(c))(y) > MarginalYield(SmoothInterest(c))(x)
    ensures MarginalYield(Interest(c))(y) > MarginalYield(Interest(c))(x) - 2.0 * Noise(c)
    ensures MarginalYield(SmoothInterest(c))(y) - MarginalYield(SmoothInterest(c))(x) > 2.0 * Noise(c) ==>
      MarginalYield(Interest(c))(y) > MarginalYield(Interest(c))(x)
  {
    var d, noise := Dilute(c, slope);
    DilutedRises(d, x, y);
    MarginalMoves(d, x, noise);
    MarginalMoves(d, y, noise);
  }

  // === A rise in every pool of some size ===

  lemma ShareOfMultiple(w: real -> real, t: real, n: real, x: real)
    requires Shares(w, t) && n >= 0.0 && x == n * t
    ensures w(x) == 1.0 / (1.0 + n)
  {
    ProductUp(0.0, n, t);
    assert ShareAt(w, t, x);
    ShareOfTimes(w(x), t, 1.0 + n, t + x);
  }

  lemma ShareOfTimes(p: real, t: real, m: real, total: real)
    requires t > 0.0 && m > 0.0 && total == m * t && p * total == t
    ensures p == 1.0 / m
  {
    assert (p * m) * t == p * total;
    ProductOrder(p * m, 1.0, t);
    ProductOrder(1.0, p * m, t);
    DivisionIs(1.0, m, p);
  }

  /** At `n` times the pool the finite difference reaches a millionth of the deposit to either side. */
  lemma TiltAtMultiple(w: real -> real, t: real, n: real)
    requires Shares(w, t) && t >= 1.0 && n >= 1.0
    ensures Tilt(w, n * t) == Chord(1.0 / (1.0 + n * 0.999999), 1.0 / (1.0 + n * 1.000001))
  {
    ProductUp(1.0, n, t);
    assert Reach(n * t) == n * t * 0.000001;
    ShareOfMultiple(w, t, n * 0.999999, Lower(n * t));
    ShareOfMultiple(w, t, n * 1.000001, Upper(n * t));
  }

  lemma TiltRisesFrom3To9(w: real -> real, t: real)
    requires Shares(w, t) && t >= 1.0
    ensures Tilt(w, 9.0 * t) - Tilt(w, 3.0 * t) > 0.0213
  {
    TiltAtMultiple(w, t, 3.0);
    TiltAtMultiple(w, t, 9.0);
    TiltsAre(1.0 / (1.0 + 3.0 * 0.999999), 1.0 / (1.0 + 3.0 * 1.000001),
             1.0 / (1.0 + 9.0 * 0.999999), 1.0 / (1.0 + 9.0 * 1.000001));
  }

  lemma TiltsAre(p3: real, q3: real, p9: real, q9: real)
    requires p3 == 1.0 / 3.999997 && q3 == 1.0 / 4.000003 && p9 == 1.0 / 9.999991 && q9 == 1.0 / 10.000009
    ensures Chord(p9, q9) - Chord(p3, q3) > 0.0213
  {
    assert Chord(p3, q3) < -0.031;
    assert Chord(p9, q9) > -0.009;
  }

  lemma RiseAgainstNoise(spot: real, t: real, grain: real, noise: real, rise: real, slopes: real)
    requires spot > 0.0 && t > 0.0 && t >= 100000000.0 * grain && rise > 0.0213 && slopes == spot * rise
    requires noise * t == 500001.0 * (2.0 * spot * grain)
    ensures slopes > 2.0 * noise
  {
    TimesUpStrictly(spot, 0.0213, rise);
    TimesUp(spot, 100000000.0 * grain, t);
    assert (2.0 * noise) * t == 2000004.0 * (spot * grain);
    assert (spot * 0.0213) * t == 0.0213 * (spot * t);
    assert spot * (100000000.0 * grain) == 100000000.0 * (spot * grain);
    TimesUpStrictly(spot, 0.0, t);
    Cancel(2.0 * noise, spot * 0.0213, t);
  }

  lemma DilutedRisesFrom3To9(d: Dilution, noise: real)
    requires Diluted(d) && d.spot > 0.0 && d.pool >= 1.0 && d.pool >= 100000000.0 * d.grain
    requires noise * d.pool == 500001.0 * Rounding(d)
    ensures d.smoothSlope(9.0 * d.pool) - d.smoothSlope(3.0 * d.pool) > 2.0 * noise
  {
    MarginalIsTilt(d, 3.0 * d.pool);
    MarginalIsTilt(d, 9.0 * d.pool);
    TiltRisesFrom3To9(d.share, d.pool);
    var low, high := Tilt(d.share, 3.0 * d.pool), Tilt(d.share, 9.0 * d.pool);
    assert d.spot * high - d.spot * low == d.spot * (high - low);
    RiseAgainstNoise(d.spot, d.pool, d.grain, noise, high - low, d.spot * (high - low));
  }

  lemma PooledIs(c: ReserveCurve)
    ensures Pooled(c) == (c.borrowedRaw + c.availableLiquidityRaw) as real * Grain(c)
  {
    UnitsByGrain(c.borrowedRaw, Amounts.Pow10(c.decimals) as real);
    UnitsByGrain(c.availableLiquidityRaw, Amounts.Pow10(c.decimals) as real);
  }

  lemma UnitsByGrain(raw: int, scale: real)
    requires scale > 0.0
    ensures raw as real / scale == raw as real * (1.0 / scale)
  {
  }

  /**
   * On every straight line that pays something, in a pool of at least one token unit and a hundred million raw
   * units, the marginal yield is higher at nine times the pool than at three times.
   */
  lemma LargePoolsRise(c: ReserveCurve, slope: real)
    requires StraightLine(c, slope) && SpotRate(c) > 0.0
    requires Pooled(c) >= 1.0 && c.borrowedRaw + c.availableLiquidityRaw >= 100000000
    ensures MarginalYield(Interest(c))(9.0 * Pooled(c)) > MarginalYield(Interest(c))(3.0 * Pooled(c))
  {
    var d, noise := Dilute(c, slope);
    PoolAgainstGrain(c, 100000000);
    DilutedRisesFrom3To9(d, noise);
    RoundedRises(d, 3.0 * d.pool, 9.0 * d.pool, noise);
  }

  lemma RoundedRises(d: Dilution, x: real, y: real, noise: real)
    requires Diluted(d) && RoundsDown(d) && noise >= 0.0 && noise * d.pool == 500001.0 * Rounding(d)
    requires x >= 0.0 && y >= 0.0 && d.smoothSlope(y) - d.smoothSlope(x) > 2.0 * noise
    ensures d.roundedSlope(y) > d.roundedSlope(x)
  {
    MarginalMoves(d, x, noise);
    MarginalMoves(d, y, noise);
  }

  lemma PoolAgainstGrain(c: ReserveCurve, n: int)
    requires c.borrowedRaw + c.availableLiquidityRaw >= n
    ensures Pooled(c) >= n as real * Grain(c)
  {
    PooledIs(c);
    FloorHolds(c, 0.0);
    ProductUp(n as real, (c.borrowedRaw + c.availableLiquidityRaw) as real, Grain(c));
  }

  /** A thousand units of a six-decimal token, four fifths of them lent out. */
  const LARGE := ReserveCurve(
    Suilend, [BorrowAprPoint(0.0, 0.0), BorrowAprPoint(1.0, 10.0)], 20.0, 800000000, 200000000, None, 6, 0.0)

  lemma LargePool()
    ensures StraightLine(LARGE, 10.0) && Pooled(LARGE) == 1000.0 && SpotRate(LARGE) == 5.12
  {
    LargeUtilization(0);
    SupplyOnLine(LARGE, 10.0, 0.8);
  }

  lemma LargeUtilization(raw: int)
    requires raw == 0
    ensures Pooled(LARGE) == 1000.0 && UtilizationAfterDeposit(LARGE, raw) == 0.8
  {
    MillionthsIs(800000000);
    MillionthsIs(200000000);
    MillionthsIs(raw);
  }

  /** There the marginal yield is higher at nine thousand units than at three thousand. */
  lemma LargePoolRises()
    ensures MarginalYield(Interest(LARGE))(9000.0) > MarginalYield(Interest(LARGE))(3000.0)
  {
    LargePool();
    LargePoolsRise(LARGE, 10.0);
  }

  /** The slack of the concavity hypothesis: the reach of the finite difference, the rounding and its noise. */
  function Slack(c: ReserveCurve, cap: real): real
    requires Pooled(c) > 0.0
  {
    2.0 * SpotRate(c) * Reach(cap) + Rounding(DilutionOf(c)) + Noise(c) * cap
  }

  lemma DilutionTangents(d: Dilution, cap: real, noise: real, slack: real)
    requires Diluted(d) && RoundsDown(d) && noise >= 0.0 && noise * d.pool == 500001.0 * Rounding(d)
    requires Upper(cap) <= 2.0 * d.pool && slack == 2.0 * d.spot * Reach(cap) + Rounding(d) + noise * cap
    ensures Tangents(d.rounded, d.roundedSlope, cap, slack)
  {
    forall x, y | 0.0 <= x <= cap && 0.0 <= y <= cap ensures Below(d.rounded, d.roundedSlope, x, y, slack) {
      RoundedTangent(d, x, y, cap, noise, 2.0 * d.spot * Reach(cap), Rounding(d));
    }
  }

  /** The hypothesis of the comparison is met by straight lines capped at twice the pool. */
  lemma StraightLinesAreConcave(c: ReserveCurve, slope: real, cap: real)
    requires StraightLine(c, slope) && Upper(cap) <= 2.0 * Pooled(c)
    ensures Pooled(c) > 0.0
    ensures ConcaveUpTo(PoolOf(c, cap), Slack(c, cap))
  {
    var d, noise := Dilute(c, slope);
    DilutionTangents(d, cap, noise, Slack(c, cap));
  }

  lemma MoreSlack(g: real -> real, f: real -> real, cap: real, slack: real, more: real)
    requires Tangents(g, f, cap, slack) && slack <= more
    ensures Tangents(g, f, cap, more)
  {
    forall x, y | 0.0 <= x <= cap && 0.0 <= y <= cap ensures Below(g, f, x, y, more) {
      assert Below(g, f, x, y, slack);
    }
  }

  /** Straight-line curves with their caps, each at most twice its pool and with no more than the given slack. */
  predicate StraightPools(cs: seq<ReserveCurve>, slopes: seq<real>, caps: seq<real>, slack: real) {
    && |slopes| == |caps| == |cs|
    && forall i :: 0 <= i < |cs| ==> StraightPool(cs[i], slopes[i], caps[i], slack)
  }

  predicate StraightPool(c: ReserveCurve, slope: real, cap: real, slack: real) {
    StraightLine(c, slope) && Pooled(c) > 0.0 && Upper(cap) <= 2.0 * Pooled(c) && Slack(c, cap) <= slack
  }

  function PoolsOf(cs: seq<ReserveCurve>, caps: seq<real>): (ps: seq<Pool>)
    requires |caps| == |cs|
    ensures |ps| == |cs|
    ensures forall i :: 0 <= i < |cs| ==> ps[i] == PoolOf(cs[i], caps[i])
  {
    seq(|cs|, i requires 0 <= i < |cs| => PoolOf(cs[i], caps[i]))
  }

  /** On such pools water-filling is near-optimal with nothing assumed of the interest. */
  lemma StraightPoolsNearOptimal(
    cs: seq<ReserveCurve>, slopes: seq<real>, caps: seq<real>, slack: real, budget: real, ys: seq<real>)
    requires StraightPools(cs, slopes, caps, slack) && slack >= 0.0
    requires var ps := PoolsOf(cs, caps);
      && budget >= 0.0 && WithinCaps(ps, ys) && Sum(ys) <= Sum(Fill(ps, budget).xUnits)
    ensures var ps := PoolsOf(cs, caps);
      && |Fill(ps, budget).xUnits| == |ps|
      && Earned(ps, ys) <= Earned(ps, Fill(ps, budget).xUnits) + AllowanceFor(ps, budget, slack)
  {
    var ps := PoolsOf(cs, caps);
    forall i | 0 <= i < |ps| ensures ConcaveUpTo(ps[i], slack) {
      assert StraightPool(cs[i], slopes[i], caps[i], slack);
      StraightLinesAreConcave(cs[i], slopes[i], caps[i]);
      MoreSlack(ps[i].interest, ps[i].marginal, ps[i].cap, Slack(cs[i], caps[i]), slack);
    }
    WaterFillNearOptimal(ps, budget, slack, ys);
  }

  // === Filled beyond its best ===

  lemma QuarterOfPool(d: Dilution)
    requires Diluted(d) && d.flat == 0.0
    ensures d.smooth(d.pool) == d.spot * d.pool * 0.25 && d.smooth(4.0 * d.pool) == d.spot * d.pool * 0.16
  {
    ShareOfMultiple(d.share, d.pool, 1.0, d.pool);
    ShareOfMultiple(d.share, d.pool, 4.0, 4.0 * d.pool);
    SmoothAt(d, d.pool, 0.5);
    SmoothAt(d, 4.0 * d.pool, 0.2);
  }

  lemma LessAtFourTimes(spot: real, t: real, grain: real, atPool: real, atFour: real)
    requires spot > 0.0 && t > 0.0 && t >= 23.0 * grain
    requires atPool >= spot * t * 0.25 && atFour <= spot * t * 0.16 + 2.0 * spot * grain
    ensures atPool > atFour
  {
    TimesUp(spot, 23.0 * grain, t);
    assert spot * (23.0 * grain) == 11.5 * (2.0 * spot * grain);
    TimesUpStrictly(spot, 0.0, t);
  }

  lemma DilutedEarnsLess(d: Dilution)
    requires Diluted(d) && RoundsDown(d) && d.flat == 0.0 && d.spot > 0.0 && d.pool >= 23.0 * d.grain
    ensures d.rounded(d.pool) > d.rounded(4.0 * d.pool)
  {
    QuarterOfPool(d);
    AddedBounds(d, d.pool, d.rounded(d.pool) - d.smooth(d.pool), Rounding(d));
    AddedBounds(d, 4.0 * d.pool, d.rounded(4.0 * d.pool) - d.smooth(4.0 * d.pool), Rounding(d));
    LessAtFourTimes(d.spot, d.pool, d.grain, d.rounded(d.pool), d.rounded(4.0 * d.pool));
  }

  /**
   * A straight line without reward whose cap is four times the pool: when the budget covers the cap it is
   * filled, and a deposit the size of the pool would have earned strictly more.
   */
  lemma FilledBeyondItsBest(c: ReserveCurve, slope: real, budget: real)
    requires StraightLine(c, slope) && SpotRate(c) > 0.0 && c.rewardSupplyApr == 0.0
    requires c.borrowedRaw + c.availableLiquidityRaw >= 23 && budget >= 4.0 * Pooled(c)
    ensures var ps := [PoolOf(c, 4.0 * Pooled(c))];
      && Fill(ps, budget).xUnits == [4.0 * Pooled(c)]
      && WithinCaps(ps, [Pooled(c)]) && Earned(ps, [Pooled(c)]) > Earned(ps, [4.0 * Pooled(c)])
  {
    var d, noise := Dilute(c, slope);
    PoolAgainstGrain(c, 23);
    DilutedEarnsLess(d);
    OnePool(PoolOf(c, 4.0 * Pooled(c)), budget, Pooled(c));
  }

  lemma OnePool(p: Pool, budget: real, y: real)
    requires budget >= p.cap && 0.0 <= y <= p.cap && p.interest(y) > p.interest(p.cap)
    ensures Fill([p], budget).xUnits == [p.cap] && WithinCaps([p], [y]) && Earned([p], [y]) > Earned([p], [p.cap])
  {
    assert Caps([p]) == [p.cap] && [p.cap][1..] == [] && [p][1..] == [] && [y][1..] == [];
    assert Sum([p.cap]) == p.cap;
  }

  /** With nothing borrowed the marginal is constant, without noise. */
  lemma FlatMarginal(c: ReserveCurve, x: real, y: real)
    requires c.borrowedRaw == 0 && x >= 0.0 && y >= 0.0
    ensures MarginalYield(Interest(c))(x) == MarginalYield(Interest(c))(y) == c.rewardSupplyApr
  {
    FlatInterestIsLine(c);
    MarginalOfLine(Interest(c), c.rewardSupplyApr, x);
    MarginalOfLine(Interest(c), c.rewardSupplyApr, y);
  }

  // === A kink ===

  /** Free up to half utilisation, then steep; eight units lent out, nothing idle. */
  const KINKED := ReserveCurve(
    Suilend, [BorrowAprPoint(0.0, 0.0), BorrowAprPoint(0.5, 0.0), BorrowAprPoint(1.0, 100.0)],
    0.0, 8000000, 0, None, 6, 0.0)

  lemma KinkedSorted()
    ensures SortPoints(KINKED.borrowAprPoints) == KINKED.borrowAprPoints
  {
    var p, q, r := BorrowAprPoint(0.0, 0.0), BorrowAprPoint(0.5, 0.0), BorrowAprPoint(1.0, 100.0);
    assert [p, q, r][1..] == [q, r] && [q, r][1..] == [r] && [r][1..] == [];
    assert SortPoints([r]) == InsertPoint(r, []) == [r];
    assert SortPoints([q, r]) == InsertPoint(q, [r]) == [q] + [r] == [q, r];
    assert SortPoints([p, q, r]) == InsertPoint(p, [q, r]) == [p] + [q, r];
  }

  lemma KinkedScan(ps: seq<BorrowAprPoint>, u: real)
    requires ps == KINKED.borrowAprPoints && 0.0 <= u <= 1.0
    ensures SortedBorrowApr(ps, u) == if u <= 0.5 then 0.0 else (u - 0.5) * 200.0
  {
    assert ps[0] == BorrowAprPoint(0.0, 0.0) && ps[1] == BorrowAprPoint(0.5, 0.0);
    assert ps[2] == BorrowAprPoint(1.0, 100.0) && |ps| == 3;
    if 0.0 < u <= 0.5 {
      assert FirstAtOrBeyond(ps, u, 1) == 1;
    } else if 0.5 < u < 1.0 {
      assert FirstAtOrBeyond(ps, u, 2) == 2;
      assert FirstAtOrBeyond(ps, u, 1) == 2;
    }
  }

  lemma KinkedApr(u: real)
    requires 0.0 <= u <= 1.0
    ensures BorrowApr(KINKED.borrowAprPoints, u) == if u <= 0.5 then 0.0 else (u - 0.5) * 200.0
  {
    KinkedSorted();
    KinkedScan(KINKED.borrowAprPoints, u);
  }

  lemma MillionthsIs(raw: int)
    ensures ToUnits(raw, 6) == raw as real / 1000000.0
  {
    assert Amounts.Pow10(6) == 1000000;
  }

  lemma KinkedUtilization(raw: nat, u: real)
    requires u * (8000000 + raw) as real == 8000000.0
    ensures UtilizationAfterDeposit(KINKED, raw) == u && 0.0 <= u <= 1.0
  {
    MillionthsIs(8000000);
    MillionthsIs(0);
    MillionthsIs(raw);
    var denom := ToUnits(8000000, 6) + ToUnits(0, 6) + ToUnits(raw, 6);
    assert denom == (8000000 + raw) as real / 1000000.0;
    DivisionIs(8.0, denom, u);
    ProductOrder(0.0, u, denom);
    ProductOrder(u, 1.0, denom);
  }

  /** What a deposit of `raw` earns when it brings utilisation to `u`. */
  function KinkedRate(u: real): real { if u <= 0.5 then 0.0 else (u - 0.5) * 200.0 * u }

  lemma KinkedNet(raw: nat, u: real)
    requires u * (8000000 + raw) as real == 8000000.0
    ensures NetSupplyApr(KINKED, raw) == KinkedRate(u)
  {
    KinkedUtilization(raw, u);
    KinkedApr(u);
  }

  lemma InterestAtRaw(c: ReserveCurve, x: real, raw: int, rate: real)
    requires x >= 0.0 && ToRaw(x, c.decimals) == raw && NetSupplyApr(c, raw) == rate
    ensures Interest(c)(x) == x * rate
  {
    assert MaxReal(0.0, x) == x;
  }

  lemma RawMillionths(x: real, raw: nat)
    requires x > 0.0 && x * 1000000.0 == raw as real
    ensures ToRaw(x, 6) == raw
  {
    assert Amounts.Pow10(6) == 1000000;
  }

  lemma KinkedInterest(x: real, raw: nat, u: real, rate: real)
    requires x > 0.0 && x * 1000000.0 == raw as real && u * (8000000 + raw) as real == 8000000.0
    requires rate == KinkedRate(u)
    ensures Interest(KINKED)(x) == x * rate
  {
    RawMillionths(x, raw);
    KinkedNet(raw, u);
    InterestAtRaw(KINKED, x, raw, rate);
  }

  lemma KinkedPoint(x: real, raw: nat) returns (u: real, rate: real, earned: real)
    requires x > 0.0 && x * 1000000.0 == raw as real
    ensures u * (8000000 + raw) as real == 8000000.0 && rate == KinkedRate(u)
    ensures earned == x * rate && Interest(KINKED)(x) == earned
  {
    u := 8000000.0 / (8000000 + raw) as real;
    DifferenceIs(8000000.0, (8000000 + raw) as real);
    rate := KinkedRate(u);
    KinkedInterest(x, raw, u, rate);
    earned := x * rate;
  }

  lemma EarnedBefore(u: real, r: real, x: real, earned: real)
    requires u * 14999993.0 == 8000000.0 && r == KinkedRate(u) && x == 6.999993 && earned == x * r
    ensures earned > 24.8889
  {
    assert u == 8000000.0 / 14999993.0;
  }

  lemma EarnedAfter(u: real, r: real, x: real, earned: real)
    requires u * 15000007.0 == 8000000.0 && r == KinkedRate(u) && x == 7.000007 && earned == x * r
    ensures earned < 24.8889
  {
    assert u == 8000000.0 / 15000007.0;
  }

  lemma KinkedBefore(x: real)
    requires x == 6.999993
    ensures Interest(KINKED)(x) > 24.8889
  {
    var u, r, earned := KinkedPoint(x, 6999993);
    EarnedBefore(u, r, x, earned);
  }

  lemma KinkedAfter(x: real)
    requires x == 7.000007
    ensures Interest(KINKED)(x) < 24.8889
  {
    var u, r, earned := KinkedPoint(x, 7000007);
    EarnedAfter(u, r, x, earned);
  }

  lemma KinkedShare(raw: nat) returns (u: real)
    requires raw >= 8000000
    ensures u * (8000000 + raw) as real == 8000000.0 && u <= 0.5
  {
    u := 8000000.0 / (8000000 + raw) as real;
    DifferenceIs(8000000.0, (8000000 + raw) as real);
    ProductOrder(u, 0.5, (8000000 + raw) as real);
  }

  /** From eight units on, utilisation is at most half and nothing is earned. */
  lemma KinkedFree(x: real, raw: nat)
    requires x > 0.0 && x * 1000000.0 == raw as real && raw >= 8000000
    ensures Interest(KINKED)(x) == 0.0
  {
    var u := KinkedShare(raw);
    KinkedInterest(x, raw, u, 0.0);
  }

  lemma SignOf(m: real, d: real, rise: real)
    requires d > 0.0 && m * d == rise
    ensures (rise < 0.0 ==> m < 0.0) && (rise == 0.0 ==> m == 0.0)
  {
    ProductOrder(0.0, m, d);
    ProductOrder(m, 0.0, d);
  }

  lemma SignOfSlope(f: real -> real, x: real, lo: real, hi: real)
    requires x >= 0.0 && lo == Lower(x) && hi == Upper(x)
    ensures f(hi) < f(lo) ==> MarginalYield(f)(x) < 0.0
    ensures f(hi) == f(lo) ==> MarginalYield(f)(x) == 0.0
  {
    ReachFacts(x, x);
    MarginalIsSlope(f, x);
    SignOf(MarginalYield(f)(x), hi - lo, f(hi) - f(lo));
  }

  /** The marginal is negative at seven units and zero at nine: it rises where the deposit crosses the kink. */
  lemma KinkRaisesTheMarginal()
    ensures MarginalYield(Interest(KINKED))(7.0) < 0.0 == MarginalYield(Interest(KINKED))(9.0)
  {
    KinkedBefore(6.999993);
    KinkedAfter(7.000007);
    KinkedFree(8.999991, 8999991);
    KinkedFree(9.000009, 9000009);
    SignOfSlope(Interest(KINKED), 7.0, 6.999993, 7.000007);
    SignOfSlope(Interest(KINKED), 9.0, 8.999991, 9.000009);
  }
}
