/** How proposals are sized (agent/src/core/subagents.ts), and why the validator accepts the sizes. */
module Sizing {
  import opened Prelude
  import opened StrategyLedger
  import opened Subagents
  import Amounts

  const SUI_UNIT: real := 1000000000.0
  const USDC_UNIT: real := 1000000.0

  // === Sizing ===

  function EffectiveBorrowLimitUsd(e: ProtocolPositions): real {
    if e.borrowLimitUsd > 0.0 then e.borrowLimitUsd
    else if e.depositedAmountUsd <= 0.0 || e.borrowedAmountUsd > 0.0 then 0.0
    else e.depositedAmountUsd * 0.5
  }

  /** The clamps of the planned borrow. */
  function Least(cap: real, byFraction: real, byHealth: real): real {
    MaxReal(0.0, MinReal(cap, MinReal(MaxReal(0.0, byFraction), byHealth)))
  }

  function PlannedFrom(limit: real, weighted: real, cap: real, fraction: real, floor: real): real
    requires floor > 0.0
  {
    if limit <= 0.0 then 0.0 else Least(cap, (limit - weighted) * fraction, limit / floor - weighted)
  }

  function PlannedBorrowUsd(e: ProtocolPositions, cfg: Config): real
    requires cfg.minHealthFactor > 0.0
  {
    PlannedFrom(EffectiveBorrowLimitUsd(e), e.weightedBorrowsUsd, cfg.maxBorrowUsd, cfg.borrowCapacityFraction,
                cfg.minHealthFactor)
  }

  function CappedSuiBorrowRaw(maxBorrowUsd: real, price: real, cfg: Config): int {
    if maxBorrowUsd <= 0.0 || price <= 0.0 || cfg.maxBorrowRaw <= 0 then 0
    else
      var requested := (maxBorrowUsd / price * SUI_UNIT).Floor;
      var positive := if requested > 0 then requested else 0;
      if positive < cfg.maxBorrowRaw then positive else cfg.maxBorrowRaw
  }

  function SuiRawToUsd(raw: int, price: real): real { raw as real / SUI_UNIT * price }

  function MaxFreshCollateralUsd(cfg: Config, walletUsdcRaw: Option<int>): real {
    match walletUsdcRaw
    case None => MaxReal(0.0, cfg.maxCollateralUsd)
    case Some(raw) => MaxReal(0.0, MinReal(cfg.maxCollateralUsd, raw as real / USDC_UNIT))
  }

  function SuiPrice(rate: MarketRate): (r: real)
    ensures r > 0.0
  {
    if rate.priceUsd > 0.0 then rate.priceUsd else 1.0
  }

  function ProjectedHealth(limit: real, weighted: real): HealthFactor {
    if weighted > 0.0 then Finite(limit / weighted) else Infinite
  }

  function NetAprBps(target: MarketRate, borrow: MarketRate): int {
    ((target.supplyApr - borrow.borrowApr) * 100.0 + 0.5).Floor
  }

  // === Choosing markets ===

  function RateFor(protocol: Protocol, asset: Asset): MarketRate -> bool {
    (r: MarketRate) => r.protocol == protocol && r.asset == asset
  }

  function TargetFor(protocol: Protocol): MarketRate -> bool {
    (r: MarketRate) => r.protocol != protocol && r.asset == Sui
  }

  /** First of the rates with the highest supply APR: a stable descending sort's first element. */
  function BestSupply(rates: seq<MarketRate>): (r: MarketRate)
    requires rates != []
    ensures r in rates && forall x :: x in rates ==> x.supplyApr <= r.supplyApr
  {
    if |rates| == 1 then rates[0]
    else
      var rest := BestSupply(rates[1..]);
      assert forall x :: x in rates ==> x == rates[0] || x in rates[1..];
      if rest.supplyApr > rates[0].supplyApr then rest else rates[0]
  }

  datatype Collateral = Collateral(positions: ProtocolPositions, deposit: PositionLeg)

  function DepositsOf(e: ProtocolPositions, legs: seq<PositionLeg>): (r: seq<Collateral>)
    ensures forall c :: c in r ==> c.positions == e && c.deposit.amountUsd > 0.0
  {
    if legs == [] then []
    else
      (if legs[0].asset == Usdc && legs[0].amountUsd > 0.0 then [Collateral(e, legs[0])] else [])
      + DepositsOf(e, legs[1..])
  }

  function UsdcDeposits(es: seq<ProtocolPositions>): (r: seq<Collateral>)
    ensures forall c :: c in r ==> c.positions in es
  {
    if es == [] then [] else DepositsOf(es[0], es[0].deposits) + UsdcDeposits(es[1..])
  }

  function LargestDeposit(cs: seq<Collateral>): (c: Collateral)
    requires cs != []
    ensures c in cs && forall x :: x in cs ==> x.deposit.amountUsd <= c.deposit.amountUsd
  {
    if |cs| == 1 then cs[0]
    else
      var rest := LargestDeposit(cs[1..]);
      assert forall x :: x in cs ==> x == cs[0] || x in cs[1..];
      if rest.deposit.amountUsd > cs[0].deposit.amountUsd then rest else cs[0]
  }

  function ProtocolName(p: Protocol): string {
    match p case Suilend => "suilend" case Navi => "navi" case Scallop => "scallop"
  }

  // === The builders ===

  function BuildExistingCollateralProposal(
    cfg: Config, id: string, market: MarketSnapshot, positions: PositionSnapshot, now: int): Option<Proposal>
    requires cfg.minHealthFactor > 0.0
  {
    var deposits := UsdcDeposits(positions.protocols);
    if deposits == [] then None
    else
      var c := LargestDeposit(deposits);
      var protocol := c.positions.protocol;
      var b := FindIndex(market.rates, RateFor(protocol, Sui));
      var targets := Filter(market.rates, TargetFor(protocol));
      if b == |market.rates| || targets == [] then None
      else
        var price := SuiPrice(market.rates[b]);
        var raw := CappedSuiBorrowRaw(PlannedBorrowUsd(c.positions, cfg), price, cfg);
        if raw <= 0 then None
        else
          var target := BestSupply(targets);
          var borrowUsd := SuiRawToUsd(raw, price);
          Some(Proposal(
            id, BorrowAgainstExistingCollateral, now + cfg.proposalTtlMs, Open, Usdc, Sui,
            protocol, protocol, target.protocol, c.deposit.rawAmount, Amounts.NatToString(raw),
            c.deposit.amountUsd, borrowUsd,
            ProjectedHealth(EffectiveBorrowLimitUsd(c.positions), c.positions.weightedBorrowsUsd + borrowUsd),
            NetAprBps(target, market.rates[b]), market.id, positions.id,
            Some(ProtocolName(protocol) + ":" + c.deposit.coinType + ":" + c.deposit.rawAmount)))
  }

  function BuildFreshLoopProposal(
    cfg: Config, id: string, market: MarketSnapshot, positions: PositionSnapshot,
    walletUsdcRaw: Option<int>, now: int): Option<Proposal>
  {
    var q := FindIndex(market.rates, (r: MarketRate) => r.asset == Usdc);
    if q == |market.rates| then None
    else
      var protocol := market.rates[q].protocol;
      var b := FindIndex(market.rates, RateFor(protocol, Sui));
      var targets := Filter(market.rates, TargetFor(protocol));
      var collateralUsd := MaxFreshCollateralUsd(cfg, walletUsdcRaw);
      if b == |market.rates| || targets == [] || collateralUsd <= 0.0 then None
      else
        var price := SuiPrice(market.rates[b]);
        var raw := CappedSuiBorrowRaw(cfg.maxBorrowUsd, price, cfg);
        if raw <= 0 then None
        else
          var target := BestSupply(targets);
          var rawCollateral := (collateralUsd * USDC_UNIT).Floor;
          var borrowUsd := SuiRawToUsd(raw, price);
          var e := FindIndex(positions.protocols, PositionsOn(protocol));
          var limit := if e < |positions.protocols| then positions.protocols[e].borrowLimitUsd else 0.0;
          var weighted := if e < |positions.protocols| then positions.protocols[e].weightedBorrowsUsd else 0.0;
          Some(Proposal(
            id, OpenLoop, now + cfg.proposalTtlMs, Open, Usdc, Sui, protocol, protocol, target.protocol,
            Amounts.NatToString(if rawCollateral > 1 then rawCollateral else 1), Amounts.NatToString(raw),
            collateralUsd, borrowUsd,
            ProjectedHealth(limit + collateralUsd * 0.7, weighted + borrowUsd),
            NetAprBps(target, market.rates[b]), market.id, positions.id, None))
  }

  function BuildLoopProposal(
    cfg: Config, id: string, market: Option<MarketSnapshot>, positions: Option<PositionSnapshot>,
    walletUsdcRaw: Option<int>, now: int): Option<Proposal>
    requires cfg.minHealthFactor > 0.0
  {
    if market.None? || positions.None? || cfg.collateralAsset != Usdc || cfg.borrowAsset != Sui then None
    else
      var existing :=
        if cfg.useExistingCollateral
        then BuildExistingCollateralProposal(cfg, id, market.value, positions.value, now) else None;
      if existing.Some? then existing
      else BuildFreshLoopProposal(cfg, id, market.value, positions.value, walletUsdcRaw, now)
  }

  // === The sizes are the greatest that respect their limits ===

  lemma FloorAtMost(x: real, n: int)
    ensures n <= x.Floor <==> n as real <= x
  {
  }

  lemma MulDiv(a: real, price: real, usd: real)
    requires price > 0.0
    ensures a / SUI_UNIT * price <= usd <==> a <= usd / price * SUI_UNIT
  {
    var q := usd / price;
    assert q * price == usd;
    var u := a / SUI_UNIT;
    if u <= q {
      assert (q - u) * price >= 0.0;
    } else {
      assert (u - q) * price > 0.0;
    }
  }

  /** A raw borrow fits under both caps exactly when it is no more than the capped amount. */
  lemma CappedBorrowIsGreatest(usd: real, price: real, cfg: Config, raw: nat)
    requires usd > 0.0 && price > 0.0 && cfg.maxBorrowRaw > 0
    ensures raw <= CappedSuiBorrowRaw(usd, price, cfg) <==> (
        raw <= cfg.maxBorrowRaw && SuiRawToUsd(raw, price) <= usd)
  {
    var x := usd / price * SUI_UNIT;
    FloorAtMost(x, raw);
    MulDiv(raw as real, price, usd);
    assert x > 0.0 by { assert usd / price > 0.0; }
  }

  lemma DivBy(limit: real, floor: real, w: real)
    requires floor > 0.0 && w > 0.0
    ensures w <= limit / floor <==> limit / w >= floor
  {
    var q, r := limit / floor, limit / w;
    assert q * floor == limit && r * w == limit;
    assert (q - w) * floor == (r - floor) * w;
    if w <= q { assert (q - w) * floor >= 0.0; } else { assert (w - q) * floor > 0.0; }
    if r >= floor { assert (r - floor) * w >= 0.0; } else { assert (floor - r) * w > 0.0; }
  }

  /** Within the dollar cap and the capacity fraction, and the health factor after it is at or above the floor. */
  predicate BorrowFits(limit: real, w: real, cap: real, fraction: real, floor: real, usd: real)
    requires w + usd != 0.0
  {
    usd <= cap && usd <= (limit - w) * fraction && limit / (w + usd) >= floor
  }

  /** The clamps at zero do not matter to a positive amount. */
  lemma LeastOf(usd: real, cap: real, byFraction: real, byHealth: real)
    requires usd > 0.0
    ensures usd <= Least(cap, byFraction, byHealth) <==> usd <= cap && usd <= byFraction && usd <= byHealth
  {
  }

  /** `u` is the debt after the borrow and `q` the most the health floor leaves room for. */
  lemma LeastFits(cap: real, f: real, q: real, w: real, u: real, h: real, floor: real, usd: real)
    requires usd > 0.0 && u == w + usd && (u <= q <==> h >= floor)
    ensures usd <= Least(cap, f, q - w) <==> usd <= cap && usd <= f && h >= floor
  {
    LeastOf(usd, cap, f, q - w);
  }

  lemma LeastIsGreatest(limit: real, w: real, cap: real, f: real, floor: real, usd: real)
    requires floor > 0.0 && usd > 0.0 && w >= 0.0
    ensures usd <= Least(cap, f, limit / floor - w) <==> usd <= cap && usd <= f && limit / (w + usd) >= floor
  {
    var u := w + usd;
    DivBy(limit, floor, u);
    LeastFits(cap, f, limit / floor, w, u, limit / u, floor, usd);
  }

  lemma PlannedFromIsGreatest(limit: real, w: real, cap: real, fraction: real, floor: real, usd: real)
    requires floor > 0.0 && usd > 0.0 && w >= 0.0 && limit > 0.0
    ensures usd <= PlannedFrom(limit, w, cap, fraction, floor) <==> BorrowFits(limit, w, cap, fraction, floor, usd)
  {
    LeastIsGreatest(limit, w, cap, (limit - w) * fraction, floor, usd);
  }

  /**
   * A positive borrow is within the planned amount exactly when it respects the dollar cap and the
   * capacity fraction and leaves the projected health factor at or above the floor.
   */
  lemma PlannedBorrowIsGreatest(e: ProtocolPositions, cfg: Config, usd: real)
    requires cfg.minHealthFactor > 0.0 && usd > 0.0 && e.weightedBorrowsUsd >= 0.0
    requires EffectiveBorrowLimitUsd(e) > 0.0
    ensures usd <= PlannedBorrowUsd(e, cfg)
       <==> BorrowFits(EffectiveBorrowLimitUsd(e), e.weightedBorrowsUsd, cfg.maxBorrowUsd,
                       cfg.borrowCapacityFraction, cfg.minHealthFactor, usd)
  {
    PlannedFromIsGreatest(EffectiveBorrowLimitUsd(e), e.weightedBorrowsUsd, cfg.maxBorrowUsd,
                          cfg.borrowCapacityFraction, cfg.minHealthFactor, usd);
  }

  // === What the builders return passes the validator ===

  lemma BigIntOfPrinted(n: nat)
    ensures Amounts.BigIntOf(Amounts.NatToString(n)) == Some(n)
  {
    Amounts.DigitsOfNat(n);
  }

  lemma {:induction false} FilterHas<T>(s: seq<T>, p: T -> bool)
    ensures forall x :: x in Filter(s, p) ==> x in s && p(x)
  {
    if s != [] { FilterHas(s[1..], p); }
  }

  /** The denials that depend on the time, the rates and the ledger rather than on the sizes. */
  predicate NotAboutSizes(v: Verdict) {
    v.Allowed? ||
    (v.Denied? && v.reason in {
      StrategyDisabled, UnsupportedDepth, ProposalExpired, NetAprTooLow, RiskLockActive, PlanActive,
      TooManyLoops, StaleMarket, StalePositions})
  }

  lemma SuiUsdPositive(raw: int, price: real)
    requires raw > 0 && price > 0.0
    ensures SuiRawToUsd(raw, price) > 0.0
  {
    assert raw as real / SUI_UNIT > 0.0;
  }

  /**
   * Sizing is sound for the validator: whatever the ledger and the time, an existing-collateral proposal
   * is never turned down for its assets, protocols, source position, health factor or amounts.
   */
  lemma ExistingCollateralPassesSizeChecks(
    cfg: Config, id: string, market: MarketSnapshot, positions: PositionSnapshot, now: int,
    l: Ledger, later: int)
    requires cfg.minHealthFactor > 0.0
    requires forall e :: e in positions.protocols ==> e.weightedBorrowsUsd >= 0.0
    requires BuildExistingCollateralProposal(cfg, id, market, positions, now).Some?
    ensures var p := BuildExistingCollateralProposal(cfg, id, market, positions, now).value;
      && AmountVerdict(p, cfg) == Allowed && HealthVerdict(p.projectedHealthFactor, cfg.minHealthFactor) == Allowed
      && NotAboutSizes(ShapeVerdict(p, cfg, later))
      && NotAboutSizes(ValidateLoopProposal(p, l, cfg, later))
      && p.supplyTargetProtocol != p.collateralProtocol == p.borrowProtocol
  {
    var p := BuildExistingCollateralProposal(cfg, id, market, positions, now).value;
    var c := LargestDeposit(UsdcDeposits(positions.protocols));
    var e := c.positions;
    assert e in positions.protocols;
    var b := FindIndex(market.rates, RateFor(e.protocol, Sui));
    var price := SuiPrice(market.rates[b]);
    var planned := PlannedBorrowUsd(e, cfg);
    var raw := CappedSuiBorrowRaw(planned, price, cfg);
    CappedBorrowIsGreatest(planned, price, cfg, raw);
    BigIntOfPrinted(raw);
    SuiUsdPositive(raw, price);
    PlannedBorrowIsGreatest(e, cfg, p.borrowUsd);
    FilterHas(market.rates, TargetFor(e.protocol));
    assert TargetFor(e.protocol)(BestSupply(Filter(market.rates, TargetFor(e.protocol))));
  }

  /**
   * A fresh open-loop proposal stays within both borrow caps and the collateral cap, and when the wallet
   * balance is known it never supplies more raw USDC than the wallet holds.
   */
  lemma FreshLoopStaysWithinCaps(
    cfg: Config, id: string, market: MarketSnapshot, positions: PositionSnapshot,
    walletUsdcRaw: Option<int>, now: int)
    requires BuildFreshLoopProposal(cfg, id, market, positions, walletUsdcRaw, now).Some?
    ensures var p := BuildFreshLoopProposal(cfg, id, market, positions, walletUsdcRaw, now).value;
      && AmountVerdict(p, cfg) == Allowed
      && p.collateralUsd <= cfg.maxCollateralUsd
      && Amounts.BigIntOf(p.rawCollateralAmount).Some?
      && (walletUsdcRaw.Some? ==> Amounts.BigIntOf(p.rawCollateralAmount).value <= walletUsdcRaw.value)
      && p.supplyTargetProtocol != p.collateralProtocol && p.borrowProtocol == p.collateralProtocol
  {
    var p := BuildFreshLoopProposal(cfg, id, market, positions, walletUsdcRaw, now).value;
    var protocol := p.collateralProtocol;
    var b := FindIndex(market.rates, RateFor(protocol, Sui));
    var price := SuiPrice(market.rates[b]);
    var raw := CappedSuiBorrowRaw(cfg.maxBorrowUsd, price, cfg);
    CappedBorrowIsGreatest(cfg.maxBorrowUsd, price, cfg, raw);
    BigIntOfPrinted(raw);
    var collateral := (p.collateralUsd * USDC_UNIT).Floor;
    BigIntOfPrinted(if collateral > 1 then collateral else 1);
    if walletUsdcRaw.Some? {
      assert p.collateralUsd <= walletUsdcRaw.value as real / USDC_UNIT;
      FloorAtMost(p.collateralUsd * USDC_UNIT, walletUsdcRaw.value + 1);
    }
    FilterHas(market.rates, TargetFor(protocol));
    assert TargetFor(protocol)(BestSupply(Filter(market.rates, TargetFor(protocol))));
  }

  /** Whichever builder is used: the proposal is well formed and its borrow is within both caps. */
  lemma BuiltProposalsPassAmounts(
    cfg: Config, id: string, market: Option<MarketSnapshot>, positions: Option<PositionSnapshot>,
    walletUsdcRaw: Option<int>, now: int)
    requires cfg.minHealthFactor > 0.0
    requires positions.Some? ==> forall e :: e in positions.value.protocols ==> e.weightedBorrowsUsd >= 0.0
    requires BuildLoopProposal(cfg, id, market, positions, walletUsdcRaw, now).Some?
    ensures var p := BuildLoopProposal(cfg, id, market, positions, walletUsdcRaw, now).value;
      && cfg.collateralAsset == Usdc && cfg.borrowAsset == Sui
      && (p.proposalType.BorrowAgainstExistingCollateral? ==> cfg.useExistingCollateral)
      && AmountVerdict(p, cfg) == Allowed
      && p.supplyTargetProtocol != p.collateralProtocol == p.borrowProtocol
  {
    if cfg.useExistingCollateral
       && BuildExistingCollateralProposal(cfg, id, market.value, positions.value, now).Some? {
      ExistingCollateralPassesSizeChecks(cfg, id, market.value, positions.value, now, EMPTY_LEDGER, now);
    } else {
      FreshLoopStaysWithinCaps(cfg, id, market.value, positions.value, walletUsdcRaw, now);
    }
  }
}
