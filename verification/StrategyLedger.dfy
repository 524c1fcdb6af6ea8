/** The shared ledger document and its queries: agent/src/core/strategyLedger.ts. */
module StrategyLedger {
  import opened Prelude

  datatype Protocol = Suilend | Navi | Scallop
  datatype Asset = Usdc | Sui | OtherAsset(symbol: string)
  datatype Actor = Executor | MainAgent

  /**
   * A health factor as the code sees it: a finite number, positive infinity, or the `null` that
   * positive infinity turns into once the ledger has been written to disk as JSON and read back.
   */
  datatype HealthFactor = Finite(value: real) | Infinite | Null

  datatype ProposalType = OpenLoop | BorrowAgainstExistingCollateral
  datatype ProposalStatus = Open | Accepted | Rejected | Expired
  datatype PlanStatus = Awaiting | Executing | Executed | Failed | Cancelled
  datatype LoopStatus = Opening | Active | Unwinding | Closed
  datatype ReceiptStatus = Planned | Confirmed | ReceiptFailed

  datatype MarketRate = MarketRate(
    protocol: Protocol, asset: Asset, supplyApr: real, borrowApr: real, priceUsd: real)
  datatype MarketSnapshot = MarketSnapshot(id: string, capturedAt: int, rates: seq<MarketRate>)

  datatype PositionLeg = PositionLeg(asset: Asset, coinType: string, rawAmount: string, amountUsd: real)
  datatype ProtocolPositions = ProtocolPositions(
    protocol: Protocol, healthFactor: HealthFactor, borrowLimitUsd: real, weightedBorrowsUsd: real,
    depositedAmountUsd: real, borrowedAmountUsd: real,
    deposits: seq<PositionLeg>, borrows: seq<PositionLeg>)
  datatype PositionSnapshot = PositionSnapshot(id: string, capturedAt: int, protocols: seq<ProtocolPositions>)

  datatype Proposal = Proposal(
    id: string, proposalType: ProposalType, expiresAt: int, status: ProposalStatus,
    collateralAsset: Asset, borrowAsset: Asset,
    collateralProtocol: Protocol, borrowProtocol: Protocol, supplyTargetProtocol: Protocol,
    rawCollateralAmount: string, rawBorrowAmount: string, collateralUsd: real, borrowUsd: real,
    projectedHealthFactor: HealthFactor, projectedNetAprBps: int,
    marketSnapshotId: string, positionSnapshotId: string, sourcePositionId: Option<string>)

  /** `Awaiting` is the source's plan status 'accepted'. */
  datatype Plan = Plan(
    id: string, proposalId: string, acceptedAt: int, status: PlanStatus,
    executorRunId: Option<string>, claimedBy: Option<Actor>, claimedAt: Option<int>,
    claimExpiresAt: Option<int>, executionReceiptId: Option<ReceiptId>)

  datatype ReceiptId = ReceiptId(planId: string, at: int, reconciled: bool)
  datatype Receipt = Receipt(
    id: ReceiptId, planId: string, proposalId: string, executorRunId: string, executedBy: Option<Actor>,
    dryRun: bool, startedAt: int, completedAt: int, status: ReceiptStatus)

  datatype RiskLock = RiskLock(
    createdAt: int, critical: bool, active: bool, protocol: Option<Protocol>, healthFactor: HealthFactor)

  datatype LoopPosition = LoopPosition(
    planId: string, proposalId: string, openedAt: int, status: LoopStatus,
    collateralProtocol: Protocol, supplyTargetProtocol: Protocol,
    rawCollateralAmount: string, rawBorrowAmount: string, borrowUsd: real)

  datatype Ledger = Ledger(
    marketSnapshots: seq<MarketSnapshot>,
    positionSnapshots: seq<PositionSnapshot>,
    strategyProposals: seq<Proposal>,
    acceptedPlans: seq<Plan>,
    executionReceipts: seq<Receipt>,
    riskLocks: seq<RiskLock>,
    loopPositions: seq<LoopPosition>)

  const EMPTY_LEDGER := Ledger([], [], [], [], [], [], [])

  const MAX_SNAPSHOTS: nat := 50
  const MAX_PROPOSALS: nat := 100
  const MAX_PLANS: nat := 100
  const MAX_RECEIPTS: nat := 100
  const MAX_LOCKS: nat := 100

  /** Every list is capped, newest first, except the loop positions, which are never pruned. */
  function Prune(l: Ledger): Ledger {
    Ledger(
      Take(l.marketSnapshots, MAX_SNAPSHOTS),
      Take(l.positionSnapshots, MAX_SNAPSHOTS),
      Take(l.strategyProposals, MAX_PROPOSALS),
      Take(l.acceptedPlans, MAX_PLANS),
      Take(l.executionReceipts, MAX_RECEIPTS),
      Take(l.riskLocks, MAX_LOCKS),
      l.loopPositions)
  }

  predicate IsActivePlan(p: Plan) { p.status.Awaiting? || p.status.Executing? }

  /** `activeLoopOpeningPlans(ledger).length > 0`. */
  predicate HasActivePlan(plans: seq<Plan>) {
    exists k :: 0 <= k < |plans| && IsActivePlan(plans[k])
  }

  predicate HasActiveLock(locks: seq<RiskLock>) {
    exists k :: 0 <= k < |locks| && locks[k].active
  }

  predicate IsFresh(capturedAt: int, staleMs: int, now: int) { now - capturedAt <= staleMs }
}
