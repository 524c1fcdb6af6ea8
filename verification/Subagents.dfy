/**
 * The decisions of agent/src/core/subagents.ts as functions on the ledger document. Every `...Mutator`
 * is the body handed to `ledgerStore.update`; the in-place versions are in module LedgerStore.
 */
module Subagents {
  import opened Prelude
  import opened StrategyLedger
  import Amounts

  datatype Config = Config(
    dryRun: bool, enableBorrow: bool, maxBorrowRaw: int,
    enabled: bool, executionEnabled: bool, maxDepth: int, maxConcurrentLoops: int,
    minHealthFactor: real, criticalHealthFactor: real, minNetAprBps: int,
    maxCollateralUsd: real, maxBorrowUsd: real, borrowCapacityFraction: real,
    useExistingCollateral: bool, staleSnapshotMs: int, executionClaimTtlMs: int, proposalTtlMs: int,
    collateralAsset: Asset, borrowAsset: Asset)

  // === Policy ===

  datatype Denial =
    | StrategyDisabled | UnsupportedDepth | UnsupportedAssets | BorrowProtocolMismatch | SameProtocol
    | MissingSourcePosition | ProposalExpired | HealthFactorTooLow | NetAprTooLow | BorrowUsdTooHigh
    | BorrowRawTooHigh | BorrowRawInvalid | CollateralUsdTooHigh | RiskLockActive | PlanActive
    | TooManyLoops | StaleMarket | StalePositions | BorrowDisabled | ExecutionDisabled

  /** `Throws`: formatting the denial text of a `null` health factor raises a TypeError. */
  datatype Verdict = Allowed | Denied(reason: Denial) | Throws

  function HealthVerdict(hf: HealthFactor, floor: real): Verdict {
    match hf
    case Finite(v) => if v < floor then Denied(HealthFactorTooLow) else Allowed
    case Infinite => Allowed
    case Null => if 0.0 < floor then Throws else Allowed
  }

  function AmountVerdict(p: Proposal, cfg: Config): Verdict {
    if p.borrowUsd > cfg.maxBorrowUsd then Denied(BorrowUsdTooHigh)
    else
      match Amounts.BigIntOf(p.rawBorrowAmount)
      case None => Denied(BorrowRawInvalid)
      case Some(raw) =>
        if raw > cfg.maxBorrowRaw then Denied(BorrowRawTooHigh)
        else if p.proposalType.OpenLoop? && p.collateralUsd > cfg.maxCollateralUsd then Denied(CollateralUsdTooHigh)
        else Allowed
  }

  predicate CountsAgainstCapacity(loop: LoopPosition) { loop.status.Active? || loop.status.Opening? }

  function LedgerVerdict(p: Proposal, l: Ledger, cfg: Config, now: int): Verdict {
    if HasActiveLock(l.riskLocks) then Denied(RiskLockActive)
    else if HasActivePlan(l.acceptedPlans) then Denied(PlanActive)
    else if Count(l.loopPositions, CountsAgainstCapacity) >= cfg.maxConcurrentLoops then Denied(TooManyLoops)
    else
      var m := FindIndex(l.marketSnapshots, (s: MarketSnapshot) => s.id == p.marketSnapshotId);
      if m == |l.marketSnapshots| || !IsFresh(l.marketSnapshots[m].capturedAt, cfg.staleSnapshotMs, now)
      then Denied(StaleMarket)
      else
        var q := FindIndex(l.positionSnapshots, (s: PositionSnapshot) => s.id == p.positionSnapshotId);
        if q == |l.positionSnapshots| || !IsFresh(l.positionSnapshots[q].capturedAt, cfg.staleSnapshotMs, now)
        then Denied(StalePositions)
        else Allowed
  }

  function ShapeVerdict(p: Proposal, cfg: Config, now: int): Verdict {
    if !cfg.enabled then Denied(StrategyDisabled)
    else if cfg.maxDepth != 1 then Denied(UnsupportedDepth)
    else if !p.collateralAsset.Usdc? || !p.borrowAsset.Sui? then Denied(UnsupportedAssets)
    else if p.borrowProtocol != p.collateralProtocol then Denied(BorrowProtocolMismatch)
    else if p.supplyTargetProtocol == p.collateralProtocol then Denied(SameProtocol)
    else if p.proposalType.BorrowAgainstExistingCollateral?
         && (p.sourcePositionId.None? || p.sourcePositionId.value == "") then Denied(MissingSourcePosition)
    else if p.expiresAt <= now then Denied(ProposalExpired)
    else Allowed
  }

  function ValidateLoopProposal(p: Proposal, l: Ledger, cfg: Config, now: int): Verdict {
    var shape := ShapeVerdict(p, cfg, now);
    if !shape.Allowed? then shape
    else
      var health := HealthVerdict(p.projectedHealthFactor, cfg.minHealthFactor);
      if !health.Allowed? then health
      else if p.projectedNetAprBps < cfg.minNetAprBps then Denied(NetAprTooLow)
      else
        var amounts := AmountVerdict(p, cfg);
        if !amounts.Allowed? then amounts else LedgerVerdict(p, l, cfg, now)
  }

  /** The gate ignores the plan list (the plan being executed is on it) but not the locks and loops. */
  function ValidateExecutorGate(p: Proposal, l: Ledger, cfg: Config, now: int): Verdict {
    if !cfg.enabled then Denied(StrategyDisabled)
    else if !cfg.dryRun && !cfg.enableBorrow then Denied(BorrowDisabled)
    else if !cfg.dryRun && !cfg.executionEnabled then Denied(ExecutionDisabled)
    else ValidateLoopProposal(p, l.(acceptedPlans := []), cfg, now)
  }

  // === Strategist and main agent: inserting a proposal ===

  /** What a proposal looks like once the ledger has gone through JSON. */
  function Persisted(p: Proposal): Proposal {
    if p.projectedHealthFactor.Infinite? then p.(projectedHealthFactor := Null) else p
  }

  function InsertedProposal(p: Proposal, l: Ledger, cfg: Config, now: int): Proposal {
    Persisted(p).(status := if ValidateLoopProposal(p, l, cfg, now).Allowed? then Open else Rejected)
  }

  function ProposeMutator(l: Ledger, p: Proposal, cfg: Config, now: int): Ledger {
    l.(strategyProposals := [InsertedProposal(p, l, cfg, now)] + l.strategyProposals)
  }

  // === Coordinator ===

  function ExpireProposal(p: Proposal, now: int): Proposal {
    if p.status.Open? && p.expiresAt <= now then p.(status := Expired) else p
  }

  function ExpireProposals(ps: seq<Proposal>, now: int): (r: seq<Proposal>)
    ensures |r| == |ps|
    ensures forall k :: 0 <= k < |ps| ==> r[k] == ExpireProposal(ps[k], now)
  {
    seq(|ps|, k requires 0 <= k < |ps| => ExpireProposal(ps[k], now))
  }

  predicate ClaimExpired(plan: Plan, now: int) {
    plan.status.Executing? && plan.claimExpiresAt.Some? && plan.claimExpiresAt.value <= now
  }

  function ProposalWithId(id: string): Proposal -> bool { (p: Proposal) => p.id == id }
  function PlanWithId(id: string): Plan -> bool { (p: Plan) => p.id == id }
  function LoopOfPlan(id: string): LoopPosition -> bool { (l: LoopPosition) => l.planId == id }
  function PositionsOn(protocol: Protocol): ProtocolPositions -> bool {
    (e: ProtocolPositions) => e.protocol == protocol
  }

  function MatchingRaw(legs: seq<PositionLeg>, asset: Asset): int {
    if legs == [] then 0
    else
      var rest := MatchingRaw(legs[1..], asset);
      if legs[0].asset == asset && legs[0].rawAmount != "" && Amounts.AllDigits(legs[0].rawAmount)
      then Amounts.DigitsValue(legs[0].rawAmount) + rest else rest
  }

  function MatchingUsd(legs: seq<PositionLeg>, asset: Asset): real {
    if legs == [] then 0.0
    else (if legs[0].asset == asset then legs[0].amountUsd else 0.0) + MatchingUsd(legs[1..], asset)
  }

  predicate HasPositionAmount(legs: seq<PositionLeg>, asset: Asset, rawAmount: string, amountUsd: real) {
    || (rawAmount != "" && Amounts.AllDigits(rawAmount)
        && MatchingRaw(legs, asset) >= Amounts.DigitsValue(rawAmount))
    || MatchingUsd(legs, asset) >= amountUsd * 0.9
  }

  predicate ExecutionAppearsOnChain(p: Proposal, s: PositionSnapshot) {
    var c := FindIndex(s.protocols, PositionsOn(p.collateralProtocol));
    var t := FindIndex(s.protocols, PositionsOn(p.supplyTargetProtocol));
    && c < |s.protocols| && t < |s.protocols|
    && (p.proposalType.BorrowAgainstExistingCollateral?
        || HasPositionAmount(s.protocols[c].deposits, Usdc, p.rawCollateralAmount, p.collateralUsd))
    && HasPositionAmount(s.protocols[c].borrows, Sui, p.rawBorrowAmount, p.borrowUsd)
    && HasPositionAmount(s.protocols[t].deposits, Sui, p.rawBorrowAmount, p.borrowUsd)
  }

  function NewLoop(planId: string, p: Proposal, openedAt: int, status: LoopStatus): LoopPosition {
    LoopPosition(planId, p.id, openedAt, status, p.collateralProtocol, p.supplyTargetProtocol,
                 p.rawCollateralAmount, p.rawBorrowAmount, p.borrowUsd)
  }

  function ReconciledReceipt(plan: Plan, p: Proposal, now: int): Receipt {
    Receipt(ReceiptId(plan.id, now, true), plan.id, p.id,
            if plan.executorRunId.Some? then plan.executorRunId.value else "reconciled-expired-claim",
            plan.claimedBy, false,
            if plan.claimedAt.Some? then plan.claimedAt.value else plan.acceptedAt, now, Confirmed)
  }

  /** One round of the reconciliation loop, for the plan at index `k`. */
  function ReconcileOne(l: Ledger, now: int, k: nat): (r: Ledger)
    requires k < |l.acceptedPlans|
    ensures |r.acceptedPlans| == |l.acceptedPlans|
  {
    var plan := l.acceptedPlans[k];
    if !ClaimExpired(plan, now) then l
    else
      var q := FindIndex(l.strategyProposals, ProposalWithId(plan.proposalId));
      if q < |l.strategyProposals| && l.positionSnapshots != []
         && ExecutionAppearsOnChain(l.strategyProposals[q], l.positionSnapshots[0])
      then
        var p := l.strategyProposals[q];
        var receipt := ReconciledReceipt(plan, p, now);
        l.(acceptedPlans := l.acceptedPlans[k := plan.(status := Executed, executionReceiptId := Some(receipt.id))],
           executionReceipts := [receipt] + l.executionReceipts,
           loopPositions :=
             if FindIndex(l.loopPositions, LoopOfPlan(plan.id)) < |l.loopPositions| then l.loopPositions
             else [NewLoop(plan.id, p, now, Active)] + l.loopPositions)
      else l.(acceptedPlans := l.acceptedPlans[k := plan.(status := Cancelled)])
  }

  function ReconcileFrom(l: Ledger, now: int, k: nat): (r: Ledger)
    requires k <= |l.acceptedPlans|
    decreases |l.acceptedPlans| - k
  {
    if k == |l.acceptedPlans| then l else ReconcileFrom(ReconcileOne(l, now, k), now, k + 1)
  }

  function Reconcile(l: Ledger, cfg: Config, now: int): Ledger {
    if cfg.dryRun then l else ReconcileFrom(l, now, 0)
  }

  function PlanIdFor(proposalId: string): string { "plan-" + proposalId }

  function NewPlan(proposalId: string, now: int): Plan {
    Plan(PlanIdFor(proposalId), proposalId, now, Awaiting, None, None, None, None, None)
  }

  /** `None` is a mutator that threw: nothing is saved. */
  function AcceptMutator(l: Ledger, cfg: Config, now: int): Option<Ledger> {
    if HasActivePlan(l.acceptedPlans) then Some(l)
    else
      var k := FindIndex(l.strategyProposals, (p: Proposal) => p.status.Open?);
      if k == |l.strategyProposals| then Some(l)
      else
        var p := l.strategyProposals[k];
        match ValidateLoopProposal(p, l, cfg, now)
        case Throws => None
        case Denied(_) => Some(l.(strategyProposals := l.strategyProposals[k := p.(status := Rejected)]))
        case Allowed =>
          Some(l.(strategyProposals := l.strategyProposals[k := p.(status := Accepted)],
                  acceptedPlans := [NewPlan(p.id, now)] + l.acceptedPlans))
  }

  function CoordinatorMutator(l: Ledger, cfg: Config, now: int): Option<Ledger> {
    var expired := l.(strategyProposals := ExpireProposals(l.strategyProposals, now));
    AcceptMutator(Reconcile(expired, cfg, now), cfg, now)
  }

  // === Executor and main agent: claim, gate, finalise ===

  predicate Claimable(plan: Plan, cfg: Config, now: int) {
    plan.status.Awaiting? || (cfg.dryRun && ClaimExpired(plan, now))
  }

  function ClaimCandidate(l: Ledger, cfg: Config, now: int, planId: Option<string>): (k: nat)
    ensures k <= |l.acceptedPlans|
  {
    match planId
    case Some(id) => FindIndex(l.acceptedPlans, PlanWithId(id))
    case None => FindIndex(l.acceptedPlans, (p: Plan) => Claimable(p, cfg, now))
  }

  function ClaimedPlan(plan: Plan, cfg: Config, now: int, actor: Actor, runId: string): Plan {
    plan.(status := Executing, executorRunId := Some(runId), claimedBy := Some(actor),
          claimedAt := Some(now), claimExpiresAt := Some(now + cfg.executionClaimTtlMs))
  }

  datatype ClaimOutcome = ClaimOutcome(ledger: Ledger, claimed: Option<(Plan, Proposal)>)

  function ClaimMutator(
      l: Ledger, cfg: Config, now: int, actor: Actor, runId: string, planId: Option<string>): ClaimOutcome {
    var k := ClaimCandidate(l, cfg, now, planId);
    if k == |l.acceptedPlans| || !Claimable(l.acceptedPlans[k], cfg, now) then ClaimOutcome(l, None)
    else
      var plan := l.acceptedPlans[k];
      var q := FindIndex(l.strategyProposals, ProposalWithId(plan.proposalId));
      if q == |l.strategyProposals| then
        ClaimOutcome(l.(acceptedPlans := l.acceptedPlans[k := plan.(status := Failed)]), None)
      else
        var claimed := ClaimedPlan(plan, cfg, now, actor, runId);
        ClaimOutcome(l.(acceptedPlans := l.acceptedPlans[k := claimed]), Some((claimed, l.strategyProposals[q])))
  }

  /** The fence: a later write goes through only while the plan still carries the writer's claim. */
  predicate HoldsClaim(plan: Plan, actor: Actor, runId: string) {
    plan.claimedBy == Some(actor) && plan.executorRunId == Some(runId)
  }

  function BlockMutator(l: Ledger, planId: string, actor: Actor, runId: string): Ledger {
    var k := FindIndex(l.acceptedPlans, PlanWithId(planId));
    if k == |l.acceptedPlans| || !HoldsClaim(l.acceptedPlans[k], actor, runId) then l
    else l.(acceptedPlans := l.acceptedPlans[k := l.acceptedPlans[k].(status := Failed)])
  }

  function FinalReceipt(
      plan: Plan, p: Proposal, actor: Actor, runId: string, cfg: Config, now: int, failed: bool): Receipt {
    Receipt(ReceiptId(plan.id, now, false), plan.id, p.id, runId, Some(actor), cfg.dryRun,
            if plan.claimedAt.Some? then plan.claimedAt.value else now, now,
            if failed then ReceiptFailed else if cfg.dryRun then Planned else Confirmed)
  }

  /** `plan` and `p` are the copies taken when the claim was made. */
  function FinaliseMutator(
      l: Ledger, plan: Plan, p: Proposal, actor: Actor, runId: string,
      cfg: Config, now: int, failed: bool): Ledger {
    var k := FindIndex(l.acceptedPlans, PlanWithId(plan.id));
    if k == |l.acceptedPlans| || !HoldsClaim(l.acceptedPlans[k], actor, runId) then l
    else
      var receipt := FinalReceipt(plan, p, actor, runId, cfg, now, failed);
      l.(acceptedPlans := l.acceptedPlans[k := l.acceptedPlans[k].(
           status := if failed then Failed else Executed, executionReceiptId := Some(receipt.id))],
         executionReceipts := [receipt] + l.executionReceipts,
         loopPositions :=
           if failed then l.loopPositions
           else [NewLoop(plan.id, p, now, if cfg.dryRun then Opening else Active)] + l.loopPositions)
  }

  // === Unwind guard ===

  predicate IsCritical(e: ProtocolPositions, cfg: Config) {
    e.borrows != [] && e.healthFactor.Finite? && e.healthFactor.value <= cfg.criticalHealthFactor
  }

  predicate HasCriticalPosition(s: PositionSnapshot, cfg: Config) {
    exists k :: 0 <= k < |s.protocols| && IsCritical(s.protocols[k], cfg)
  }

  function ClearLock(lock: RiskLock): RiskLock {
    if lock.active && lock.critical then lock.(active := false) else lock
  }

  function ClearLocks(locks: seq<RiskLock>): (r: seq<RiskLock>)
    ensures |r| == |locks|
    ensures forall k :: 0 <= k < |locks| ==> r[k] == ClearLock(locks[k])
  {
    seq(|locks|, k requires 0 <= k < |locks| => ClearLock(locks[k]))
  }

  /** The protocols whose active critical lock a clearing tick removes. */
  predicate IsLocked(locks: seq<RiskLock>, protocol: Protocol) {
    exists k :: 0 <= k < |locks| && locks[k].active && locks[k].critical && locks[k].protocol == Some(protocol)
  }

  function ReactivateLoop(loop: LoopPosition, locks: seq<RiskLock>): LoopPosition {
    if loop.status.Unwinding? && IsLocked(locks, loop.collateralProtocol) then loop.(status := Active) else loop
  }

  function ReactivateLoops(loops: seq<LoopPosition>, locks: seq<RiskLock>): (r: seq<LoopPosition>)
    ensures |r| == |loops|
    ensures forall k :: 0 <= k < |loops| ==> r[k] == ReactivateLoop(loops[k], locks)
  {
    seq(|loops|, k requires 0 <= k < |loops| => ReactivateLoop(loops[k], locks))
  }

  function UnwindLoop(loop: LoopPosition): LoopPosition {
    if loop.status.Active? then loop.(status := Unwinding) else loop
  }

  function UnwindLoops(loops: seq<LoopPosition>): (r: seq<LoopPosition>)
    ensures |r| == |loops|
    ensures forall k :: 0 <= k < |loops| ==> r[k] == UnwindLoop(loops[k])
  {
    seq(|loops|, k requires 0 <= k < |loops| => UnwindLoop(loops[k]))
  }

  function LockFor(protocol: Protocol): RiskLock -> bool {
    (lock: RiskLock) => lock.active && lock.critical && lock.protocol == Some(protocol)
  }

  function GuardMutator(l: Ledger, cfg: Config, now: int): Ledger {
    if l.positionSnapshots == [] then l
    else
      var s := l.positionSnapshots[0];
      var c := FindIndex(s.protocols, (e: ProtocolPositions) => IsCritical(e, cfg));
      if c == |s.protocols| then
        l.(riskLocks := ClearLocks(l.riskLocks), loopPositions := ReactivateLoops(l.loopPositions, l.riskLocks))
      else
        var e := s.protocols[c];
        var k := FindIndex(l.riskLocks, LockFor(e.protocol));
        if k < |l.riskLocks| then
          l.(riskLocks := l.riskLocks[k := l.riskLocks[k].(healthFactor := e.healthFactor)])
        else
          l.(riskLocks := [RiskLock(now, true, true, Some(e.protocol), e.healthFactor)] + l.riskLocks,
             loopPositions := UnwindLoops(l.loopPositions))
  }
}
