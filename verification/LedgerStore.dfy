/**
 * The ledger object that the mutators change in place (agent/src/core/strategyLedger.ts and the
 * `ledgerStore.update` bodies of agent/src/core/subagents.ts). Each method is proved to turn the
 * document into exactly what the matching function of module Subagents says.
 */
module LedgerStore {
  import opened Prelude
  import opened StrategyLedger
  import opened Subagents

  class LedgerDocument {
    var marketSnapshots: seq<MarketSnapshot>
    var positionSnapshots: seq<PositionSnapshot>
    var strategyProposals: seq<Proposal>
    var acceptedPlans: seq<Plan>
    var executionReceipts: seq<Receipt>
    var riskLocks: seq<RiskLock>
    var loopPositions: seq<LoopPosition>

    ghost function Contents(): Ledger
      reads this
    {
      Ledger(marketSnapshots, positionSnapshots, strategyProposals, acceptedPlans,
             executionReceipts, riskLocks, loopPositions)
    }

    constructor (l: Ledger)
      ensures Contents() == l
    {
      marketSnapshots := l.marketSnapshots;
      positionSnapshots := l.positionSnapshots;
      strategyProposals := l.strategyProposals;
      acceptedPlans := l.acceptedPlans;
      executionReceipts := l.executionReceipts;
      riskLocks := l.riskLocks;
      loopPositions := l.loopPositions;
    }

    method PruneLedger()
      modifies this
      ensures Contents() == Prune(old(Contents()))
    {
      marketSnapshots := Take(marketSnapshots, MAX_SNAPSHOTS);
      positionSnapshots := Take(positionSnapshots, MAX_SNAPSHOTS);
      strategyProposals := Take(strategyProposals, MAX_PROPOSALS);
      acceptedPlans := Take(acceptedPlans, MAX_PLANS);
      executionReceipts := Take(executionReceipts, MAX_RECEIPTS);
      riskLocks := Take(riskLocks, MAX_LOCKS);
    }

    method InsertProposal(p: Proposal, cfg: Config, now: int)
      modifies this
      ensures Contents() == ProposeMutator(old(Contents()), p, cfg, now)
    {
      var view := Ledger(marketSnapshots, positionSnapshots, strategyProposals, acceptedPlans,
                         executionReceipts, riskLocks, loopPositions);
      var verdict := ValidateLoopProposal(p, view, cfg, now);
      var stored := Persisted(p);
      stored := stored.(status := Open);
      if !verdict.Allowed? {
        stored := stored.(status := Rejected);
      }
      strategyProposals := [stored] + strategyProposals;
    }

    method ExpireOpenProposals(now: int) returns (expiredCount: nat)
      modifies this`strategyProposals
      ensures strategyProposals == ExpireProposals(old(strategyProposals), now)
      ensures expiredCount == Count(old(strategyProposals), (p: Proposal) => p.status.Open? && p.expiresAt <= now)
    {
      expiredCount := 0;
      ghost var due := (p: Proposal) => p.status.Open? && p.expiresAt <= now;
      ghost var before := strategyProposals;
      var k := 0;
      while k < |strategyProposals|
        invariant 0 <= k <= |strategyProposals| == |before|
        invariant forall j :: 0 <= j < k ==> strategyProposals[j] == ExpireProposal(before[j], now)
        invariant forall j :: k <= j < |before| ==> strategyProposals[j] == before[j]
        invariant expiredCount == Count(before[..k], due)
      {
        var p := strategyProposals[k];
        if !p.status.Open? || p.expiresAt <= now {
          if p.status.Open? {
            strategyProposals := strategyProposals[k := p.(status := Expired)];
            expiredCount := expiredCount + 1;
          }
        }
        assert before[..k + 1] == before[..k] + [before[k]];
        CountAppend(before[..k], [before[k]], due);
        k := k + 1;
      }
      assert before[..k] == before;
    }

    method ReconcileExpiredExecutingPlans(cfg: Config, now: int)
      modifies this`acceptedPlans, this`executionReceipts, this`loopPositions
      ensures Contents() == Reconcile(old(Contents()), cfg, now)
    {
      if cfg.dryRun {
        return;
      }
      var k := 0;
      while k < |acceptedPlans|
        invariant 0 <= k <= |acceptedPlans|
        invariant marketSnapshots == old(marketSnapshots) && positionSnapshots == old(positionSnapshots)
        invariant strategyProposals == old(strategyProposals) && riskLocks == old(riskLocks)
        invariant ReconcileFrom(Contents(), now, k) == ReconcileFrom(old(Contents()), now, 0)
        decreases |acceptedPlans| - k
      {
        ghost var before := Contents();
        var plan := acceptedPlans[k];
        if ClaimExpired(plan, now) {
          var q := FindIndex(strategyProposals, ProposalWithId(plan.proposalId));
          if q == |strategyProposals| {
            acceptedPlans := acceptedPlans[k := plan.(status := Cancelled)];
          } else if positionSnapshots != []
                    && ExecutionAppearsOnChain(strategyProposals[q], positionSnapshots[0]) {
            var p := strategyProposals[q];
            var receipt := ReconciledReceipt(plan, p, now);
            executionReceipts := [receipt] + executionReceipts;
            acceptedPlans :=
              acceptedPlans[k := plan.(status := Executed, executionReceiptId := Some(receipt.id))];
            if FindIndex(loopPositions, LoopOfPlan(plan.id)) == |loopPositions| {
              loopPositions := [NewLoop(plan.id, p, now, Active)] + loopPositions;
            }
          } else {
            acceptedPlans := acceptedPlans[k := plan.(status := Cancelled)];
          }
        }
        assert Contents() == ReconcileOne(before, now, k);
        k := k + 1;
      }
    }

    /** `threw`: validating the first open proposal raised, so the caller discards this object. */
    method RunCoordinator(cfg: Config, now: int) returns (threw: bool)
      modifies this
      ensures threw <==> CoordinatorMutator(old(Contents()), cfg, now).None?
      ensures !threw ==> CoordinatorMutator(old(Contents()), cfg, now) == Some(Contents())
    {
      var _ := ExpireOpenProposals(now);
      ReconcileExpiredExecutingPlans(cfg, now);
      threw := false;
      if HasActivePlan(acceptedPlans) {
        return;
      }
      var k := FindIndex(strategyProposals, (p: Proposal) => p.status.Open?);
      if k == |strategyProposals| {
        return;
      }
      var p := strategyProposals[k];
      var view := Ledger(marketSnapshots, positionSnapshots, strategyProposals, acceptedPlans,
                         executionReceipts, riskLocks, loopPositions);
      var verdict := ValidateLoopProposal(p, view, cfg, now);
      if verdict.Throws? {
        threw := true;
      } else if !verdict.Allowed? {
        strategyProposals := strategyProposals[k := p.(status := Rejected)];
      } else {
        strategyProposals := strategyProposals[k := p.(status := Accepted)];
        acceptedPlans := [NewPlan(p.id, now)] + acceptedPlans;
      }
    }

    method ClaimAcceptedPlan(cfg: Config, now: int, actor: Actor, runId: string, planId: Option<string>)
      returns (claimed: Option<(Plan, Proposal)>)
      modifies this`acceptedPlans
      ensures ClaimMutator(old(Contents()), cfg, now, actor, runId, planId) == ClaimOutcome(Contents(), claimed)
    {
      claimed := None;
      var k;
      if planId.Some? {
        k := FindIndex(acceptedPlans, PlanWithId(planId.value));
      } else {
        k := FindIndex(acceptedPlans, (p: Plan) => Claimable(p, cfg, now));
      }
      if k == |acceptedPlans| {
        return;
      }
      var candidate := acceptedPlans[k];
      if !candidate.status.Awaiting? && !cfg.dryRun {
        return;
      }
      if !candidate.status.Awaiting? && !ClaimExpired(candidate, now) {
        return;
      }
      var q := FindIndex(strategyProposals, ProposalWithId(candidate.proposalId));
      if q == |strategyProposals| {
        acceptedPlans := acceptedPlans[k := candidate.(status := Failed)];
        return;
      }
      candidate := ClaimedPlan(candidate, cfg, now, actor, runId);
      acceptedPlans := acceptedPlans[k := candidate];
      claimed := Some((candidate, strategyProposals[q]));
    }

    method FailBlockedPlan(planId: string, actor: Actor, runId: string)
      modifies this`acceptedPlans
      ensures Contents() == BlockMutator(old(Contents()), planId, actor, runId)
    {
      var k := FindIndex(acceptedPlans, PlanWithId(planId));
      if k < |acceptedPlans| && HoldsClaim(acceptedPlans[k], actor, runId) {
        acceptedPlans := acceptedPlans[k := acceptedPlans[k].(status := Failed)];
      }
    }

    method FinaliseExecution(
      plan: Plan, p: Proposal, actor: Actor, runId: string, cfg: Config, now: int, failed: bool)
      modifies this`acceptedPlans, this`executionReceipts, this`loopPositions
      ensures Contents() == FinaliseMutator(old(Contents()), plan, p, actor, runId, cfg, now, failed)
    {
      var k := FindIndex(acceptedPlans, PlanWithId(plan.id));
      if k == |acceptedPlans| || !HoldsClaim(acceptedPlans[k], actor, runId) {
        return;
      }
      var receipt := FinalReceipt(plan, p, actor, runId, cfg, now, failed);
      executionReceipts := [receipt] + executionReceipts;
      var current := acceptedPlans[k];
      current := current.(status := if failed then Failed else Executed);
      current := current.(executionReceiptId := Some(receipt.id));
      acceptedPlans := acceptedPlans[k := current];
      if !failed {
        loopPositions :=
          [NewLoop(plan.id, p, now, if cfg.dryRun then Opening else Active)] + loopPositions;
      }
    }

    method ClearCriticalLocks() returns (cleared: set<Protocol>)
      modifies this`riskLocks
      ensures riskLocks == ClearLocks(old(riskLocks))
      ensures forall pr :: pr in cleared <==> IsLocked(old(riskLocks), pr)
    {
      cleared := {};
      ghost var before := riskLocks;
      var k := 0;
      while k < |riskLocks|
        invariant 0 <= k <= |riskLocks| == |before|
        invariant forall j :: 0 <= j < k ==> riskLocks[j] == ClearLock(before[j])
        invariant forall j :: k <= j < |before| ==> riskLocks[j] == before[j]
        invariant forall pr :: pr in cleared <==> IsLocked(before[..k], pr)
      {
        var lock := riskLocks[k];
        assert before[..k + 1] == before[..k] + [lock];
        if lock.active && lock.critical {
          if lock.protocol.Some? {
            cleared := cleared + {lock.protocol.value};
            assert before[..k + 1][k].protocol == Some(lock.protocol.value);
          }
          riskLocks := riskLocks[k := lock.(active := false)];
        }
        assert forall pr :: IsLocked(before[..k], pr) ==> IsLocked(before[..k + 1], pr) by {
          assert forall j :: 0 <= j < k ==> before[..k + 1][j] == before[..k][j];
        }
        assert forall pr :: IsLocked(before[..k + 1], pr) ==>
            (IsLocked(before[..k], pr) || (lock.active && lock.critical && lock.protocol == Some(pr))) by {
          assert forall j :: 0 <= j < k ==> before[..k + 1][j] == before[..k][j];
        }
        k := k + 1;
      }
      assert before[..k] == before;
    }

    method ReactivateClearedLoops(cleared: set<Protocol>, ghost locks: seq<RiskLock>)
      requires forall pr :: pr in cleared <==> IsLocked(locks, pr)
      modifies this`loopPositions
      ensures loopPositions == ReactivateLoops(old(loopPositions), locks)
    {
      ghost var before := loopPositions;
      var k := 0;
      while k < |loopPositions|
        invariant 0 <= k <= |loopPositions| == |before|
        invariant forall j :: 0 <= j < k ==> loopPositions[j] == ReactivateLoop(before[j], locks)
        invariant forall j :: k <= j < |before| ==> loopPositions[j] == before[j]
      {
        var loop := loopPositions[k];
        if loop.status.Unwinding? && loop.collateralProtocol in cleared {
          loopPositions := loopPositions[k := loop.(status := Active)];
        }
        k := k + 1;
      }
    }

    method UnwindActiveLoops() returns (unwindingCount: nat)
      modifies this`loopPositions
      ensures loopPositions == UnwindLoops(old(loopPositions))
      ensures unwindingCount == Count(old(loopPositions), (l: LoopPosition) => l.status.Active?)
    {
      unwindingCount := 0;
      ghost var active := (l: LoopPosition) => l.status.Active?;
      ghost var before := loopPositions;
      var k := 0;
      while k < |loopPositions|
        invariant 0 <= k <= |loopPositions| == |before|
        invariant forall j :: 0 <= j < k ==> loopPositions[j] == UnwindLoop(before[j])
        invariant forall j :: k <= j < |before| ==> loopPositions[j] == before[j]
        invariant unwindingCount == Count(before[..k], active)
      {
        var loop := loopPositions[k];
        if loop.status.Active? {
          loopPositions := loopPositions[k := loop.(status := Unwinding)];
          unwindingCount := unwindingCount + 1;
        }
        assert before[..k + 1] == before[..k] + [before[k]];
        CountAppend(before[..k], [before[k]], active);
        k := k + 1;
      }
      assert before[..k] == before;
    }

    method RunUnwindGuard(cfg: Config, now: int)
      modifies this
      ensures Contents() == GuardMutator(old(Contents()), cfg, now)
    {
      if positionSnapshots == [] {
        return;
      }
      var s := positionSnapshots[0];
      var c := FindIndex(s.protocols, (e: ProtocolPositions) => IsCritical(e, cfg));
      if c == |s.protocols| {
        ghost var locks := riskLocks;
        var cleared := ClearCriticalLocks();
        ReactivateClearedLoops(cleared, locks);
        return;
      }
      var e := s.protocols[c];
      var k := FindIndex(riskLocks, LockFor(e.protocol));
      if k < |riskLocks| {
        riskLocks := riskLocks[k := riskLocks[k].(healthFactor := e.healthFactor)];
        return;
      }
      riskLocks := [RiskLock(now, true, true, Some(e.protocol), e.healthFactor)] + riskLocks;
      var _ := UnwindActiveLoops();
    }
  }
}
