/**
 * The policy read as conditions instead of as a cascade of denials, and what it guarantees of whole runs:
 * which proposals are accepted and which reach the fund-moving section.
 */
module Policy {
  import opened Prelude
  import opened StrategyLedger
  import opened Subagents
  import opened LedgerRuns
  import Amounts

  predicate HealthyEnough(hf: HealthFactor, floor: real) {
    match hf
    case Finite(v) => v >= floor
    case Infinite => true
    case Null => floor <= 0.0
  }

  /** The borrow, as the amount text reads, is within both caps. */
  predicate BorrowWithinCaps(p: Proposal, cfg: Config) {
    && p.borrowUsd <= cfg.maxBorrowUsd
    && Amounts.BigIntOf(p.rawBorrowAmount).Some?
    && Amounts.BigIntOf(p.rawBorrowAmount).value <= cfg.maxBorrowRaw
  }

  /** Assets, protocols, source position and expiry. */
  predicate WellFormed(p: Proposal, cfg: Config, now: int) {
    && cfg.enabled && cfg.maxDepth == 1
    && p.collateralAsset == Usdc && p.borrowAsset == Sui
    && p.borrowProtocol == p.collateralProtocol != p.supplyTargetProtocol
    && (p.proposalType.OpenLoop? || (p.sourcePositionId.Some? && p.sourcePositionId.value != ""))
    && now < p.expiresAt
  }

  /** What is asked of the proposal itself. */
  predicate Sound(p: Proposal, cfg: Config, now: int) {
    && WellFormed(p, cfg, now)
    && HealthyEnough(p.projectedHealthFactor, cfg.minHealthFactor)
    && p.projectedNetAprBps >= cfg.minNetAprBps
    && BorrowWithinCaps(p, cfg)
    && (p.proposalType.OpenLoop? ==> p.collateralUsd <= cfg.maxCollateralUsd)
  }

  /** The newest market snapshot with the proposal's id is recent. */
  predicate RecentMarket(p: Proposal, l: Ledger, cfg: Config, now: int) {
    exists k :: 0 <= k < |l.marketSnapshots|
      && l.marketSnapshots[k].id == p.marketSnapshotId
      && now - l.marketSnapshots[k].capturedAt <= cfg.staleSnapshotMs
      && forall j :: 0 <= j < k ==> l.marketSnapshots[j].id != p.marketSnapshotId
  }

  predicate RecentPositions(p: Proposal, l: Ledger, cfg: Config, now: int) {
    exists k :: 0 <= k < |l.positionSnapshots|
      && l.positionSnapshots[k].id == p.positionSnapshotId
      && now - l.positionSnapshots[k].capturedAt <= cfg.staleSnapshotMs
      && forall j :: 0 <= j < k ==> l.positionSnapshots[j].id != p.positionSnapshotId
  }

  /** What is asked of the ledger apart from its plans. */
  predicate Permits(l: Ledger, p: Proposal, cfg: Config, now: int) {
    && (forall k :: 0 <= k < |l.riskLocks| ==> !l.riskLocks[k].active)
    && Count(l.loopPositions, CountsAgainstCapacity) < cfg.maxConcurrentLoops
    && RecentMarket(p, l, cfg, now) && RecentPositions(p, l, cfg, now)
  }

  lemma MarketVerdict(p: Proposal, l: Ledger, cfg: Config, now: int)
    ensures var m := FindIndex(l.marketSnapshots, (s: MarketSnapshot) => s.id == p.marketSnapshotId);
      RecentMarket(p, l, cfg, now) <==>
        (m < |l.marketSnapshots| && IsFresh(l.marketSnapshots[m].capturedAt, cfg.staleSnapshotMs, now))
  {
    var matches := (s: MarketSnapshot) => s.id == p.marketSnapshotId;
    var m := FindIndex(l.marketSnapshots, matches);
    assert forall j :: 0 <= j < m ==> !matches(l.marketSnapshots[j]);
    if m < |l.marketSnapshots| { assert matches(l.marketSnapshots[m]); }
  }

  lemma PositionsVerdict(p: Proposal, l: Ledger, cfg: Config, now: int)
    ensures var q := FindIndex(l.positionSnapshots, (s: PositionSnapshot) => s.id == p.positionSnapshotId);
      RecentPositions(p, l, cfg, now) <==>
        (q < |l.positionSnapshots| && IsFresh(l.positionSnapshots[q].capturedAt, cfg.staleSnapshotMs, now))
  {
    var matches := (s: PositionSnapshot) => s.id == p.positionSnapshotId;
    var q := FindIndex(l.positionSnapshots, matches);
    assert forall j :: 0 <= j < q ==> !matches(l.positionSnapshots[j]);
    if q < |l.positionSnapshots| { assert matches(l.positionSnapshots[q]); }
  }

  /** The cascade of denials lets through exactly the sound proposals the ledger permits. */
  lemma ValidatorAllowsExactly(p: Proposal, l: Ledger, cfg: Config, now: int)
    ensures ValidateLoopProposal(p, l, cfg, now).Allowed?
       <==> Sound(p, cfg, now) && Permits(l, p, cfg, now) && !HasActivePlan(l.acceptedPlans)
  {
    MarketVerdict(p, l, cfg, now);
    PositionsVerdict(p, l, cfg, now);
  }

  /** It throws exactly for a well-formed proposal whose health factor went through JSON as infinity. */
  lemma ValidatorThrowsExactly(p: Proposal, l: Ledger, cfg: Config, now: int)
    ensures ValidateLoopProposal(p, l, cfg, now).Throws?
       <==> WellFormed(p, cfg, now) && p.projectedHealthFactor.Null? && cfg.minHealthFactor > 0.0
  {
  }

  predicate GateOpen(p: Proposal, l: Ledger, cfg: Config, now: int) {
    && (cfg.dryRun || (cfg.enableBorrow && cfg.executionEnabled))
    && Sound(p, cfg, now) && Permits(l, p, cfg, now)
  }

  lemma GateAllowsExactly(p: Proposal, l: Ledger, cfg: Config, now: int)
    ensures ValidateExecutorGate(p, l, cfg, now).Allowed? <==> GateOpen(p, l, cfg, now)
  {
    var without := l.(acceptedPlans := []);
    ValidatorAllowsExactly(p, without, cfg, now);
    assert Permits(without, p, cfg, now) <==> Permits(l, p, cfg, now) by {
      assert RecentMarket(p, without, cfg, now) <==> RecentMarket(p, l, cfg, now);
      assert RecentPositions(p, without, cfg, now) <==> RecentPositions(p, l, cfg, now);
    }
  }

  /**
   * In any state, reachable or not, the fund-moving section is entered only through a gate, by one claimed
   * attempt at a time, and only when the gate's conditions hold of its proposal and of the ledger at that moment.
   */
  lemma FundsMoveOnlyThroughOpenGate(cfg: Config, s: State, step: Step)
    ensures var t := Apply(cfg, s, step);
      t.hist.entered == s.hist.entered ||
      (step.Gate? && step.attempt < |s.attempts| && s.attempts[step.attempt].phase.Claimed?
       && GateOpen(s.attempts[step.attempt].proposal, s.ledger, cfg, s.now)
       && t.hist.entered == s.hist.entered + multiset{s.attempts[step.attempt].plan.proposalId})
  {
    if step.Gate? && step.attempt < |s.attempts| {
      GateAllowsExactly(s.attempts[step.attempt].proposal, s.ledger, cfg, s.now);
    }
  }

  /** The newest proposal that is open and has not expired. */
  predicate NewestOpen(ps: seq<Proposal>, k: nat, now: int) {
    && k < |ps| && ps[k].status.Open? && now < ps[k].expiresAt
    && forall j :: 0 <= j < k ==> !(ps[j].status.Open? && now < ps[j].expiresAt)
  }

  /** What the coordinator leaves when it accepts: its reconciliation aside, one proposal and one plan change. */
  predicate Accepts(l: Ledger, r: Ledger, cfg: Config, now: int, k: nat) {
    && NewestOpen(l.strategyProposals, k, now)
    && Sound(l.strategyProposals[k], cfg, now)
    && (forall i :: 0 <= i < |l.riskLocks| ==> !l.riskLocks[i].active)
    && r.strategyProposals
       == ExpireProposals(l.strategyProposals, now)[k := l.strategyProposals[k].(status := Accepted)]
    && r.acceptedPlans != [] && r.acceptedPlans[0] == NewPlan(l.strategyProposals[k].id, now)
  }

  lemma {:induction false} ReconcileKeepsTheRest(l: Ledger, now: int, k: nat)
    requires k <= |l.acceptedPlans|
    ensures var r := ReconcileFrom(l, now, k);
      && r.strategyProposals == l.strategyProposals && r.riskLocks == l.riskLocks
      && |r.acceptedPlans| == |l.acceptedPlans|
    decreases |l.acceptedPlans| - k
  {
    if k < |l.acceptedPlans| { ReconcileKeepsTheRest(ReconcileOne(l, now, k), now, k + 1); }
  }

  lemma AcceptSound(l: Ledger, cfg: Config, now: int)
    requires AcceptMutator(l, cfg, now).Some?
    requires |AcceptMutator(l, cfg, now).value.acceptedPlans| > |l.acceptedPlans|
    ensures var k := FindIndex(l.strategyProposals, (p: Proposal) => p.status.Open?);
      var r := AcceptMutator(l, cfg, now).value;
      && k < |l.strategyProposals| && !HasActivePlan(l.acceptedPlans)
      && Sound(l.strategyProposals[k], cfg, now) && Permits(l, l.strategyProposals[k], cfg, now)
      && r.strategyProposals == l.strategyProposals[k := l.strategyProposals[k].(status := Accepted)]
      && r.acceptedPlans == [NewPlan(l.strategyProposals[k].id, now)] + l.acceptedPlans
  {
    var k := FindIndex(l.strategyProposals, (p: Proposal) => p.status.Open?);
    if k < |l.strategyProposals| { ValidatorAllowsExactly(l.strategyProposals[k], l, cfg, now); }
  }

  lemma OpenAfterExpiry(ps: seq<Proposal>, now: int, k: nat)
    requires k == FindIndex(ExpireProposals(ps, now), (p: Proposal) => p.status.Open?) && k < |ps|
    ensures NewestOpen(ps, k, now) && ExpireProposals(ps, now)[k] == ps[k]
  {
    var isOpen := (p: Proposal) => p.status.Open?;
    assert isOpen(ExpireProposals(ps, now)[k]);
    forall j | 0 <= j < k ensures !(ps[j].status.Open? && now < ps[j].expiresAt) {
      assert !isOpen(ExpireProposals(ps, now)[j]);
    }
  }

  /** The ledger of a tick after expiry and reconciliation, before it looks for a proposal to accept. */
  function Settled(l: Ledger, cfg: Config, now: int): Ledger {
    Reconcile(l.(strategyProposals := ExpireProposals(l.strategyProposals, now)), cfg, now)
  }

  /**
   * On any ledger, reachable or not, a tick accepts at most one proposal: the newest open one, sound at that
   * moment, with no risk lock active.
   */
  lemma AcceptsOnlyTheNewestSound(l: Ledger, cfg: Config, now: int)
    ensures var out := CoordinatorMutator(l, cfg, now);
      out.Some? && |out.value.acceptedPlans| > |l.acceptedPlans| ==> exists k :: Accepts(l, out.value, cfg, now, k)
  {
    var out := CoordinatorMutator(l, cfg, now);
    ReconcileKeepsTheRest(l.(strategyProposals := ExpireProposals(l.strategyProposals, now)), now, 0);
    if out.Some? && |out.value.acceptedPlans| > |l.acceptedPlans| {
      AcceptSound(Settled(l, cfg, now), cfg, now);
      var k := FindIndex(ExpireProposals(l.strategyProposals, now), (p: Proposal) => p.status.Open?);
      OpenAfterExpiry(l.strategyProposals, now, k);
      assert Accepts(l, out.value, cfg, now, k);
    }
  }

  /** The newest open proposal is one on which the validator throws. */
  predicate ThrowsOn(l: Ledger, cfg: Config, now: int, k: nat) {
    && NewestOpen(l.strategyProposals, k, now)
    && WellFormed(l.strategyProposals[k], cfg, now) && l.strategyProposals[k].projectedHealthFactor.Null?
  }

  /**
   * A coordinator tick throws exactly when the health floor is positive, no plan is active after
   * reconciliation, and the newest open proposal is well formed with a null health factor.
   */
  lemma CoordinatorThrowsExactly(l: Ledger, cfg: Config, now: int)
    ensures CoordinatorMutator(l, cfg, now).None?
       <==> cfg.minHealthFactor > 0.0 && !HasActivePlan(Settled(l, cfg, now).acceptedPlans)
            && exists k :: ThrowsOn(l, cfg, now, k)
  {
    var ps := ExpireProposals(l.strategyProposals, now);
    var isOpen := (p: Proposal) => p.status.Open?;
    var k := FindIndex(ps, isOpen);
    ReconcileKeepsTheRest(l.(strategyProposals := ps), now, 0);
    if k < |ps| {
      OpenAfterExpiry(l.strategyProposals, now, k);
      ValidatorThrowsExactly(ps[k], Settled(l, cfg, now), cfg, now);
      assert ThrowsOn(l, cfg, now, k) <==> WellFormed(ps[k], cfg, now) && ps[k].projectedHealthFactor.Null?;
    }
    forall m: nat | ThrowsOn(l, cfg, now, m) ensures m == k {
      assert isOpen(ps[m]);
    }
  }

  /** Such a tick saves nothing: its expiries and its reconciliation are lost with it. */
  lemma ThrowingTickSavesNothing(cfg: Config, s: State, k: nat)
    requires cfg.minHealthFactor > 0.0 && !HasActivePlan(Settled(s.ledger, cfg, s.now).acceptedPlans)
    requires ThrowsOn(s.ledger, cfg, s.now, k)
    ensures Apply(cfg, s, Coordinate) == s
  {
    CoordinatorThrowsExactly(s.ledger, cfg, s.now);
  }
}
