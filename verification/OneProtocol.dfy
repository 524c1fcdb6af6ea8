/** With a single collateral protocol, lock clearing never exceeds the loop limit; with two it can. */
module OneProtocol {
  import opened Prelude
  import opened StrategyLedger
  import opened Subagents
  import opened LedgerRuns
  import opened RiskLocks
  import opened FencedRuns
  import opened Capacity

  predicate StepOn(cfg: Config, step: Step, p: Protocol) {
    && (step.Propose? ==> step.proposal.collateralProtocol == p)
    && (step.CapturePositions? ==> SnapshotOn(step.positions, cfg, p))
  }

  predicate SnapshotOn(s: PositionSnapshot, cfg: Config, p: Protocol) {
    forall k :: 0 <= k < |s.protocols| && IsCritical(s.protocols[k], cfg) ==> s.protocols[k].protocol == p
  }

  /** Every proposal uses `p` as collateral and only positions on `p` ever become critical. */
  predicate AllOn(cfg: Config, steps: seq<Step>, p: Protocol) {
    forall k :: 0 <= k < |steps| ==> StepOn(cfg, steps[k], p)
  }

  predicate ProposalsOn(ps: seq<Proposal>, p: Protocol) {
    forall k :: 0 <= k < |ps| ==> ps[k].collateralProtocol == p
  }

  predicate AttemptsOn(xs: seq<Attempt>, p: Protocol) {
    forall k :: 0 <= k < |xs| ==> xs[k].proposal.collateralProtocol == p
  }

  /** Every loop is on `p`, and no active lock on `p` implies no unwinding loop. */
  predicate LoopsOn(loops: seq<LoopPosition>, locks: seq<RiskLock>, p: Protocol) {
    forall k :: 0 <= k < |loops| ==>
      loops[k].collateralProtocol == p && (loops[k].status.Unwinding? ==> IsLocked(locks, p))
  }

  predicate LedgerOn(l: Ledger, cfg: Config, p: Protocol) {
    && ProposalsOn(l.strategyProposals, p)
    && LoopsOn(l.loopPositions, l.riskLocks, p)
    && (forall k :: 0 <= k < |l.positionSnapshots| ==> SnapshotOn(l.positionSnapshots[k], cfg, p))
    && ActivePrefix(l.riskLocks)
  }

  predicate StateOn(cfg: Config, s: State, p: Protocol) { LedgerOn(s.ledger, cfg, p) && AttemptsOn(s.attempts, p) }

  predicate KeepsOn(cfg: Config, s: State, t: State, p: Protocol) { StateOn(cfg, s, p) ==> StateOn(cfg, t, p) }

  lemma PruneOn(l: Ledger, cfg: Config, p: Protocol)
    requires LedgerOn(l, cfg, p)
    ensures LedgerOn(Prune(l), cfg, p)
  {
    PruneKeepsActiveLocks(l.riskLocks);
    assert IsLocked(Prune(l).riskLocks, p) <==> IsLocked(l.riskLocks, p);
  }

  lemma {:induction false} ReconcileOn(l: Ledger, cfg: Config, now: int, k: nat, p: Protocol)
    requires k <= |l.acceptedPlans| && LedgerOn(l, cfg, p)
    ensures LedgerOn(ReconcileFrom(l, now, k), cfg, p)
    decreases |l.acceptedPlans| - k
  {
    if k < |l.acceptedPlans| { ReconcileOn(ReconcileOne(l, now, k), cfg, now, k + 1, p); }
  }

  lemma AcceptOn(l: Ledger, cfg: Config, now: int, p: Protocol)
    requires LedgerOn(l, cfg, p)
    ensures var out := AcceptMutator(l, cfg, now); out.Some? ==> LedgerOn(out.value, cfg, p)
  {
  }

  lemma CoordinatorOn(l: Ledger, cfg: Config, now: int, p: Protocol)
    requires LedgerOn(l, cfg, p)
    ensures var out := CoordinatorMutator(l, cfg, now); out.Some? ==> LedgerOn(out.value, cfg, p)
  {
    var expired := l.(strategyProposals := ExpireProposals(l.strategyProposals, now));
    assert LedgerOn(expired, cfg, p);
    ReconcileOn(expired, cfg, now, 0, p);
    AcceptOn(Reconcile(expired, cfg, now), cfg, now, p);
  }

  lemma CoordinateOn(cfg: Config, s: State, p: Protocol)
    ensures KeepsOn(cfg, s, DoCoordinate(s, cfg), p)
  {
    var out := CoordinatorMutator(s.ledger, cfg, s.now);
    if StateOn(cfg, s, p) && out.Some? {
      CoordinatorOn(s.ledger, cfg, s.now, p);
      PruneOn(out.value, cfg, p);
    }
  }

  lemma ClaimOn(cfg: Config, s: State, at: int, actor: Actor, runId: string, planId: Option<string>, p: Protocol)
    ensures KeepsOn(cfg, s, DoClaim(s, cfg, at, actor, runId, planId), p)
  {
    if StateOn(cfg, s, p) { PruneOn(ClaimMutator(s.ledger, cfg, at, actor, runId, planId).ledger, cfg, p); }
  }

  lemma FinaliseOn(cfg: Config, s: State, k: nat, failed: bool, p: Protocol)
    ensures KeepsOn(cfg, s, DoFinalise(s, cfg, k, failed), p)
  {
    if StateOn(cfg, s, p) && k < |s.attempts| {
      var a := s.attempts[k];
      PruneOn(FinaliseMutator(s.ledger, a.plan, a.proposal, a.actor, a.runId, cfg, s.now, failed && !cfg.dryRun),
              cfg, p);
    }
  }

  lemma BlockOn(cfg: Config, s: State, k: nat, p: Protocol)
    ensures KeepsOn(cfg, s, DoBlock(s, k), p)
  {
    if StateOn(cfg, s, p) && k < |s.attempts| {
      var a := s.attempts[k];
      PruneOn(BlockMutator(s.ledger, a.plan.id, a.actor, a.runId), cfg, p);
    }
  }

  lemma GuardOn(cfg: Config, l: Ledger, now: int, p: Protocol)
    requires LedgerOn(l, cfg, p)
    ensures LedgerOn(GuardMutator(l, cfg, now), cfg, p)
  {
    GuardKeepsLocks(l, cfg, now);
    if l.positionSnapshots != [] {
      GuardDecides(l, cfg, now);
      var s, r := l.positionSnapshots[0], GuardMutator(l, cfg, now);
      var isCritical := (e: ProtocolPositions) => IsCritical(e, cfg);
      var c := FindIndex(s.protocols, isCritical);
      if c < |s.protocols| {
        assert isCritical(s.protocols[c]);
        forall b | 0 <= b < c ensures !IsCritical(s.protocols[b], cfg) { assert !isCritical(s.protocols[b]); }
        assert IsFirstCritical(s, cfg, c);
        assert IsLocked(r.riskLocks, p);
      } else {
        forall k | 0 <= k < |r.loopPositions| ensures !r.loopPositions[k].status.Unwinding? {
          assert r.loopPositions[k] == ReactivateLoop(l.loopPositions[k], l.riskLocks);
        }
      }
    }
  }

  lemma GuardStepOn(cfg: Config, s: State, p: Protocol)
    ensures KeepsOn(cfg, s, Apply(cfg, s, Guard), p)
  {
    if StateOn(cfg, s, p) {
      GuardOn(cfg, s.ledger, s.now, p);
      PruneOn(GuardMutator(s.ledger, cfg, s.now), cfg, p);
    }
  }

  lemma InsertOn(cfg: Config, s: State, step: Step, p: Protocol)
    requires StepOn(cfg, step, p) && (step.Propose? || step.CaptureMarket? || step.CapturePositions?)
    ensures KeepsOn(cfg, s, Apply(cfg, s, step), p)
  {
    if StateOn(cfg, s, p) {
      match step
      case Propose(x) => PruneOn(ProposeMutator(s.ledger, x, cfg, s.now), cfg, p);
      case CaptureMarket(m) => PruneOn(s.ledger.(marketSnapshots := [m] + s.ledger.marketSnapshots), cfg, p);
      case CapturePositions(x) =>
        PruneOn(s.ledger.(positionSnapshots := [x] + s.ledger.positionSnapshots), cfg, p);
    }
  }

  lemma StepKeepsOn(cfg: Config, s: State, step: Step, p: Protocol)
    requires StepOn(cfg, step, p)
    ensures KeepsOn(cfg, s, Apply(cfg, s, step), p)
  {
    match step
    case Coordinate => CoordinateOn(cfg, s, p);
    case Claim(at, actor, runId, planId) => ClaimOn(cfg, s, at, actor, runId, planId, p);
    case Block(k) => BlockOn(cfg, s, k, p);
    case Finalise(k, failed) => FinaliseOn(cfg, s, k, failed, p);
    case Guard => GuardStepOn(cfg, s, p);
    case Tick(_) =>
    case Gate(_) =>
    case Crash(_) =>
    case _ => InsertOn(cfg, s, step, p);
  }

  lemma {:induction false} OnThroughout(cfg: Config, steps: seq<Step>, p: Protocol, k: nat)
    requires k <= |steps| && AllOn(cfg, steps, p)
    ensures StateOn(cfg, Before(cfg, steps, k), p)
    decreases k
  {
    if k > 0 {
      OnThroughout(cfg, steps, p, k - 1);
      RunSnoc(cfg, steps, k - 1);
      StepKeepsOn(cfg, Before(cfg, steps, k - 1), steps[k - 1], p);
    }
  }

  /**
   * When all loops and locks are on one collateral protocol, clearing a lock may reopen loops and the
   * limit still holds at every point of a run whose finalisations find their plan executing.
   */
  lemma OneProtocolCapacity(cfg: Config, steps: seq<Step>, p: Protocol)
    requires AllOn(cfg, steps, p)
    requires forall k :: 0 <= k < |steps| ==> FinalisesExecuting(Before(cfg, steps, k), steps[k])
    ensures InUse(Run(cfg, steps).ledger) <= Limit(cfg)
  {
    forall k | 0 <= k < |steps| ensures Harmless(cfg, Before(cfg, steps, k), steps[k], true) {
      OnThroughout(cfg, steps, p, k);
      var l := Before(cfg, steps, k).ledger;
      if FirstCritical(l, cfg).Some? {
        var s := l.positionSnapshots[0];
        var isCritical := (e: ProtocolPositions) => IsCritical(e, cfg);
        var c := FindIndex(s.protocols, isCritical);
        assert isCritical(s.protocols[c]) && SnapshotOn(s, cfg, p);
      }
    }
    CapacityRespected(cfg, steps, true);
  }

  /** The same for live runs, from the two assumptions on claims and timing. */
  lemma TimelyOneProtocolCapacity(cfg: Config, steps: seq<Step>, p: Protocol)
    requires !cfg.dryRun && DistinctClaims(cfg, steps) && Timely(cfg, steps) && AllOn(cfg, steps, p)
    ensures InUse(Run(cfg, steps).ledger) <= Limit(cfg)
  {
    forall k | 0 <= k < |steps| ensures FinalisesExecuting(Before(cfg, steps, k), steps[k]) {
      TimelyFinalisesExecuting(cfg, steps, k);
    }
    OneProtocolCapacity(cfg, steps, p);
  }
}
