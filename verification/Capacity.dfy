/** When `maxConcurrentLoops` bounds the open loops plus the plan in flight, over whole runs. */
module Capacity {
  import opened Prelude
  import opened StrategyLedger
  import opened Subagents
  import opened LedgerRuns
  import opened ActivePlan
  import opened Fencing
  import opened FencedRuns

  /**
   * A slot is committed to a loop that is open and, when `unwinding` is set, also to one that is being
   * unwound under an active lock on its collateral protocol: clearing that lock reopens it.
   */
  function Committed(locks: seq<RiskLock>, unwinding: bool): LoopPosition -> bool {
    (l: LoopPosition) =>
      CountsAgainstCapacity(l) || (unwinding && l.status.Unwinding? && IsLocked(locks, l.collateralProtocol))
  }

  function InFlight(plans: seq<Plan>): nat { if HasActivePlan(plans) then 1 else 0 }

  function Slots(l: Ledger, unwinding: bool): nat {
    Count(l.loopPositions, Committed(l.riskLocks, unwinding)) + InFlight(l.acceptedPlans)
  }

  function Limit(cfg: Config): nat { if cfg.maxConcurrentLoops < 0 then 0 else cfg.maxConcurrentLoops }

  predicate Within(l: Ledger, cfg: Config, unwinding: bool) { Slots(l, unwinding) <= Limit(cfg) }

  predicate KeepsWithin(l: Ledger, r: Ledger, cfg: Config, unwinding: bool) {
    Within(l, cfg, unwinding) ==> Within(r, cfg, unwinding)
  }

  // === Steps that may break the bound, and the conditions under which they do not ===

  /** A fenced finalisation finds its plan still executing: the check the source leaves out. */
  predicate FinalisesExecuting(s: State, step: Step) {
    step.Finalise? && step.attempt < |s.attempts| && s.attempts[step.attempt].phase.Running?
      && FencedPlan(s, step.attempt).Some? ==>
      s.ledger.acceptedPlans[FencedPlan(s, step.attempt).value].status.Executing?
  }

  function FirstCritical(l: Ledger, cfg: Config): Option<Protocol> {
    if l.positionSnapshots == [] then None
    else
      var c := FindIndex(l.positionSnapshots[0].protocols, (e: ProtocolPositions) => IsCritical(e, cfg));
      if c == |l.positionSnapshots[0].protocols| then None else Some(l.positionSnapshots[0].protocols[c].protocol)
  }

  /** No loop left unwinding on `p` from an earlier lock on another protocol. */
  predicate NoneStrandedOn(l: Ledger, p: Protocol) {
    IsLocked(l.riskLocks, p)
    || forall k :: 0 <= k < |l.loopPositions| && l.loopPositions[k].status.Unwinding? ==>
         l.loopPositions[k].collateralProtocol != p
  }

  predicate ReactivatesNothing(l: Ledger) {
    forall k :: 0 <= k < |l.loopPositions| && l.loopPositions[k].status.Unwinding? ==>
      !IsLocked(l.riskLocks, l.loopPositions[k].collateralProtocol)
  }

  /**
   * The guard tick is harmless: counting unwinding loops, it locks no protocol with stranded loops;
   * not counting them, it reopens none.
   */
  predicate HarmlessGuard(l: Ledger, cfg: Config, unwinding: bool) {
    match FirstCritical(l, cfg)
    case Some(p) => unwinding ==> NoneStrandedOn(l, p)
    case None => l.positionSnapshots != [] && !unwinding ==> ReactivatesNothing(l)
  }

  predicate Harmless(cfg: Config, s: State, step: Step, unwinding: bool) {
    FinalisesExecuting(s, step) && (step.Guard? ==> HarmlessGuard(s.ledger, cfg, unwinding))
  }

  // === Every mutator keeps the bound ===

  lemma PruneWithin(l: Ledger, cfg: Config, unwinding: bool)
    ensures KeepsWithin(l, Prune(l), cfg, unwinding)
  {
    CountPointwise(l.loopPositions, l.loopPositions,
                   Committed(Prune(l).riskLocks, unwinding), Committed(l.riskLocks, unwinding));
  }

  lemma ClearWithin(l: Ledger, r: Ledger, cfg: Config, unwinding: bool)
    requires r == l.(riskLocks := ClearLocks(l.riskLocks), loopPositions := ReactivateLoops(l.loopPositions, l.riskLocks))
    requires !unwinding ==> ReactivatesNothing(l)
    ensures KeepsWithin(l, r, cfg, unwinding)
  {
    CountPointwise(r.loopPositions, l.loopPositions,
                   Committed(r.riskLocks, unwinding), Committed(l.riskLocks, unwinding));
  }

  lemma LockWithin(l: Ledger, r: Ledger, lock: RiskLock, p: Protocol, cfg: Config, unwinding: bool)
    requires lock.protocol == Some(p) && (unwinding ==> NoneStrandedOn(l, p))
    requires r == l.(riskLocks := [lock] + l.riskLocks, loopPositions := UnwindLoops(l.loopPositions))
    ensures KeepsWithin(l, r, cfg, unwinding)
  {
    forall q | IsLocked(r.riskLocks, q) ensures q == p || IsLocked(l.riskLocks, q) {
      var k :| 0 <= k < |r.riskLocks| && r.riskLocks[k].active && r.riskLocks[k].critical
        && r.riskLocks[k].protocol == Some(q);
      if k > 0 { assert l.riskLocks[k - 1] == r.riskLocks[k]; }
    }
    forall k | 0 <= k < |l.loopPositions| && Committed(r.riskLocks, unwinding)(r.loopPositions[k])
      ensures Committed(l.riskLocks, unwinding)(l.loopPositions[k])
    {
    }
    CountPointwise(r.loopPositions, l.loopPositions,
                   Committed(r.riskLocks, unwinding), Committed(l.riskLocks, unwinding));
  }

  lemma RefreshWithin(l: Ledger, k: nat, hf: HealthFactor, cfg: Config, unwinding: bool)
    requires k < |l.riskLocks|
    ensures KeepsWithin(l, l.(riskLocks := l.riskLocks[k := l.riskLocks[k].(healthFactor := hf)]), cfg, unwinding)
  {
    var r := l.(riskLocks := l.riskLocks[k := l.riskLocks[k].(healthFactor := hf)]);
    forall p | IsLocked(r.riskLocks, p) ensures IsLocked(l.riskLocks, p) {
      var j :| 0 <= j < |r.riskLocks| && r.riskLocks[j].active && r.riskLocks[j].critical
        && r.riskLocks[j].protocol == Some(p);
      assert l.riskLocks[j].active;
    }
    CountPointwise(l.loopPositions, l.loopPositions,
                   Committed(r.riskLocks, unwinding), Committed(l.riskLocks, unwinding));
  }

  lemma GuardWithin(l: Ledger, cfg: Config, now: int, unwinding: bool)
    requires HarmlessGuard(l, cfg, unwinding)
    ensures KeepsWithin(l, GuardMutator(l, cfg, now), cfg, unwinding)
  {
    if l.positionSnapshots != [] {
      var s := l.positionSnapshots[0];
      var c := FindIndex(s.protocols, (e: ProtocolPositions) => IsCritical(e, cfg));
      if c == |s.protocols| {
        ClearWithin(l, GuardMutator(l, cfg, now), cfg, unwinding);
      } else {
        var e := s.protocols[c];
        var k := FindIndex(l.riskLocks, LockFor(e.protocol));
        if k < |l.riskLocks| {
          RefreshWithin(l, k, e.healthFactor, cfg, unwinding);
        } else {
          LockWithin(l, GuardMutator(l, cfg, now), RiskLock(now, true, true, Some(e.protocol), e.healthFactor),
                     e.protocol, cfg, unwinding);
        }
      }
    }
  }

  /** With only the head active, reconciliation touches only the head. */
  lemma {:induction false} ReconcileTail(l: Ledger, now: int, k: nat)
    requires k <= |l.acceptedPlans|
    requires forall j :: k <= j < |l.acceptedPlans| ==> !IsActivePlan(l.acceptedPlans[j])
    ensures ReconcileFrom(l, now, k) == l
    decreases |l.acceptedPlans| - k
  {
    if k < |l.acceptedPlans| { ReconcileTail(l, now, k + 1); }
  }

  lemma ReconcileHead(l: Ledger, now: int)
    requires OnlyHeadActive(l.acceptedPlans)
    ensures ReconcileFrom(l, now, 0) == if l.acceptedPlans == [] then l else ReconcileOne(l, now, 0)
  {
    if l.acceptedPlans != [] { ReconcileTail(ReconcileOne(l, now, 0), now, 1); }
  }

  /** Settling the plan in flight frees its slot for the loop it may open. */
  lemma SettleWithin(l: Ledger, r: Ledger, k: nat, cfg: Config, unwinding: bool)
    requires OnlyHeadActive(l.acceptedPlans) && k < |l.acceptedPlans| && IsActivePlan(l.acceptedPlans[k])
    requires |r.acceptedPlans| == |l.acceptedPlans| && r.acceptedPlans == l.acceptedPlans[k := r.acceptedPlans[k]]
    requires !IsActivePlan(r.acceptedPlans[k]) && r.riskLocks == l.riskLocks
    requires r.loopPositions == l.loopPositions
      || (r.loopPositions != [] && r.loopPositions == [r.loopPositions[0]] + l.loopPositions)
    ensures KeepsWithin(l, r, cfg, unwinding)
  {
    assert k == 0;
    assert HasActivePlan(l.acceptedPlans) && !HasActivePlan(r.acceptedPlans);
    if r.loopPositions != l.loopPositions {
      CountCons(r.loopPositions[0], l.loopPositions, Committed(l.riskLocks, unwinding));
    }
  }

  lemma ReconcileWithin(l: Ledger, cfg: Config, now: int, unwinding: bool)
    requires OnlyHeadActive(l.acceptedPlans)
    ensures KeepsWithin(l, Reconcile(l, cfg, now), cfg, unwinding)
    ensures Reconcile(l, cfg, now).riskLocks == l.riskLocks
  {
    ReconcileHead(l, now);
    if l.acceptedPlans != [] && ClaimExpired(l.acceptedPlans[0], now) {
      SettleWithin(l, ReconcileOne(l, now, 0), 0, cfg, unwinding);
    }
  }

  /** A plan is only accepted when no lock is active, so no unwinding loop is committed then. */
  lemma AcceptWithin(l: Ledger, cfg: Config, now: int, unwinding: bool)
    ensures var out := AcceptMutator(l, cfg, now);
      out.Some? ==> KeepsWithin(l, out.value, cfg, unwinding)
  {
    var out := AcceptMutator(l, cfg, now);
    if out.Some? && |out.value.acceptedPlans| > |l.acceptedPlans| {
      CountPointwise(l.loopPositions, l.loopPositions, Committed(l.riskLocks, unwinding), CountsAgainstCapacity);
    }
  }

  lemma CoordinateWithin(cfg: Config, s: State, unwinding: bool)
    requires OnlyHeadActive(s.ledger.acceptedPlans)
    ensures KeepsWithin(s.ledger, DoCoordinate(s, cfg).ledger, cfg, unwinding)
  {
    var expired := s.ledger.(strategyProposals := ExpireProposals(s.ledger.strategyProposals, s.now));
    ReconcileWithin(expired, cfg, s.now, unwinding);
    AcceptWithin(Reconcile(expired, cfg, s.now), cfg, s.now, unwinding);
    var out := CoordinatorMutator(s.ledger, cfg, s.now);
    if out.Some? { PruneWithin(out.value, cfg, unwinding); }
  }

  lemma ClaimWithin(
    cfg: Config, s: State, at: int, actor: Actor, runId: string, planId: Option<string>, unwinding: bool)
    ensures KeepsWithin(s.ledger, DoClaim(s, cfg, at, actor, runId, planId).ledger, cfg, unwinding)
  {
    var out := ClaimMutator(s.ledger, cfg, at, actor, runId, planId);
    var k := ClaimCandidate(s.ledger, cfg, at, planId);
    if HasActivePlan(out.ledger.acceptedPlans) {
      var j :| 0 <= j < |out.ledger.acceptedPlans| && IsActivePlan(out.ledger.acceptedPlans[j]);
      assert IsActivePlan(s.ledger.acceptedPlans[j]);
    }
    PruneWithin(out.ledger, cfg, unwinding);
    PruneWithin(s.ledger, cfg, unwinding);
  }

  lemma BlockWithin(cfg: Config, s: State, k: nat, unwinding: bool)
    ensures KeepsWithin(s.ledger, DoBlock(s, k).ledger, cfg, unwinding)
  {
    if k < |s.attempts| {
      var a := s.attempts[k];
      var l := BlockMutator(s.ledger, a.plan.id, a.actor, a.runId);
      if HasActivePlan(l.acceptedPlans) {
        var j :| 0 <= j < |l.acceptedPlans| && IsActivePlan(l.acceptedPlans[j]);
        assert IsActivePlan(s.ledger.acceptedPlans[j]);
      }
      PruneWithin(l, cfg, unwinding);
    }
  }

  lemma FinaliseWithin(cfg: Config, s: State, k: nat, failed: bool, unwinding: bool)
    requires OnlyHeadActive(s.ledger.acceptedPlans) && FinalisesExecuting(s, Finalise(k, failed))
    ensures KeepsWithin(s.ledger, DoFinalise(s, cfg, k, failed).ledger, cfg, unwinding)
  {
    if k < |s.attempts| && s.attempts[k].phase.Running? {
      var a := s.attempts[k];
      var l := FinaliseMutator(s.ledger, a.plan, a.proposal, a.actor, a.runId, cfg, s.now, failed && !cfg.dryRun);
      if FencedPlan(s, k).Some? {
        SettleWithin(s.ledger, l, FencedPlan(s, k).value, cfg, unwinding);
      }
      PruneWithin(l, cfg, unwinding);
    }
  }

  lemma StepWithin(cfg: Config, s: State, step: Step, unwinding: bool)
    requires OnlyHeadActive(s.ledger.acceptedPlans) && Harmless(cfg, s, step, unwinding)
    ensures KeepsWithin(s.ledger, Apply(cfg, s, step).ledger, cfg, unwinding)
  {
    match step
    case Coordinate => CoordinateWithin(cfg, s, unwinding);
    case Claim(at, actor, runId, planId) => ClaimWithin(cfg, s, at, actor, runId, planId, unwinding);
    case Block(k) => BlockWithin(cfg, s, k, unwinding);
    case Finalise(k, failed) => FinaliseWithin(cfg, s, k, failed, unwinding);
    case Guard =>
      GuardWithin(s.ledger, cfg, s.now, unwinding);
      PruneWithin(GuardMutator(s.ledger, cfg, s.now), cfg, unwinding);
    case Tick(_) =>
    case Gate(_) =>
    case Crash(_) =>
    case Propose(p) => PruneWithin(ProposeMutator(s.ledger, p, cfg, s.now), cfg, unwinding);
    case CaptureMarket(m) =>
      PruneWithin(s.ledger.(marketSnapshots := [m] + s.ledger.marketSnapshots), cfg, unwinding);
    case CapturePositions(p) =>
      PruneWithin(s.ledger.(positionSnapshots := [p] + s.ledger.positionSnapshots), cfg, unwinding);
  }

  predicate HarmlessRun(cfg: Config, steps: seq<Step>, unwinding: bool) {
    forall k :: 0 <= k < |steps| ==> Harmless(cfg, Before(cfg, steps, k), steps[k], unwinding)
  }

  lemma {:induction false} WithinThroughout(cfg: Config, steps: seq<Step>, unwinding: bool, k: nat)
    requires k <= |steps| && HarmlessRun(cfg, steps, unwinding)
    ensures Within(Before(cfg, steps, k).ledger, cfg, unwinding)
    decreases k
  {
    if k > 0 {
      WithinThroughout(cfg, steps, unwinding, k - 1);
      RunSnoc(cfg, steps, k - 1);
      HeadInvariant(cfg, steps[..k - 1]);
      assert Harmless(cfg, Before(cfg, steps, k - 1), steps[k - 1], unwinding);
      StepWithin(cfg, Before(cfg, steps, k - 1), steps[k - 1], unwinding);
    }
  }

  /** Open loops plus the plan in flight. */
  function InUse(l: Ledger): nat {
    Count(l.loopPositions, CountsAgainstCapacity) + InFlight(l.acceptedPlans)
  }

  /**
   * Loop capacity. If finalisations find their plan executing, and either no guard tick ever reopens a
   * loop (`unwinding` false) or no guard tick locks a protocol on which loops are still unwinding from
   * an earlier lock elsewhere (`unwinding` true), the limit is never exceeded, at any point of the run.
   */
  lemma CapacityRespected(cfg: Config, steps: seq<Step>, unwinding: bool)
    requires HarmlessRun(cfg, steps, unwinding)
    ensures InUse(Run(cfg, steps).ledger) <= Limit(cfg)
  {
    assert steps[..|steps|] == steps;
    WithinThroughout(cfg, steps, unwinding, |steps|);
    var l := Run(cfg, steps).ledger;
    CountPointwise(l.loopPositions, l.loopPositions, CountsAgainstCapacity, Committed(l.riskLocks, unwinding));
  }

  /** Timely live runs with distinct claim keys finalise executing plans only. */
  lemma TimelyFinalisesExecuting(cfg: Config, steps: seq<Step>, k: nat)
    requires !cfg.dryRun && DistinctClaims(cfg, steps) && Timely(cfg, steps) && k < |steps|
    ensures FinalisesExecuting(Before(cfg, steps, k), steps[k])
  {
    HeldThroughout(cfg, steps, k);
    var s := Before(cfg, steps, k);
    assert FinalisesInTime(s, steps[k]);
    if steps[k].Finalise? && steps[k].attempt < |s.attempts| && FencedPlan(s, steps[k].attempt).Some? {
      FencedPlanIsOurs(s, steps[k].attempt);
      var p, a := s.ledger.acceptedPlans[FencedPlan(s, steps[k].attempt).value], s.attempts[steps[k].attempt];
      assert p in s.ledger.acceptedPlans && a in s.attempts && Holds(p, a);
    }
  }
}
