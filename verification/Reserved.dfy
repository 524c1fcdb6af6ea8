/**
 * The exact reach of the loop limit. A lock unwinds every open loop and clearing one reopens loops, so
 * what a run can be brought to have open is every loop not yet closed, plus the plan in flight.
 */
module Reserved {
  import opened Prelude
  import opened StrategyLedger
  import opened Subagents
  import opened LedgerRuns
  import opened ActivePlan
  import opened RiskLocks
  import opened Fencing
  import opened Capacity
  import Policy

  predicate NotClosed(loop: LoopPosition) { !loop.status.Closed? }

  function Reserved(l: Ledger): nat { Count(l.loopPositions, NotClosed) + InFlight(l.acceptedPlans) }

  lemma InUseWithinReserved(l: Ledger)
    ensures InUse(l) <= Reserved(l)
  {
    CountPointwise(l.loopPositions, l.loopPositions, CountsAgainstCapacity, NotClosed);
  }

  lemma PruneReserved(l: Ledger)
    requires OnlyHeadActive(l.acceptedPlans)
    ensures Reserved(Prune(l)) == Reserved(l)
  {
    var kept := Take(l.acceptedPlans, MAX_PLANS);
    if HasActivePlan(l.acceptedPlans) { assert IsActivePlan(kept[0]); }
  }

  // === Watching: position snapshots and guard ticks ===

  predicate Watching(steps: seq<Step>) {
    forall k :: 0 <= k < |steps| ==> steps[k].CapturePositions? || steps[k].Guard?
  }

  /** The guard changes the status of loops, never to or from closed. */
  lemma GuardReserved(l: Ledger, cfg: Config, now: int)
    ensures Reserved(GuardMutator(l, cfg, now)) == Reserved(l)
    ensures GuardMutator(l, cfg, now).acceptedPlans == l.acceptedPlans
  {
    var r := GuardMutator(l, cfg, now).loopPositions;
    assert |r| == |l.loopPositions|;
    assert forall k :: 0 <= k < |r| ==> (NotClosed(r[k]) <==> NotClosed(l.loopPositions[k]));
    CountPointwise(r, l.loopPositions, NotClosed, NotClosed);
    CountPointwise(l.loopPositions, r, NotClosed, NotClosed);
  }

  lemma WatchReserved(cfg: Config, s: State, step: Step)
    requires OnlyHeadActive(s.ledger.acceptedPlans) && (step.CapturePositions? || step.Guard?)
    ensures Reserved(Apply(cfg, s, step).ledger) == Reserved(s.ledger)
  {
    if step.Guard? {
      GuardReserved(s.ledger, cfg, s.now);
      PruneReserved(GuardMutator(s.ledger, cfg, s.now));
    } else {
      PruneReserved(s.ledger.(positionSnapshots := [step.positions] + s.ledger.positionSnapshots));
    }
  }

  predicate ReservedIs(cfg: Config, steps: seq<Step>, k: nat, n: nat)
    requires k <= |steps|
  {
    Reserved(Before(cfg, steps, k).ledger) == n
  }

  lemma WatchedStep(cfg: Config, steps: seq<Step>, k: nat, n: nat)
    requires k < |steps| && ReservedIs(cfg, steps, k, n) && (steps[k].CapturePositions? || steps[k].Guard?)
    ensures ReservedIs(cfg, steps, k + 1, n)
  {
    HeadInvariant(cfg, steps[..k]);
    RunSnoc(cfg, steps, k);
    WatchReserved(cfg, Before(cfg, steps, k), steps[k]);
  }

  /** Watching moves loops in and out of use and never changes what is reserved. */
  lemma {:induction false} WatchedStretch(cfg: Config, steps: seq<Step>, from: nat, k: nat, n: nat)
    requires from <= k <= |steps| && ReservedIs(cfg, steps, from, n)
    requires forall j :: from <= j < k ==> steps[j].CapturePositions? || steps[j].Guard?
    ensures ReservedIs(cfg, steps, k, n)
    decreases k
  {
    if from < k {
      WatchedStretch(cfg, steps, from, k - 1, n);
      WatchedStep(cfg, steps, k - 1, n);
    }
  }

  lemma WatchingReserved(cfg: Config, steps: seq<Step>, more: seq<Step>)
    requires Watching(more)
    ensures Reserved(Run(cfg, steps + more).ledger) == Reserved(Run(cfg, steps).ledger)
  {
    var all := steps + more;
    assert all[..|all|] == all && all[..|steps|] == steps;
    WatchedStretch(cfg, all, |steps|, |all|, Reserved(Run(cfg, steps).ledger));
  }

  // === An alarm on every protocol, and the all-clear ===

  /** One borrow on `p`, exactly at the critical health factor. */
  function Critical(cfg: Config, p: Protocol): PositionSnapshot {
    PositionSnapshot("", 0, [ProtocolPositions(
      p, Finite(cfg.criticalHealthFactor), 0.0, 0.0, 0.0, 0.0, [], [PositionLeg(Sui, "", "", 0.0)])])
  }

  const ALL_CLEAR := PositionSnapshot("", 0, [])

  function Watch(snapshot: PositionSnapshot): seq<Step> { [CapturePositions(snapshot), Guard] }

  function Observed(cfg: Config, s: State, snapshot: PositionSnapshot): State {
    Apply(cfg, Apply(cfg, s, CapturePositions(snapshot)), Guard)
  }

  lemma RunWatch(cfg: Config, steps: seq<Step>, snapshot: PositionSnapshot)
    ensures Run(cfg, steps + Watch(snapshot)) == Observed(cfg, Run(cfg, steps), snapshot)
  {
    var t := steps + [CapturePositions(snapshot)];
    assert t[..|steps|] == steps;
    assert steps + Watch(snapshot) == t + [Guard];
    assert (t + [Guard])[..|t|] == t;
  }

  lemma GuardLocks(l: Ledger, cfg: Config, now: int, p: Protocol)
    requires ActivePrefix(l.riskLocks) && l.positionSnapshots != [] && l.positionSnapshots[0] == Critical(cfg, p)
    ensures var locks := GuardMutator(l, cfg, now).riskLocks;
      ActivePrefix(locks) && IsLocked(locks, p) && forall q :: IsLocked(l.riskLocks, q) ==> IsLocked(locks, q)
  {
    GuardKeepsLocks(l, cfg, now);
    var isCritical := (e: ProtocolPositions) => IsCritical(e, cfg);
    var e := Critical(cfg, p).protocols[0];
    assert isCritical(e);
    assert FindIndex(Critical(cfg, p).protocols, isCritical) == 0;
    LockedAfter(l.riskLocks, GuardMutator(l, cfg, now).riskLocks, p, e.healthFactor, now);
  }

  /** A critical snapshot locks its protocol and leaves every other lock in place. */
  lemma AlarmLocks(cfg: Config, s: State, p: Protocol)
    requires ActivePrefix(s.ledger.riskLocks)
    ensures var locks := Observed(cfg, s, Critical(cfg, p)).ledger.riskLocks;
      ActivePrefix(locks) && IsLocked(locks, p) && forall q :: IsLocked(s.ledger.riskLocks, q) ==> IsLocked(locks, q)
  {
    var l := Apply(cfg, s, CapturePositions(Critical(cfg, p))).ledger;
    assert l.riskLocks == Take(s.ledger.riskLocks, MAX_LOCKS) && l.positionSnapshots[0] == Critical(cfg, p);
    PruneKeepsActiveLocks(s.ledger.riskLocks);
    GuardLocks(l, cfg, s.now, p);
    PruneKeepsActiveLocks(GuardMutator(l, cfg, s.now).riskLocks);
  }

  predicate LocksGrow(before: seq<RiskLock>, after: seq<RiskLock>, p: Protocol) {
    ActivePrefix(before) ==>
      ActivePrefix(after) && forall q :: q == p || IsLocked(before, q) ==> IsLocked(after, q)
  }

  lemma AlarmRun(cfg: Config, steps: seq<Step>, p: Protocol)
    ensures LocksGrow(Run(cfg, steps).ledger.riskLocks,
                      Run(cfg, steps + Watch(Critical(cfg, p))).ledger.riskLocks, p)
  {
    RunWatch(cfg, steps, Critical(cfg, p));
    if ActivePrefix(Run(cfg, steps).ledger.riskLocks) { AlarmLocks(cfg, Run(cfg, steps), p); }
  }

  /** Refreshing the lock on `p`, or adding one in front. */
  lemma LockedAfter(locks: seq<RiskLock>, after: seq<RiskLock>, p: Protocol, hf: HealthFactor, now: int)
    requires var k := FindIndex(locks, LockFor(p));
      after == if k < |locks| then locks[k := locks[k].(healthFactor := hf)]
               else [RiskLock(now, true, true, Some(p), hf)] + locks
    ensures IsLocked(after, p) && forall q :: IsLocked(locks, q) ==> IsLocked(after, q)
  {
    var k := FindIndex(locks, LockFor(p));
    if k < |locks| {
      assert LockFor(p)(locks[k]);
      assert after[k].protocol == Some(p);
    } else {
      assert after[0].protocol == Some(p);
    }
    forall q | IsLocked(locks, q) ensures IsLocked(after, q) {
      var j :| 0 <= j < |locks| && locks[j].active && locks[j].critical && locks[j].protocol == Some(q);
      assert after[j + |after| - |locks|].active;
    }
  }

  /** With every protocol locked, the all-clear reopens every unwinding loop. */
  lemma AllClearReopens(cfg: Config, s: State)
    requires ActivePrefix(s.ledger.riskLocks) && OnlyHeadActive(s.ledger.acceptedPlans)
    requires forall p :: IsLocked(s.ledger.riskLocks, p)
    ensures var l := Observed(cfg, s, ALL_CLEAR).ledger; InUse(l) == Reserved(l)
  {
    var l := Apply(cfg, s, CapturePositions(ALL_CLEAR)).ledger;
    PruneKeepsActiveLocks(s.ledger.riskLocks);
    var loops := ReactivateLoops(l.loopPositions, l.riskLocks);
    forall k | 0 <= k < |loops| ensures NotClosed(loops[k]) ==> CountsAgainstCapacity(loops[k]) {
      assert IsLocked(l.riskLocks, l.loopPositions[k].collateralProtocol);
    }
    CountPointwise(loops, loops, NotClosed, CountsAgainstCapacity);
    InUseWithinReserved(Observed(cfg, s, ALL_CLEAR).ledger);
  }

  lemma AllClearRun(cfg: Config, steps: seq<Step>)
    requires ActivePrefix(Run(cfg, steps).ledger.riskLocks) && forall p :: IsLocked(Run(cfg, steps).ledger.riskLocks, p)
    ensures var l := Run(cfg, steps + Watch(ALL_CLEAR)).ledger; InUse(l) == Reserved(l)
  {
    HeadInvariant(cfg, steps);
    RunWatch(cfg, steps, ALL_CLEAR);
    AllClearReopens(cfg, Run(cfg, steps));
  }

  function Alarms(cfg: Config): seq<Step> {
    Watch(Critical(cfg, Suilend)) + Watch(Critical(cfg, Navi)) + Watch(Critical(cfg, Scallop))
  }

  lemma AlarmsLockAll(cfg: Config, steps: seq<Step>)
    ensures var locks := Run(cfg, steps + Alarms(cfg)).ledger.riskLocks;
      ActivePrefix(locks) && forall p :: IsLocked(locks, p)
  {
    var a := steps + Watch(Critical(cfg, Suilend));
    var b := a + Watch(Critical(cfg, Navi));
    LocksInvariant(cfg, steps);
    AlarmRun(cfg, steps, Suilend);
    AlarmRun(cfg, a, Navi);
    AlarmRun(cfg, b, Scallop);
    assert steps + Alarms(cfg) == b + Watch(Critical(cfg, Scallop));
    forall p ensures IsLocked(Run(cfg, steps + Alarms(cfg)).ledger.riskLocks, p) {
      assert p == Suilend || p == Navi || p == Scallop;
    }
  }

  /** From every reachable state, an alarm on each protocol and the all-clear put everything reserved in use. */
  lemma AlarmOpensEverything(cfg: Config, steps: seq<Step>)
    ensures var more := Alarms(cfg) + Watch(ALL_CLEAR);
      Watching(more) && InUse(Run(cfg, steps + more).ledger) == Reserved(Run(cfg, steps).ledger)
  {
    var more := Alarms(cfg) + Watch(ALL_CLEAR);
    AlarmsLockAll(cfg, steps);
    AllClearRun(cfg, steps + Alarms(cfg));
    assert steps + more == steps + Alarms(cfg) + Watch(ALL_CLEAR);
    WatchingReserved(cfg, steps, more);
  }

  predicate Exceeds(cfg: Config, steps: seq<Step>, more: seq<Step>) {
    Watching(more) && InUse(Run(cfg, steps + more).ledger) > Limit(cfg)
  }

  /**
   * Snapshots and guard ticks alone can bring a reachable state over the loop limit if and only if more
   * is reserved than the limit allows.
   */
  lemma WatchingExceedsIff(cfg: Config, steps: seq<Step>)
    ensures (exists more :: Exceeds(cfg, steps, more)) <==> Reserved(Run(cfg, steps).ledger) > Limit(cfg)
  {
    AlarmOpensEverything(cfg, steps);
    assert Reserved(Run(cfg, steps).ledger) > Limit(cfg) ==> Exceeds(cfg, steps, Alarms(cfg) + Watch(ALL_CLEAR));
    forall more | Exceeds(cfg, steps, more) ensures Reserved(Run(cfg, steps).ledger) > Limit(cfg) {
      WatchingReserved(cfg, steps, more);
      InUseWithinReserved(Run(cfg, steps + more).ledger);
    }
  }

  // === The check that would keep the limit ===

  /** A successful finalisation whose plan is no longer in flight. */
  predicate FinalisesSettled(cfg: Config, s: State, step: Step) {
    && step.Finalise? && step.attempt < |s.attempts| && s.attempts[step.attempt].phase.Running?
    && FencedPlan(s, step.attempt).Some?
    && !IsActivePlan(s.ledger.acceptedPlans[FencedPlan(s, step.attempt).value])
    && (step.failed ==> cfg.dryRun)
  }

  /** What is reserved just before a step that reserves one more. */
  predicate HasRoom(cfg: Config, s: State, step: Step) {
    && (FreshPlans(cfg, s, step) == 1 ==> Reserved(Policy.Settled(s.ledger, cfg, s.now)) < Limit(cfg))
    && (FinalisesSettled(cfg, s, step) ==> Reserved(s.ledger) < Limit(cfg))
  }

  /** A step from `s` to `t` stays within the limit exactly when it had room. */
  predicate RoomDecides(cfg: Config, s: State, step: Step, t: State) {
    Reserved(s.ledger) <= Limit(cfg) ==> (Reserved(t.ledger) <= Limit(cfg) <==> HasRoom(cfg, s, step))
  }

  lemma RewriteReserved(plans: seq<Plan>, k: nat, p: Plan)
    requires OnlyHeadActive(plans) && k < |plans| && (IsActivePlan(p) ==> IsActivePlan(plans[k]))
    ensures OnlyHeadActive(plans[k := p]) && InFlight(plans[k := p]) <= InFlight(plans)
    ensures !IsActivePlan(p) ==>
      InFlight(plans[k := p]) + (if IsActivePlan(plans[k]) then 1 else 0) == InFlight(plans)
  {
    var after := plans[k := p];
    if HasActivePlan(after) {
      var j :| 0 <= j < |after| && IsActivePlan(after[j]);
      assert IsActivePlan(plans[j]);
    }
    if IsActivePlan(plans[k]) {
      assert k == 0 && HasActivePlan(plans);
    } else if HasActivePlan(plans) {
      assert IsActivePlan(after[0]);
    }
  }

  lemma ReconcileReserved(l: Ledger, cfg: Config, now: int)
    requires OnlyHeadActive(l.acceptedPlans)
    ensures Reserved(Reconcile(l, cfg, now)) <= Reserved(l)
    ensures OnlyHeadActive(Reconcile(l, cfg, now).acceptedPlans)
  {
    ReconcileHead(l, now);
    if l.acceptedPlans != [] && ClaimExpired(l.acceptedPlans[0], now) {
      var r := ReconcileOne(l, now, 0);
      RewriteReserved(l.acceptedPlans, 0, r.acceptedPlans[0]);
      assert r.acceptedPlans == l.acceptedPlans[0 := r.acceptedPlans[0]];
      if r.loopPositions != l.loopPositions { CountCons(r.loopPositions[0], l.loopPositions, NotClosed); }
    }
  }

  /** Accepting reserves exactly one more; anything else the coordinator does reserves nothing. */
  lemma AcceptReserved(l: Ledger, cfg: Config, now: int)
    requires OnlyHeadActive(l.acceptedPlans)
    ensures var out := AcceptMutator(l, cfg, now); out.Some? ==>
      && OnlyHeadActive(out.value.acceptedPlans)
      && Reserved(out.value) == Reserved(l) + |out.value.acceptedPlans| - |l.acceptedPlans|
  {
    AcceptKeepsPlans(l, cfg, now);
    var out := AcceptMutator(l, cfg, now);
    if out.Some? && |out.value.acceptedPlans| > |l.acceptedPlans| {
      assert IsActivePlan(out.value.acceptedPlans[0]);
    }
  }

  lemma CoordinateReserved(cfg: Config, s: State)
    requires OnlyHeadActive(s.ledger.acceptedPlans)
    ensures RoomDecides(cfg, s, Coordinate, DoCoordinate(s, cfg))
  {
    var expired := s.ledger.(strategyProposals := ExpireProposals(s.ledger.strategyProposals, s.now));
    var settled := Policy.Settled(s.ledger, cfg, s.now);
    assert settled == Reconcile(expired, cfg, s.now);
    ReconcileReserved(expired, cfg, s.now);
    ReconcileKeepsPlans(expired, s.now, 0);
    AcceptReserved(settled, cfg, s.now);
    AcceptKeepsPlans(settled, cfg, s.now);
    var out := CoordinatorMutator(s.ledger, cfg, s.now);
    if out.Some? { PruneReserved(out.value); }
  }

  lemma ClaimReserved(
    cfg: Config, s: State, at: int, actor: Actor, runId: string, planId: Option<string>)
    requires OnlyHeadActive(s.ledger.acceptedPlans)
    ensures Reserved(DoClaim(s, cfg, at, actor, runId, planId).ledger) <= Reserved(s.ledger)
  {
    var out := ClaimMutator(s.ledger, cfg, at, actor, runId, planId);
    var k := ClaimCandidate(s.ledger, cfg, at, planId);
    if k < |s.ledger.acceptedPlans| && Claimable(s.ledger.acceptedPlans[k], cfg, at) {
      RewriteReserved(s.ledger.acceptedPlans, k, out.ledger.acceptedPlans[k]);
    }
    PruneReserved(out.ledger);
  }

  lemma BlockReserved(s: State, k: nat)
    requires OnlyHeadActive(s.ledger.acceptedPlans)
    ensures Reserved(DoBlock(s, k).ledger) <= Reserved(s.ledger)
  {
    if k < |s.attempts| {
      var a := s.attempts[k];
      var l := BlockMutator(s.ledger, a.plan.id, a.actor, a.runId);
      var i := FindIndex(s.ledger.acceptedPlans, PlanWithId(a.plan.id));
      if l != s.ledger { RewriteReserved(s.ledger.acceptedPlans, i, l.acceptedPlans[i]); }
      PruneReserved(l);
    }
  }

  lemma FinaliseReserved(cfg: Config, s: State, k: nat, failed: bool)
    requires OnlyHeadActive(s.ledger.acceptedPlans)
    ensures RoomDecides(cfg, s, Finalise(k, failed), DoFinalise(s, cfg, k, failed))
  {
    if k < |s.attempts| && s.attempts[k].phase.Running? {
      var a := s.attempts[k];
      var l := FinaliseMutator(s.ledger, a.plan, a.proposal, a.actor, a.runId, cfg, s.now, failed && !cfg.dryRun);
      if FencedPlan(s, k).Some? {
        var i := FencedPlan(s, k).value;
        RewriteReserved(s.ledger.acceptedPlans, i, l.acceptedPlans[i]);
        if l.loopPositions != s.ledger.loopPositions {
          CountCons(l.loopPositions[0], s.ledger.loopPositions, NotClosed);
        }
      }
      PruneReserved(l);
    }
  }

  lemma StepReserved(cfg: Config, s: State, step: Step)
    requires OnlyHeadActive(s.ledger.acceptedPlans)
    ensures RoomDecides(cfg, s, step, Apply(cfg, s, step))
  {
    match step
    case Coordinate => CoordinateReserved(cfg, s);
    case Claim(at, actor, runId, planId) => ClaimReserved(cfg, s, at, actor, runId, planId);
    case Block(k) => BlockReserved(s, k);
    case Finalise(k, failed) => FinaliseReserved(cfg, s, k, failed);
    case Guard => WatchReserved(cfg, s, step);
    case CapturePositions(_) => WatchReserved(cfg, s, step);
    case Propose(p) => PruneReserved(ProposeMutator(s.ledger, p, cfg, s.now));
    case CaptureMarket(m) => PruneReserved(s.ledger.(marketSnapshots := [m] + s.ledger.marketSnapshots));
    case Tick(_) =>
    case Gate(_) =>
    case Crash(_) =>
  }

  /** No state the run passes through can be brought over the limit by snapshots and guard ticks. */
  ghost predicate SafeThroughout(cfg: Config, steps: seq<Step>) {
    forall k, more :: 0 <= k <= |steps| ==> !Exceeds(cfg, steps[..k], more)
  }

  predicate RoomThroughout(cfg: Config, steps: seq<Step>) {
    forall k :: 0 <= k < |steps| ==> HasRoom(cfg, Before(cfg, steps, k), steps[k])
  }

  predicate ReservedWithin(cfg: Config, steps: seq<Step>, k: nat)
    requires k <= |steps|
  {
    Reserved(Before(cfg, steps, k).ledger) <= Limit(cfg)
  }

  lemma ReservedStep(cfg: Config, steps: seq<Step>, k: nat)
    requires k < |steps| && ReservedWithin(cfg, steps, k)
    ensures ReservedWithin(cfg, steps, k + 1) <==> HasRoom(cfg, Before(cfg, steps, k), steps[k])
  {
    RunSnoc(cfg, steps, k);
    HeadInvariant(cfg, steps[..k]);
    StepReserved(cfg, Before(cfg, steps, k), steps[k]);
  }

  lemma {:induction false} RoomKeepsReserved(cfg: Config, steps: seq<Step>, k: nat)
    requires k <= |steps| && RoomThroughout(cfg, steps)
    ensures ReservedWithin(cfg, steps, k)
    decreases k
  {
    if k > 0 {
      RoomKeepsReserved(cfg, steps, k - 1);
      ReservedStep(cfg, steps, k - 1);
    }
  }

  /**
   * The limit holds at every point of a run, whatever snapshots and guard ticks come next, if and only if
   * every acceptance, and every finalisation of a plan no longer in flight, found less reserved than the
   * limit. The source checks the loops in use instead, and for finalisations it checks nothing.
   */
  lemma SafeIffRoom(cfg: Config, steps: seq<Step>)
    ensures SafeThroughout(cfg, steps) <==> RoomThroughout(cfg, steps)
  {
    if RoomThroughout(cfg, steps) {
      forall k, more | 0 <= k <= |steps| ensures !Exceeds(cfg, steps[..k], more) {
        RoomKeepsReserved(cfg, steps, k);
        WatchingExceedsIff(cfg, steps[..k]);
      }
    }
    if SafeThroughout(cfg, steps) {
      forall k | 0 <= k < |steps| ensures HasRoom(cfg, Before(cfg, steps, k), steps[k]) {
        WatchingExceedsIff(cfg, steps[..k]);
        WatchingExceedsIff(cfg, steps[..k + 1]);
        ReservedStep(cfg, steps, k);
      }
    }
  }
}
