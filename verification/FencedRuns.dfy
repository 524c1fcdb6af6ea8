/**
 * Runs in which the fence is enough: claims carry distinct (plan, actor, runId) keys, and every finalisation
 * comes before the coordinator's first tick after its claim expires (in a dry run none comes late).
 */
module FencedRuns {
  import opened Prelude
  import opened StrategyLedger
  import opened Subagents
  import opened LedgerRuns
  import opened Conservation
  import opened Fencing
  import opened SingleReceipt

  ghost predicate DistinctClaims(cfg: Config, steps: seq<Step>) {
    forall key :: Run(cfg, steps).hist.keys[key] <= 1
  }

  /** The attempt that finalises was not at work with an expired claim at an earlier coordinator tick. */
  predicate FinalisesInTime(s: State, step: Step) {
    step.Finalise? && step.attempt < |s.attempts| && s.attempts[step.attempt].phase.Running? ==>
      KeyOf(s.attempts[step.attempt]) !in s.hist.late
  }

  /** Every finalisation comes before the coordinator's first tick after the claim has expired. */
  predicate Timely(cfg: Config, steps: seq<Step>) {
    forall k :: 0 <= k < |steps| ==> FinalisesInTime(Before(cfg, steps, k), steps[k])
  }

  predicate Holds(p: Plan, a: Attempt) { p.id == a.plan.id && HoldsClaim(p, a.actor, a.runId) }

  predicate HeldOk(cfg: Config, p: Plan, a: Attempt) {
    && p.executionReceiptId.None?
    && (!cfg.dryRun ==> p.status.Executing? && p.claimExpiresAt == a.plan.claimExpiresAt)
  }

  /** A plan held by someone still working in time has no receipt; in a live run it is still executing. */
  predicate HeldPlansOk(cfg: Config, plans: seq<Plan>, attempts: seq<Attempt>, late: set<ClaimKey>) {
    forall p, a :: p in plans && a in attempts && KeyOf(a) !in late && Holds(p, a) ==> HeldOk(cfg, p, a)
  }

  predicate Held(cfg: Config, s: State) { HeldPlansOk(cfg, s.ledger.acceptedPlans, s.attempts, s.hist.late) }

  ghost predicate Unique(h: History) { forall key :: h.keys[key] <= 1 }

  predicate KeepsHeld(cfg: Config, s: State, t: State) { Held(cfg, s) ==> Held(cfg, t) }

  lemma AttemptKeyRecorded(s: State, a: Attempt)
    requires Basics(s) && a in s.attempts
    ensures KeyOf(a) in s.hist.keys
  {
    var k :| 0 <= k < |s.attempts| && s.attempts[k] == a;
    CountPositive(s.attempts, k, WithKey(KeyOf(a)));
    assert Count(s.attempts, WithKey(KeyOf(a))) <= s.hist.keys[KeyOf(a)];
  }

  lemma OthersHaveOtherKeys(s: State, k: nat, b: Attempt)
    requires Basics(s) && Unique(s.hist) && k < |s.attempts| && b in Without(s.attempts, k)
    ensures KeyOf(b) != KeyOf(s.attempts[k])
  {
    var rest := Without(s.attempts, k);
    var j :| 0 <= j < |rest| && rest[j] == b;
    CountPositive(rest, j, WithKey(KeyOf(b)));
    CountRemove(s.attempts, k, WithKey(KeyOf(b)));
    assert Count(s.attempts, WithKey(KeyOf(b))) <= s.hist.keys[KeyOf(b)] <= 1;
  }

  lemma TickedHeld(
    cfg: Config, before: seq<Plan>, after: seq<Plan>, attempts: seq<Attempt>, late: set<ClaimKey>, now: int,
    added: seq<Receipt>)
    requires TickPlans(before, after, cfg, now, added) && HeldPlansOk(cfg, before, attempts, late)
    ensures HeldPlansOk(cfg, after, attempts, late + LateKeys(attempts, cfg, now))
  {
    var d := |after| - |before|;
    var later := late + LateKeys(attempts, cfg, now);
    forall q, a | q in after && a in attempts && KeyOf(a) !in later && Holds(q, a) ensures HeldOk(cfg, q, a) {
      var j :| 0 <= j < |after| && after[j] == q;
      assert !cfg.dryRun ==> !OutOfTime(a, now);
      if j >= d {
        var p := before[j - d];
        assert AfterTick(p, after[(j - d) + d], cfg, now, added);
        assert p in before && Holds(p, a);
      }
    }
  }

  lemma CoordinateHeld(cfg: Config, s: State)
    ensures KeepsHeld(cfg, s, DoCoordinate(s, cfg))
  {
    var out := CoordinatorMutator(s.ledger, cfg, s.now);
    if Held(cfg, s) && out.Some? {
      CoordinatorPlans(s.ledger, cfg, s.now);
      TickedHeld(cfg, s.ledger.acceptedPlans, out.value.acceptedPlans, s.attempts, s.hist.late, s.now,
                 NewReceipts(s.ledger, out.value));
    }
  }

  /** Failing a claimable plan whose proposal is gone. */
  lemma OrphanHeld(cfg: Config, s: State, k: nat, at: int)
    requires Basics(s) && Held(cfg, s)
    requires k < |s.ledger.acceptedPlans| && Claimable(s.ledger.acceptedPlans[k], cfg, at)
    ensures var before := s.ledger.acceptedPlans;
      HeldPlansOk(cfg, before[k := before[k].(status := Failed)], s.attempts, s.hist.late)
  {
    var before := s.ledger.acceptedPlans;
    var plans := before[k := before[k].(status := Failed)];
    assert PlanOk(before[k], s.hist);
    forall q, a | q in plans && a in s.attempts && KeyOf(a) !in s.hist.late && Holds(q, a) ensures HeldOk(cfg, q, a) {
      if q !in before { assert q == plans[k]; }
    }
  }

  /** A new claim: its key is new, so it neither takes over nor is held by anything that was there. */
  lemma NewClaimHeld(cfg: Config, s: State, k: nat, at: int, claimed: Plan, a: Attempt)
    requires Basics(s) && Held(cfg, s)
    requires k < |s.ledger.acceptedPlans| && Claimable(s.ledger.acceptedPlans[k], cfg, at)
    requires claimed == ClaimedPlan(s.ledger.acceptedPlans[k], cfg, at, a.actor, a.runId) && a.plan == claimed
    requires KeyOf(a) !in s.hist.keys
    ensures HeldPlansOk(cfg, s.ledger.acceptedPlans[k := claimed], s.attempts + [a], s.hist.late)
  {
    var before := s.ledger.acceptedPlans;
    var plans := before[k := claimed];
    assert PlanOk(before[k], s.hist);
    forall q, b | q in plans && b in s.attempts + [a] && KeyOf(b) !in s.hist.late && Holds(q, b)
      ensures HeldOk(cfg, q, b)
    {
      if b in s.attempts { AttemptKeyRecorded(s, b); }
      if q in before {
        var j :| 0 <= j < |before| && before[j] == q;
        assert PlanOk(before[j], s.hist);
      } else {
        assert q == claimed;
      }
    }
  }

  lemma ClaimedState(
    cfg: Config, s: State, at: int, actor: Actor, runId: string, planId: Option<string>, k: nat)
    returns (claimed: Plan, a: Attempt)
    requires at <= s.now && k == ClaimCandidate(s.ledger, cfg, at, planId) < |s.ledger.acceptedPlans|
    requires Claimable(s.ledger.acceptedPlans[k], cfg, at)
    requires ClaimMutator(s.ledger, cfg, at, actor, runId, planId).claimed.Some?
    ensures claimed == ClaimedPlan(s.ledger.acceptedPlans[k], cfg, at, a.actor, a.runId) && a.plan == claimed
    ensures var t := DoClaim(s, cfg, at, actor, runId, planId);
      && t.ledger.acceptedPlans == Take(s.ledger.acceptedPlans[k := claimed], MAX_PLANS)
      && t.attempts == s.attempts + [a] && t.hist.late == s.hist.late
      && t.hist.keys == s.hist.keys + multiset{KeyOf(a)}
  {
    var out := ClaimMutator(s.ledger, cfg, at, actor, runId, planId).claimed.value;
    claimed, a := out.0, Attempt(out.0, out.1, actor, runId, Claimed, PlanRecord(s, k));
  }

  lemma HeldAfter(cfg: Config, s: State, t: State, k: nat, at: int, claimed: Plan, a: Attempt)
    requires Basics(s) && Held(cfg, s) && Unique(t.hist)
    requires k < |s.ledger.acceptedPlans| && Claimable(s.ledger.acceptedPlans[k], cfg, at)
    requires claimed == ClaimedPlan(s.ledger.acceptedPlans[k], cfg, at, a.actor, a.runId) && a.plan == claimed
    requires t.ledger.acceptedPlans == Take(s.ledger.acceptedPlans[k := claimed], MAX_PLANS)
    requires t.attempts == s.attempts + [a] && t.hist.late == s.hist.late
    requires t.hist.keys == s.hist.keys + multiset{KeyOf(a)}
    ensures Held(cfg, t)
  {
    assert t.hist.keys[KeyOf(a)] == s.hist.keys[KeyOf(a)] + 1;
    NewClaimHeld(cfg, s, k, at, claimed, a);
  }

  lemma ClaimHeld(cfg: Config, s: State, at: int, actor: Actor, runId: string, planId: Option<string>)
    requires Basics(s) && Unique(DoClaim(s, cfg, at, actor, runId, planId).hist)
    ensures KeepsHeld(cfg, s, DoClaim(s, cfg, at, actor, runId, planId))
  {
    var k, before := ClaimCandidate(s.ledger, cfg, at, planId), s.ledger.acceptedPlans;
    if Held(cfg, s) && at <= s.now && k < |before| && Claimable(before[k], cfg, at) {
      if ClaimMutator(s.ledger, cfg, at, actor, runId, planId).claimed.None? {
        OrphanHeld(cfg, s, k, at);
      } else {
        var claimed, a := ClaimedState(cfg, s, at, actor, runId, planId, k);
        HeldAfter(cfg, s, DoClaim(s, cfg, at, actor, runId, planId), k, at, claimed, a);
      }
    }
  }

  /** Blocking or finalising rewrites the plan its attempt holds and drops the attempt. */
  lemma RewriteHeld(cfg: Config, s: State, k: nat, plans: seq<Plan>)
    requires Basics(s) && Unique(s.hist) && Held(cfg, s) && k < |s.attempts|
    requires FencedPlan(s, k).None? ==> plans == s.ledger.acceptedPlans
    requires FencedPlan(s, k).Some? ==>
      var q := FencedPlan(s, k).value;
      |plans| == |s.ledger.acceptedPlans| && plans == s.ledger.acceptedPlans[q := plans[q]]
      && plans[q].id == s.attempts[k].plan.id && HoldsClaim(plans[q], s.attempts[k].actor, s.attempts[k].runId)
    ensures HeldPlansOk(cfg, Take(plans, MAX_PLANS), Without(s.attempts, k), s.hist.late)
  {
    forall q, a | q in plans && a in Without(s.attempts, k) && KeyOf(a) !in s.hist.late && Holds(q, a)
      ensures HeldOk(cfg, q, a)
    {
      OthersHaveOtherKeys(s, k, a);
      assert q in s.ledger.acceptedPlans && a in s.attempts;
    }
  }

  lemma BlockHeld(cfg: Config, s: State, k: nat)
    requires Basics(s) && Unique(s.hist)
    ensures KeepsHeld(cfg, s, DoBlock(s, k))
  {
    if Held(cfg, s) && k < |s.attempts| {
      if FencedPlan(s, k).Some? { FencedPlanIsOurs(s, k); }
      var a := s.attempts[k];
      RewriteHeld(cfg, s, k, BlockMutator(s.ledger, a.plan.id, a.actor, a.runId).acceptedPlans);
    }
  }

  lemma FinaliseHeld(cfg: Config, s: State, k: nat, failed: bool)
    requires Basics(s) && Unique(s.hist)
    ensures KeepsHeld(cfg, s, DoFinalise(s, cfg, k, failed))
  {
    if Held(cfg, s) && k < |s.attempts| {
      if FencedPlan(s, k).Some? { FencedPlanIsOurs(s, k); }
      var a := s.attempts[k];
      RewriteHeld(cfg, s, k, FinaliseMutator(s.ledger, a.plan, a.proposal, a.actor, a.runId, cfg, s.now,
                                             failed && !cfg.dryRun).acceptedPlans);
    }
  }

  lemma GateHeld(cfg: Config, s: State, k: nat)
    ensures KeepsHeld(cfg, s, DoGate(s, cfg, k))
  {
    if Held(cfg, s) && k < |s.attempts| {
      var t := DoGate(s, cfg, k);
      forall p, b | p in s.ledger.acceptedPlans && b in t.attempts && KeyOf(b) !in s.hist.late && Holds(p, b)
        ensures HeldOk(cfg, p, b)
      {
        var a := if b in s.attempts then b else s.attempts[k];
        assert a in s.attempts && a.plan == b.plan && KeyOf(a) == KeyOf(b) && Holds(p, a);
      }
    }
  }

  lemma OtherStepHeld(cfg: Config, s: State, step: Step)
    requires step.Tick? || step.CaptureMarket? || step.CapturePositions? || step.Propose? || step.Guard? || step.Crash?
    ensures KeepsHeld(cfg, s, Apply(cfg, s, step))
  {
    var t := Apply(cfg, s, step);
    assert t.ledger.acceptedPlans == Take(s.ledger.acceptedPlans, MAX_PLANS)
        || t.ledger.acceptedPlans == s.ledger.acceptedPlans;
    assert forall a :: a in t.attempts ==> a in s.attempts;
  }

  lemma StepHeld(cfg: Config, s: State, step: Step)
    requires Basics(s) && Unique(Apply(cfg, s, step).hist)
    ensures KeepsHeld(cfg, s, Apply(cfg, s, step))
  {
    StepGrows(cfg, s, step);
    match step
    case Coordinate => CoordinateHeld(cfg, s);
    case Claim(at, actor, runId, planId) => ClaimHeld(cfg, s, at, actor, runId, planId);
    case Gate(k) => GateHeld(cfg, s, k);
    case Block(k) => BlockHeld(cfg, s, k);
    case Finalise(k, failed) => FinaliseHeld(cfg, s, k, failed);
    case _ => OtherStepHeld(cfg, s, step);
  }

  lemma HeldNext(cfg: Config, steps: seq<Step>, k: nat)
    requires k < |steps| && Basics(Before(cfg, steps, k)) && Held(cfg, Before(cfg, steps, k))
    requires Unique(Before(cfg, steps, k + 1).hist)
    ensures Held(cfg, Before(cfg, steps, k + 1))
  {
    RunSnoc(cfg, steps, k);
    StepHeld(cfg, Before(cfg, steps, k), steps[k]);
  }

  lemma BasicsThroughout(cfg: Config, steps: seq<Step>, k: nat)
    requires k <= |steps| && DistinctClaims(cfg, steps)
    ensures Basics(Before(cfg, steps, k)) && Unique(Before(cfg, steps, k).hist)
  {
    BasicsHold(cfg, steps[..k]);
    RunGrows(cfg, steps, k);
  }

  lemma {:induction false} HeldThroughout(cfg: Config, steps: seq<Step>, k: nat)
    requires k <= |steps| && DistinctClaims(cfg, steps)
    ensures Held(cfg, Before(cfg, steps, k)) && Basics(Before(cfg, steps, k)) && Unique(Before(cfg, steps, k).hist)
    decreases k
  {
    BasicsThroughout(cfg, steps, k);
    if k > 0 {
      HeldThroughout(cfg, steps, k - 1);
      HeldNext(cfg, steps, k - 1);
    }
  }

  lemma HeldMeansNotStale(cfg: Config, s: State, step: Step)
    requires Basics(s) && Held(cfg, s) && FinalisesInTime(s, step)
    ensures !Stale(s, step)
  {
    if step.Finalise? && step.attempt < |s.attempts| && FencedPlan(s, step.attempt).Some? {
      FencedPlanIsOurs(s, step.attempt);
      var p, a := s.ledger.acceptedPlans[FencedPlan(s, step.attempt).value], s.attempts[step.attempt];
      assert p in s.ledger.acceptedPlans && a in s.attempts && Holds(p, a);
    }
  }

  lemma {:induction false} NeverLateInDryRuns(cfg: Config, steps: seq<Step>)
    requires cfg.dryRun
    ensures Run(cfg, steps).hist.late == {}
    decreases |steps|
  {
    if steps != [] {
      NeverLateInDryRuns(cfg, steps[..|steps| - 1]);
      LateOnlyByTicks(cfg, Run(cfg, steps[..|steps| - 1]), steps[|steps| - 1]);
    }
  }

  lemma LateOnlyByTicks(cfg: Config, s: State, step: Step)
    ensures Apply(cfg, s, step).hist.late <= s.hist.late + LateKeys(s.attempts, cfg, s.now)
  {
  }

  /** A dry run cancels nothing, so no finalisation of it is late. */
  lemma DryRunsAreTimely(cfg: Config, steps: seq<Step>)
    requires cfg.dryRun
    ensures Timely(cfg, steps)
  {
    forall k | 0 <= k < |steps| ensures FinalisesInTime(Before(cfg, steps, k), steps[k]) {
      NeverLateInDryRuns(cfg, steps[..k]);
    }
  }

  /**
   * Fenced finalisation. Whatever the interleaving, crashes and reclaimed claims: with distinct claim keys
   * a dry run has no stale finalisation, and neither has a live run whose finalisations are timely.
   */
  lemma FencedRunsHaveNoStaleFinalise(cfg: Config, steps: seq<Step>)
    requires DistinctClaims(cfg, steps) && (cfg.dryRun || Timely(cfg, steps))
    ensures NoStale(cfg, steps)
  {
    if cfg.dryRun { DryRunsAreTimely(cfg, steps); }
    forall k | 0 <= k < |steps| ensures !Stale(Before(cfg, steps, k), steps[k]) {
      HeldThroughout(cfg, steps, k);
      HeldMeansNotStale(cfg, Before(cfg, steps, k), steps[k]);
    }
  }

  /** Hence at most one receipt and at most one loop position ever, per proposal inserted. */
  lemma FencedRunsWriteOneReceipt(cfg: Config, steps: seq<Step>, id: string)
    requires DistinctClaims(cfg, steps) && (cfg.dryRun || Timely(cfg, steps))
    ensures var s := Run(cfg, steps);
      Count(s.ledger.loopPositions, LoopFor(id)) <= s.hist.receipts[id] <= s.hist.inserted[id]
  {
    FencedRunsHaveNoStaleFinalise(cfg, steps);
    ReceiptsBounded(cfg, steps, id);
  }
}
