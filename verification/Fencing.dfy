/**
 * One receipt per plan. Finalisation is fenced by the claim written on the plan but never looks at the
 * plan's status, so a claimant that comes back after the coordinator has reconciled its plan writes a
 * second receipt. This module says exactly when that happens and which runs exclude it.
 */
module Fencing {
  import opened Prelude
  import opened StrategyLedger
  import opened Subagents
  import opened LedgerRuns
  import opened Conservation

  // === Facts of every reachable state ===

  predicate PlanOk(p: Plan, h: History) {
    && p.id == PlanIdFor(p.proposalId)
    && (IsActivePlan(p) ==> p.executionReceiptId.None?)
    && (p.status.Executed? ==> p.executionReceiptId.Some?)
    && (p.status.Awaiting? ==> p.claimedBy.None?)
    && (p.executionReceiptId.Some? ==> h.receipts[p.proposalId] >= 1)
    && (p.claimedBy.Some? && p.executorRunId.Some? ==>
          ClaimKey(p.id, p.claimedBy.value, p.executorRunId.value) in h.keys)
  }

  predicate PlansOk(plans: seq<Plan>, h: History) {
    forall k :: 0 <= k < |plans| ==> PlanOk(plans[k], h)
  }

  predicate AttemptOk(a: Attempt) {
    && a.plan.id == PlanIdFor(a.plan.proposalId)
    && a.proposal.id == a.plan.proposalId
    && a.plan.claimExpiresAt.Some?
  }

  function WithKey(key: ClaimKey): Attempt -> bool { (a: Attempt) => KeyOf(a) == key }

  ghost predicate AttemptsOk(attempts: seq<Attempt>, h: History) {
    && (forall k :: 0 <= k < |attempts| ==> AttemptOk(attempts[k]))
    && (forall key :: Count(attempts, WithKey(key)) <= h.keys[key])
  }

  /** What reconciliation leaves of a plan. */
  predicate AfterReconcile(p: Plan, q: Plan, now: int, added: seq<Receipt>) {
    if !ClaimExpired(p, now) then q == p
    else
      || q == p.(status := Cancelled)
      || (q == p.(status := Executed, executionReceiptId := q.executionReceiptId)
          && q.executionReceiptId.Some? && ReceiptProposals(added)[p.proposalId] >= 1)
  }

  /** From index `k` on plans are reconciled, before it they are as they were. */
  predicate ReconciledFrom(l: Ledger, r: Ledger, now: int, k: nat, added: seq<Receipt>) {
    && r.executionReceipts == added + l.executionReceipts
    && |r.acceptedPlans| == |l.acceptedPlans|
    && (forall j {:trigger r.acceptedPlans[j]} :: 0 <= j < |l.acceptedPlans| ==>
          if j < k then r.acceptedPlans[j] == l.acceptedPlans[j]
          else AfterReconcile(l.acceptedPlans[j], r.acceptedPlans[j], now, added))
  }

  lemma ReconciledFromCompose(
    l: Ledger, m: Ledger, r: Ledger, now: int, k: nat, first: seq<Receipt>, rest: seq<Receipt>)
    requires k < |l.acceptedPlans| && |m.acceptedPlans| == |l.acceptedPlans|
    requires m.executionReceipts == first + l.executionReceipts
    requires forall j :: 0 <= j < |l.acceptedPlans| && j != k ==> m.acceptedPlans[j] == l.acceptedPlans[j]
    requires AfterReconcile(l.acceptedPlans[k], m.acceptedPlans[k], now, first)
    requires ReconciledFrom(m, r, now, k + 1, rest)
    ensures ReconciledFrom(l, r, now, k, rest + first)
  {
    PrefixesCompose(l.executionReceipts, m.executionReceipts, r.executionReceipts, first, rest);
    ReceiptProposalsAppend(rest, first);
  }

  lemma {:induction false} ReconcilePlans(l: Ledger, now: int, k: nat) returns (added: seq<Receipt>)
    requires k <= |l.acceptedPlans|
    ensures ReconciledFrom(l, ReconcileFrom(l, now, k), now, k, added)
    decreases |l.acceptedPlans| - k
  {
    if k == |l.acceptedPlans| {
      added := [];
      assert added + l.executionReceipts == l.executionReceipts;
    } else {
      var m := ReconcileOne(l, now, k);
      var first := ReconcileOnePlan(l, now, k);
      var rest := ReconcilePlans(m, now, k + 1);
      added := rest + first;
      ReconciledFromCompose(l, m, ReconcileFrom(m, now, k + 1), now, k, first, rest);
    }
  }

  lemma ReconcileOnePlan(l: Ledger, now: int, k: nat) returns (added: seq<Receipt>)
    requires k < |l.acceptedPlans|
    ensures var r := ReconcileOne(l, now, k);
      && r.executionReceipts == added + l.executionReceipts
      && (forall j :: 0 <= j < |l.acceptedPlans| && j != k ==> r.acceptedPlans[j] == l.acceptedPlans[j])
      && AfterReconcile(l.acceptedPlans[k], r.acceptedPlans[k], now, added)
  {
    var r := ReconcileOne(l, now, k);
    if |r.executionReceipts| > |l.executionReceipts| {
      added := [r.executionReceipts[0]];
      assert added[1..] == [];
      var q := FindIndex(l.strategyProposals, ProposalWithId(l.acceptedPlans[k].proposalId));
      assert ProposalWithId(l.acceptedPlans[k].proposalId)(l.strategyProposals[q]);
    } else {
      added := [];
      assert added + l.executionReceipts == l.executionReceipts;
    }
  }

  /** Accepting puts at most one fresh plan in front and leaves the rest of the lists it reads alone. */
  lemma AcceptShape(l: Ledger, cfg: Config, now: int)
    ensures var out := AcceptMutator(l, cfg, now);
      out.Some? ==>
        && out.value.loopPositions == l.loopPositions && out.value.executionReceipts == l.executionReceipts
        && (out.value.acceptedPlans == l.acceptedPlans
            || (exists id :: out.value.acceptedPlans == [NewPlan(id, now)] + l.acceptedPlans))
  {
  }

  lemma AcceptedAfterReconcile(
    before: seq<Plan>, mid: seq<Plan>, after: seq<Plan>, cfg: Config, now: int, added: seq<Receipt>)
    requires |mid| == |before|
    requires forall j :: 0 <= j < |before| ==> AfterTick(before[j], mid[j], cfg, now, added)
    requires after == mid || (exists id :: after == [NewPlan(id, now)] + mid)
    ensures TickPlans(before, after, cfg, now, added)
  {
    var d := |after| - |before|;
    forall j | 0 <= j < |before| ensures AfterTick(before[j], after[j + d], cfg, now, added) {
      assert after[j + d] == mid[j];
    }
  }

  /** The plan list after a coordinator tick: possibly a new head, then the reconciled old plans. */
  predicate TickPlans(before: seq<Plan>, after: seq<Plan>, cfg: Config, now: int, added: seq<Receipt>) {
    var d := |after| - |before|;
    && 0 <= d <= 1
    && (d == 1 ==> after[0] == NewPlan(after[0].proposalId, now))
    && (forall j {:trigger before[j]} :: 0 <= j < |before| ==>
          AfterTick(before[j], after[j + d], cfg, now, added))
  }

  lemma CoordinatorPlans(l: Ledger, cfg: Config, now: int)
    ensures var out := CoordinatorMutator(l, cfg, now);
      out.Some? ==>
        TickPlans(l.acceptedPlans, out.value.acceptedPlans, cfg, now, NewReceipts(l, out.value))
  {
    var expired := l.(strategyProposals := ExpireProposals(l.strategyProposals, now));
    var added := [];
    if !cfg.dryRun { added := ReconcilePlans(expired, now, 0); }
    var mid := Reconcile(expired, cfg, now);
    AcceptShape(mid, cfg, now);
    var out := AcceptMutator(mid, cfg, now);
    if out.Some? {
      NewReceiptsArePrefix(l, out.value, added);
      AcceptedAfterReconcile(l.acceptedPlans, mid.acceptedPlans, out.value.acceptedPlans, cfg, now, added);
    }
  }

  predicate AfterTick(p: Plan, q: Plan, cfg: Config, now: int, added: seq<Receipt>) {
    if cfg.dryRun then q == p else AfterReconcile(p, q, now, added)
  }

  // === The invariant is kept by every step ===

  ghost predicate Basics(s: State) {
    PlansOk(s.ledger.acceptedPlans, s.hist) && AttemptsOk(s.attempts, s.hist)
  }

  ghost predicate KeepsBasics(s: State, t: State) { Basics(s) ==> Basics(t) }

  /** Histories only grow. */
  ghost predicate Grows(h: History, g: History) {
    h.receipts <= g.receipts && h.keys <= g.keys && h.inserted <= g.inserted && h.accepted <= g.accepted
  }

  lemma OkSurvives(plans: seq<Plan>, h: History, g: History)
    requires PlansOk(plans, h) && Grows(h, g)
    ensures PlansOk(plans, g) && PlansOk(Take(plans, MAX_PLANS), g)
  {
    forall k | 0 <= k < |plans| ensures PlanOk(plans[k], g) { assert PlanOk(plans[k], h); }
  }

  lemma RemovalKeepsAttempts(attempts: seq<Attempt>, k: nat, h: History, g: History)
    requires k < |attempts| && AttemptsOk(attempts, h) && Grows(h, g)
    ensures AttemptsOk(Without(attempts, k), g)
  {
    forall key ensures Count(Without(attempts, k), WithKey(key)) <= g.keys[key] {
      CountRemove(attempts, k, WithKey(key));
    }
  }

  lemma PhaseKeepsAttempts(attempts: seq<Attempt>, k: nat, phase: Phase, h: History, g: History)
    requires k < |attempts| && AttemptsOk(attempts, h) && Grows(h, g)
    ensures AttemptsOk(attempts[k := attempts[k].(phase := phase)], g)
  {
    forall key ensures Count(attempts[k := attempts[k].(phase := phase)], WithKey(key)) <= g.keys[key] {
      CountUpdate(attempts, k, attempts[k].(phase := phase), WithKey(key));
    }
  }

  lemma TickedPlansOk(
    before: seq<Plan>, after: seq<Plan>, cfg: Config, now: int, added: seq<Receipt>, h: History, g: History)
    requires TickPlans(before, after, cfg, now, added) && PlansOk(before, h) && Grows(h, g)
    requires g.receipts == h.receipts + ReceiptProposals(added)
    ensures PlansOk(after, g)
  {
    var d := |after| - |before|;
    forall j | 0 <= j < |after| ensures PlanOk(after[j], g) {
      if j >= d {
        assert PlanOk(before[j - d], h);
        assert AfterTick(before[j - d], after[(j - d) + d], cfg, now, added);
      }
    }
  }

  lemma CoordinateBasics(cfg: Config, s: State)
    ensures KeepsBasics(s, DoCoordinate(s, cfg))
  {
    var out := CoordinatorMutator(s.ledger, cfg, s.now);
    if Basics(s) && out.Some? {
      var t := DoCoordinate(s, cfg);
      CoordinatorPlans(s.ledger, cfg, s.now);
      TickedPlansOk(s.ledger.acceptedPlans, out.value.acceptedPlans, cfg, s.now, NewReceipts(s.ledger, out.value),
                    s.hist, t.hist);
      OkSurvives(out.value.acceptedPlans, t.hist, t.hist);
    }
  }

  lemma ClaimPlans(
    l: Ledger, h: History, g: History,
    cfg: Config, at: int, actor: Actor, runId: string, planId: Option<string>)
    requires PlansOk(l.acceptedPlans, h) && Grows(h, g)
    requires var out := ClaimMutator(l, cfg, at, actor, runId, planId);
      out.claimed.Some? ==> ClaimKey(out.claimed.value.0.id, actor, runId) in g.keys
    ensures PlansOk(ClaimMutator(l, cfg, at, actor, runId, planId).ledger.acceptedPlans, g)
  {
    var plans := ClaimMutator(l, cfg, at, actor, runId, planId).ledger.acceptedPlans;
    forall j | 0 <= j < |plans| ensures PlanOk(plans[j], g) {
      assert PlanOk(l.acceptedPlans[j], h);
    }
  }

  lemma ClaimedAttemptOk(
    l: Ledger, h: History, cfg: Config, at: int, actor: Actor, runId: string, planId: Option<string>, record: int)
    requires PlansOk(l.acceptedPlans, h)
    requires ClaimMutator(l, cfg, at, actor, runId, planId).claimed.Some?
    ensures var c := ClaimMutator(l, cfg, at, actor, runId, planId).claimed.value;
      AttemptOk(Attempt(c.0, c.1, actor, runId, Claimed, record))
  {
    var plan := l.acceptedPlans[ClaimCandidate(l, cfg, at, planId)];
    assert PlanOk(plan, h);
    var q := FindIndex(l.strategyProposals, ProposalWithId(plan.proposalId));
    assert ProposalWithId(plan.proposalId)(l.strategyProposals[q]);
  }

  lemma AdditionKeepsAttempts(attempts: seq<Attempt>, a: Attempt, h: History, g: History)
    requires AttemptsOk(attempts, h) && AttemptOk(a)
    requires g.keys == h.keys + multiset{KeyOf(a)}
    ensures AttemptsOk(attempts + [a], g)
  {
    forall key ensures Count(attempts + [a], WithKey(key)) <= g.keys[key] {
      CountAppend(attempts, [a], WithKey(key));
      CountCons(a, [], WithKey(key));
    }
  }

  lemma ClaimBasics(cfg: Config, s: State, at: int, actor: Actor, runId: string, planId: Option<string>)
    ensures KeepsBasics(s, DoClaim(s, cfg, at, actor, runId, planId))
  {
    if Basics(s) && at <= s.now {
      var t := DoClaim(s, cfg, at, actor, runId, planId);
      var out := ClaimMutator(s.ledger, cfg, at, actor, runId, planId);
      ClaimPlans(s.ledger, s.hist, t.hist, cfg, at, actor, runId, planId);
      OkSurvives(out.ledger.acceptedPlans, t.hist, t.hist);
      if out.claimed.Some? {
        var record := PlanRecord(s, ClaimCandidate(s.ledger, cfg, at, planId));
        var a := Attempt(out.claimed.value.0, out.claimed.value.1, actor, runId, Claimed, record);
        ClaimedAttemptOk(s.ledger, s.hist, cfg, at, actor, runId, planId, record);
        AdditionKeepsAttempts(s.attempts, a, s.hist, t.hist);
      }
    }
  }

  lemma GateBasics(cfg: Config, s: State, k: nat)
    ensures KeepsBasics(s, DoGate(s, cfg, k))
  {
    if Basics(s) && k < |s.attempts| {
      var t := DoGate(s, cfg, k);
      RemovalKeepsAttempts(s.attempts, k, s.hist, t.hist);
      PhaseKeepsAttempts(s.attempts, k, Blocked, s.hist, t.hist);
      PhaseKeepsAttempts(s.attempts, k, Running, s.hist, t.hist);
      OkSurvives(s.ledger.acceptedPlans, s.hist, t.hist);
    }
  }

  lemma BlockBasics(s: State, k: nat)
    ensures KeepsBasics(s, DoBlock(s, k))
  {
    if Basics(s) && k < |s.attempts| {
      var a := s.attempts[k];
      RemovalKeepsAttempts(s.attempts, k, s.hist, s.hist);
      OkSurvives(BlockMutator(s.ledger, a.plan.id, a.actor, a.runId).acceptedPlans, s.hist, s.hist);
    }
  }

  /** The plan a finalisation writes to, if the fence lets it through. */
  function FencedPlan(s: State, k: nat): Option<nat>
    requires k < |s.attempts|
  {
    var a := s.attempts[k];
    var q := FindIndex(s.ledger.acceptedPlans, PlanWithId(a.plan.id));
    if q < |s.ledger.acceptedPlans| && HoldsClaim(s.ledger.acceptedPlans[q], a.actor, a.runId) then Some(q) else None
  }

  /** With ids in order, the plan written to belongs to the attempt's own proposal. */
  lemma FencedPlanIsOurs(s: State, k: nat)
    requires Basics(s) && k < |s.attempts| && FencedPlan(s, k).Some?
    ensures var q := FencedPlan(s, k).value;
      q < |s.ledger.acceptedPlans|
      && s.ledger.acceptedPlans[q].id == s.attempts[k].plan.id
      && s.ledger.acceptedPlans[q].proposalId == s.attempts[k].proposal.id
  {
    var q := FencedPlan(s, k).value;
    var p, a := s.ledger.acceptedPlans[q], s.attempts[k];
    assert PlanWithId(a.plan.id)(p);
    assert PlanOk(p, s.hist) && AttemptOk(a);
    assert PlanIdFor(p.proposalId)[|"plan-"|..] == p.proposalId;
    assert PlanIdFor(a.plan.proposalId)[|"plan-"|..] == a.plan.proposalId;
  }

  lemma FinaliseReceipts(cfg: Config, s: State, k: nat, failed: bool)
    requires k < |s.attempts| && s.attempts[k].phase.Running?
    ensures DoFinalise(s, cfg, k, failed).hist.receipts
         == s.hist.receipts + (if FencedPlan(s, k).Some? then multiset{s.attempts[k].proposal.id} else multiset{})
  {
    var a := s.attempts[k];
    var l := FinaliseMutator(s.ledger, a.plan, a.proposal, a.actor, a.runId, cfg, s.now, failed && !cfg.dryRun);
    if FencedPlan(s, k).Some? {
      var receipt := FinalReceipt(a.plan, a.proposal, a.actor, a.runId, cfg, s.now, failed && !cfg.dryRun);
      NewReceiptsArePrefix(s.ledger, l, [receipt]);
      assert ReceiptProposals([receipt]) == multiset{receipt.proposalId} + ReceiptProposals([]);
    }
  }

  lemma FinalisedPlansOk(cfg: Config, s: State, k: nat, failed: bool, g: History)
    requires Basics(s) && k < |s.attempts| && Grows(s.hist, g)
    requires FencedPlan(s, k).Some? ==> g.receipts[s.attempts[k].proposal.id] >= 1
    ensures var a := s.attempts[k];
      PlansOk(FinaliseMutator(s.ledger, a.plan, a.proposal, a.actor, a.runId, cfg, s.now, failed).acceptedPlans, g)
  {
    var a := s.attempts[k];
    var plans := FinaliseMutator(s.ledger, a.plan, a.proposal, a.actor, a.runId, cfg, s.now, failed).acceptedPlans;
    if FencedPlan(s, k).Some? { FencedPlanIsOurs(s, k); }
    forall j | 0 <= j < |plans| ensures PlanOk(plans[j], g) {
      assert PlanOk(s.ledger.acceptedPlans[j], s.hist);
    }
  }

  lemma FinaliseBasics(cfg: Config, s: State, k: nat, failed: bool)
    ensures KeepsBasics(s, DoFinalise(s, cfg, k, failed))
  {
    if Basics(s) && k < |s.attempts| && s.attempts[k].phase.Running? {
      var t := DoFinalise(s, cfg, k, failed);
      var a := s.attempts[k];
      FinaliseReceipts(cfg, s, k, failed);
      RemovalKeepsAttempts(s.attempts, k, s.hist, t.hist);
      FinalisedPlansOk(cfg, s, k, failed && !cfg.dryRun, t.hist);
      OkSurvives(FinaliseMutator(s.ledger, a.plan, a.proposal, a.actor, a.runId, cfg, s.now,
                                 failed && !cfg.dryRun).acceptedPlans, t.hist, t.hist);
    }
  }

  lemma StepBasics(cfg: Config, s: State, step: Step)
    ensures KeepsBasics(s, Apply(cfg, s, step))
  {
    match step
    case Coordinate => CoordinateBasics(cfg, s);
    case Claim(at, actor, runId, planId) => ClaimBasics(cfg, s, at, actor, runId, planId);
    case Gate(k) => GateBasics(cfg, s, k);
    case Block(k) => BlockBasics(s, k);
    case Finalise(k, failed) => FinaliseBasics(cfg, s, k, failed);
    case Crash(k) => if Basics(s) && k < |s.attempts| { RemovalKeepsAttempts(s.attempts, k, s.hist, s.hist); }
    case _ => if Basics(s) { OkSurvives(s.ledger.acceptedPlans, s.hist, Apply(cfg, s, step).hist); }
  }

  lemma {:induction false} BasicsHold(cfg: Config, steps: seq<Step>)
    ensures Basics(Run(cfg, steps))
    decreases |steps|
  {
    if steps == [] {
      assert forall key :: Count<Attempt>([], WithKey(key)) == 0;
    } else {
      BasicsHold(cfg, steps[..|steps| - 1]);
      StepBasics(cfg, Run(cfg, steps[..|steps| - 1]), steps[|steps| - 1]);
    }
  }
}
