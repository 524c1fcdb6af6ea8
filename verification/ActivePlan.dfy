/** At most one plan is in flight, it is always the head of the list, and pruning never loses it. */
module ActivePlan {
  import opened Prelude
  import opened StrategyLedger
  import opened Subagents
  import opened LedgerRuns

  /** Only the newest plan may be awaiting execution or executing. */
  predicate OnlyHeadActive(plans: seq<Plan>) {
    forall k :: 1 <= k < |plans| ==> !IsActivePlan(plans[k])
  }

  /**
   * `after` is `before` with `added` plans put in front and possibly a pruned tail, where no plan that
   * had left the two active statuses is active again.
   */
  predicate NoRevival(before: seq<Plan>, after: seq<Plan>, added: nat) {
    && |after| <= |before| + added
    && (forall j :: added <= j < |after| ==> FollowsAt(before, after, added, j))
  }

  predicate FollowsAt(before: seq<Plan>, after: seq<Plan>, added: nat, j: nat)
    requires added <= j < |after| <= |before| + added
  {
    Follows(before[j - added], after[j])
  }

  /** `b` is a later state of the plan record `a`. */
  predicate Follows(a: Plan, b: Plan) {
    && b.id == a.id && b.proposalId == a.proposalId && b.acceptedAt == a.acceptedAt
    && (!IsActivePlan(a) ==> !IsActivePlan(b))
  }

  lemma {:induction false} ReconcileKeepsPlans(l: Ledger, now: int, k: nat)
    requires k <= |l.acceptedPlans|
    ensures var r := ReconcileFrom(l, now, k);
            |r.acceptedPlans| == |l.acceptedPlans|
            && NoRevival(l.acceptedPlans, r.acceptedPlans, 0)
            && r.strategyProposals == l.strategyProposals && r.riskLocks == l.riskLocks
            && r.marketSnapshots == l.marketSnapshots && r.positionSnapshots == l.positionSnapshots
    decreases |l.acceptedPlans| - k
  {
    if k < |l.acceptedPlans| {
      var mid := ReconcileOne(l, now, k).acceptedPlans;
      ReconcileKeepsPlans(ReconcileOne(l, now, k), now, k + 1);
      assert NoRevival(l.acceptedPlans, mid, 0);
      Compose(l.acceptedPlans, mid, ReconcileFrom(l, now, k).acceptedPlans, 0, 0);
    }
  }

  /** How many plans a step adds: one when a coordinator tick accepts a proposal. */
  function FreshPlans(cfg: Config, s: State, step: Step): nat {
    if step.Coordinate? then
      match CoordinatorMutator(s.ledger, cfg, s.now)
      case None => 0
      case Some(l) => if |l.acceptedPlans| > |s.ledger.acceptedPlans| then 1 else 0
    else 0
  }

  /** Accepting keeps the list or, when nothing was active, puts one active plan in front. */
  lemma AcceptKeepsPlans(l: Ledger, cfg: Config, now: int)
    requires OnlyHeadActive(l.acceptedPlans)
    ensures var out := AcceptMutator(l, cfg, now);
      out.Some? ==>
        var after := out.value.acceptedPlans;
        && OnlyHeadActive(after) && |l.acceptedPlans| <= |after| <= |l.acceptedPlans| + 1
        && NoRevival(l.acceptedPlans, after, |after| - |l.acceptedPlans|)
        && out.value.riskLocks == l.riskLocks && out.value.positionSnapshots == l.positionSnapshots
  {
  }

  lemma CoordinatorKeepsPlans(l: Ledger, cfg: Config, now: int)
    requires OnlyHeadActive(l.acceptedPlans)
    ensures var out := CoordinatorMutator(l, cfg, now);
            out.Some? ==>
              && OnlyHeadActive(out.value.acceptedPlans)
              && |l.acceptedPlans| <= |out.value.acceptedPlans| <= |l.acceptedPlans| + 1
              && NoRevival(l.acceptedPlans, out.value.acceptedPlans, |out.value.acceptedPlans| - |l.acceptedPlans|)
  {
    var expired := l.(strategyProposals := ExpireProposals(l.strategyProposals, now));
    ReconcileKeepsPlans(expired, now, 0);
    AcceptAfterReconcile(l.acceptedPlans, Reconcile(expired, cfg, now), cfg, now);
  }

  lemma AcceptAfterReconcile(plans: seq<Plan>, mid: Ledger, cfg: Config, now: int)
    requires OnlyHeadActive(plans) && |mid.acceptedPlans| == |plans| && NoRevival(plans, mid.acceptedPlans, 0)
    ensures var out := AcceptMutator(mid, cfg, now);
            out.Some? ==>
              && OnlyHeadActive(out.value.acceptedPlans)
              && |plans| <= |out.value.acceptedPlans| <= |plans| + 1
              && NoRevival(plans, out.value.acceptedPlans, |out.value.acceptedPlans| - |plans|)
  {
    forall k | 1 <= k < |plans| ensures !IsActivePlan(mid.acceptedPlans[k]) {
      assert FollowsAt(plans, mid.acceptedPlans, 0, k);
    }
    AcceptKeepsPlans(mid, cfg, now);
    var out := AcceptMutator(mid, cfg, now);
    if out.Some? {
      Compose(plans, mid.acceptedPlans, out.value.acceptedPlans, 0, |out.value.acceptedPlans| - |plans|);
    }
  }

  /** Rewriting one plan that follows its old self keeps both properties. */
  lemma RewriteKeepsPlans(plans: seq<Plan>, k: nat, p: Plan)
    requires k < |plans| && Follows(plans[k], p)
    ensures NoRevival(plans, plans[k := p], 0)
    ensures OnlyHeadActive(plans) ==> OnlyHeadActive(plans[k := p])
  {
  }

  lemma PruneKeepsPlans(before: seq<Plan>, after: seq<Plan>, added: nat)
    requires NoRevival(before, after, added) && OnlyHeadActive(after)
    ensures NoRevival(before, Take(after, MAX_PLANS), added) && OnlyHeadActive(Take(after, MAX_PLANS))
  {
    var kept := Take(after, MAX_PLANS);
    forall j | added <= j < |kept| ensures FollowsAt(before, kept, added, j) {
      assert FollowsAt(before, after, added, j);
    }
  }

  lemma ClaimKeepsPlans(l: Ledger, cfg: Config, now: int, actor: Actor, runId: string, planId: Option<string>)
    requires OnlyHeadActive(l.acceptedPlans)
    ensures var after := ClaimMutator(l, cfg, now, actor, runId, planId).ledger.acceptedPlans;
            OnlyHeadActive(after) && NoRevival(l.acceptedPlans, after, 0)
  {
    var k := ClaimCandidate(l, cfg, now, planId);
    if k < |l.acceptedPlans| && Claimable(l.acceptedPlans[k], cfg, now) {
      var plan := l.acceptedPlans[k];
      RewriteKeepsPlans(l.acceptedPlans, k, plan.(status := Failed));
      RewriteKeepsPlans(l.acceptedPlans, k, ClaimedPlan(plan, cfg, now, actor, runId));
    }
  }

  /** What one step owes to the plan list. */
  predicate KeepsPlans(before: seq<Plan>, after: seq<Plan>, added: nat) {
    OnlyHeadActive(before) ==> OnlyHeadActive(after) && NoRevival(before, after, added)
  }

  lemma CoordinateStep(cfg: Config, s: State)
    ensures KeepsPlans(s.ledger.acceptedPlans, DoCoordinate(s, cfg).ledger.acceptedPlans,
                       FreshPlans(cfg, s, Coordinate))
  {
    var out := CoordinatorMutator(s.ledger, cfg, s.now);
    if OnlyHeadActive(s.ledger.acceptedPlans) && out.Some? {
      CoordinatorKeepsPlans(s.ledger, cfg, s.now);
      PruneKeepsPlans(s.ledger.acceptedPlans, out.value.acceptedPlans, FreshPlans(cfg, s, Coordinate));
    }
  }

  lemma ClaimStep(cfg: Config, s: State, at: int, actor: Actor, runId: string, planId: Option<string>)
    ensures KeepsPlans(s.ledger.acceptedPlans, DoClaim(s, cfg, at, actor, runId, planId).ledger.acceptedPlans, 0)
  {
    if OnlyHeadActive(s.ledger.acceptedPlans) {
      ClaimKeepsPlans(s.ledger, cfg, at, actor, runId, planId);
      PruneKeepsPlans(s.ledger.acceptedPlans,
                      ClaimMutator(s.ledger, cfg, at, actor, runId, planId).ledger.acceptedPlans, 0);
    }
  }

  lemma BlockStep(s: State, k: nat)
    ensures KeepsPlans(s.ledger.acceptedPlans, DoBlock(s, k).ledger.acceptedPlans, 0)
  {
    if OnlyHeadActive(s.ledger.acceptedPlans) && k < |s.attempts| {
      var a := s.attempts[k];
      PruneKeepsPlans(s.ledger.acceptedPlans, BlockMutator(s.ledger, a.plan.id, a.actor, a.runId).acceptedPlans, 0);
    }
  }

  lemma FinaliseStep(cfg: Config, s: State, k: nat, failed: bool)
    ensures KeepsPlans(s.ledger.acceptedPlans, DoFinalise(s, cfg, k, failed).ledger.acceptedPlans, 0)
  {
    if OnlyHeadActive(s.ledger.acceptedPlans) && k < |s.attempts| {
      var a := s.attempts[k];
      PruneKeepsPlans(s.ledger.acceptedPlans,
                      FinaliseMutator(s.ledger, a.plan, a.proposal, a.actor, a.runId, cfg, s.now,
                                      failed && !cfg.dryRun).acceptedPlans, 0);
    }
  }

  lemma StepKeepsPlans(cfg: Config, s: State, step: Step)
    ensures KeepsPlans(s.ledger.acceptedPlans, Apply(cfg, s, step).ledger.acceptedPlans, FreshPlans(cfg, s, step))
  {
    match step
    case Coordinate => CoordinateStep(cfg, s);
    case Claim(at, actor, runId, planId) => ClaimStep(cfg, s, at, actor, runId, planId);
    case Block(k) => BlockStep(s, k);
    case Finalise(k, failed) => FinaliseStep(cfg, s, k, failed);
    case _ =>
      if OnlyHeadActive(s.ledger.acceptedPlans) {
        PruneKeepsPlans(s.ledger.acceptedPlans, s.ledger.acceptedPlans, 0);
      }
  }

  lemma RunKeepsPlans(cfg: Config, steps: seq<Step>)
    requires steps != []
    ensures var front := steps[..|steps| - 1];
            KeepsPlans(Run(cfg, front).ledger.acceptedPlans, Run(cfg, steps).ledger.acceptedPlans,
                       FreshPlans(cfg, Run(cfg, front), steps[|steps| - 1]))
  {
    StepKeepsPlans(cfg, Run(cfg, steps[..|steps| - 1]), steps[|steps| - 1]);
  }

  /**
   * In every reachable ledger at most one plan is awaiting execution or executing, and if there is one
   * it is the first of the list, so pruning to the newest hundred cannot drop it.
   */
  lemma {:induction false} ActivePlanIsHead(cfg: Config, steps: seq<Step>)
    ensures var plans := Run(cfg, steps).ledger.acceptedPlans;
            && (forall k :: 0 <= k < |plans| && IsActivePlan(plans[k]) ==> k == 0)
            && (HasActivePlan(plans) <==> plans != [] && IsActivePlan(plans[0]))
            && (HasActivePlan(plans) <==> HasActivePlan(Take(plans, MAX_PLANS)))
    decreases |steps|
  {
    HeadInvariant(cfg, steps);
  }

  lemma {:induction false} HeadInvariant(cfg: Config, steps: seq<Step>)
    ensures OnlyHeadActive(Run(cfg, steps).ledger.acceptedPlans)
    decreases |steps|
  {
    if steps != [] {
      HeadInvariant(cfg, steps[..|steps| - 1]);
      RunKeepsPlans(cfg, steps);
    }
  }

  /** How many plans the steps from `from` up to `k` add. */
  function FreshSince(cfg: Config, steps: seq<Step>, from: nat, k: nat): nat
    requires from <= k <= |steps|
    decreases k
  {
    if from == k then 0
    else FreshSince(cfg, steps, from, k - 1) + FreshPlans(cfg, Before(cfg, steps, k - 1), steps[k - 1])
  }

  /** The plans after `k` steps are `plans`, `added` newer ones in front, none of them revived. */
  predicate Tracked(cfg: Config, steps: seq<Step>, k: nat, plans: seq<Plan>, added: nat)
    requires k <= |steps|
  {
    NoRevival(plans, Before(cfg, steps, k).ledger.acceptedPlans, added)
  }

  lemma PlansNext(cfg: Config, steps: seq<Step>, k: nat)
    requires k < |steps|
    ensures var before := Before(cfg, steps, k).ledger.acceptedPlans;
      && OnlyHeadActive(before)
      && KeepsPlans(before, Before(cfg, steps, k + 1).ledger.acceptedPlans,
                    FreshPlans(cfg, Before(cfg, steps, k), steps[k]))
  {
    HeadInvariant(cfg, steps[..k]);
    RunSnoc(cfg, steps, k);
    StepKeepsPlans(cfg, Before(cfg, steps, k), steps[k]);
  }

  lemma TrackedStep(cfg: Config, steps: seq<Step>, k: nat, plans: seq<Plan>, added: nat)
    requires k < |steps| && Tracked(cfg, steps, k, plans, added)
    ensures Tracked(cfg, steps, k + 1, plans, added + FreshPlans(cfg, Before(cfg, steps, k), steps[k]))
  {
    PlansNext(cfg, steps, k);
    Extend(plans, Before(cfg, steps, k).ledger.acceptedPlans, Before(cfg, steps, k + 1).ledger.acceptedPlans, added,
           FreshPlans(cfg, Before(cfg, steps, k), steps[k]));
  }

  lemma {:induction false} TrackedThroughout(cfg: Config, steps: seq<Step>, from: nat, k: nat, plans: seq<Plan>)
    requires from <= k <= |steps| && plans == Before(cfg, steps, from).ledger.acceptedPlans
    ensures Tracked(cfg, steps, k, plans, FreshSince(cfg, steps, from, k))
    decreases k
  {
    if from < k {
      TrackedThroughout(cfg, steps, from, k - 1, plans);
      TrackedStep(cfg, steps, k - 1, plans, FreshSince(cfg, steps, from, k - 1));
    }
  }

  /**
   * Over any stretch of any run, the plan at index `i` before is, if it is still stored, the one at
   * `i + FreshSince` after; once it has left the two active statuses it never returns to them.
   */
  lemma InactiveForever(cfg: Config, steps: seq<Step>, from: nat, k: nat)
    requires from <= k <= |steps|
    ensures NoRevival(Before(cfg, steps, from).ledger.acceptedPlans, Before(cfg, steps, k).ledger.acceptedPlans,
                      FreshSince(cfg, steps, from, k))
  {
    TrackedThroughout(cfg, steps, from, k, Before(cfg, steps, from).ledger.acceptedPlans);
  }

  lemma Extend(a: seq<Plan>, b: seq<Plan>, c: seq<Plan>, m: nat, n: nat)
    requires NoRevival(a, b, m) && OnlyHeadActive(b) && KeepsPlans(b, c, n)
    ensures NoRevival(a, c, m + n)
  {
    Compose(a, b, c, m, n);
  }

  lemma Compose(a: seq<Plan>, b: seq<Plan>, c: seq<Plan>, m: nat, n: nat)
    requires NoRevival(a, b, m) && NoRevival(b, c, n)
    ensures NoRevival(a, c, m + n)
  {
    var d := m + n;
    forall j | d <= j < |c| ensures FollowsAt(a, c, d, j) {
      assert FollowsAt(b, c, n, j) && FollowsAt(a, b, m, j - n);
    }
  }
}
