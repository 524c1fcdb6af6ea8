/** Exactly which runs write at most one receipt, and open at most one loop, per plan. */
module SingleReceipt {
  import opened Prelude
  import opened StrategyLedger
  import opened Subagents
  import opened LedgerRuns
  import opened Conservation
  import opened Fencing

  function Unreceipted(id: string): Plan -> bool { (p: Plan) => p.proposalId == id && p.executionReceiptId.None? }

  /** Receipts written so far, plus plans that can still get their first, never exceed acceptances. */
  predicate ReceiptLaw(s: State, id: string) {
    s.hist.receipts[id] + Count(s.ledger.acceptedPlans, Unreceipted(id)) <= s.hist.accepted[id]
  }

  /** A finalisation that passes the fence on a plan which already carries a receipt. */
  predicate Stale(s: State, step: Step) {
    && step.Finalise? && step.attempt < |s.attempts| && s.attempts[step.attempt].phase.Running?
    && FencedPlan(s, step.attempt).Some?
    && s.ledger.acceptedPlans[FencedPlan(s, step.attempt).value].executionReceiptId.Some?
  }

  // === Without a stale finalisation the law is kept ===

  predicate ActiveUnreceipted(plans: seq<Plan>) {
    forall k :: 0 <= k < |plans| && IsActivePlan(plans[k]) ==> plans[k].executionReceiptId.None?
  }

  predicate Exchanged(l: Ledger, r: Ledger, added: seq<Receipt>, id: string) {
    && r.executionReceipts == added + l.executionReceipts
    && |r.acceptedPlans| == |l.acceptedPlans|
    && ReceiptProposals(added)[id] + Count(r.acceptedPlans, Unreceipted(id))
       <= Count(l.acceptedPlans, Unreceipted(id))
  }

  lemma ExchangedCompose(a: Ledger, b: Ledger, c: Ledger, first: seq<Receipt>, rest: seq<Receipt>, id: string)
    requires Exchanged(a, b, first, id) && Exchanged(b, c, rest, id)
    ensures Exchanged(a, c, rest + first, id)
  {
    ReceiptProposalsAppend(rest, first);
    PrefixesCompose(a.executionReceipts, b.executionReceipts, c.executionReceipts, first, rest);
  }

  lemma ReconcileOneExchanges(l: Ledger, now: int, k: nat, id: string) returns (added: seq<Receipt>)
    requires k < |l.acceptedPlans| && ActiveUnreceipted(l.acceptedPlans)
    ensures Exchanged(l, ReconcileOne(l, now, k), added, id)
    ensures ActiveUnreceipted(ReconcileOne(l, now, k).acceptedPlans)
  {
    var r := ReconcileOne(l, now, k);
    assert r.acceptedPlans == l.acceptedPlans[k := r.acceptedPlans[k]];
    CountUpdate(l.acceptedPlans, k, r.acceptedPlans[k], Unreceipted(id));
    if |r.executionReceipts| > |l.executionReceipts| {
      var plan := l.acceptedPlans[k];
      assert IsActivePlan(plan);
      var q := FindIndex(l.strategyProposals, ProposalWithId(plan.proposalId));
      assert ProposalWithId(plan.proposalId)(l.strategyProposals[q]);
      added := [r.executionReceipts[0]];
      assert ReceiptProposals(added) == multiset{added[0].proposalId} + ReceiptProposals([]);
    } else {
      added := [];
    }
  }

  lemma {:induction false} ReconcileExchanges(l: Ledger, now: int, k: nat, id: string) returns (added: seq<Receipt>)
    requires k <= |l.acceptedPlans| && ActiveUnreceipted(l.acceptedPlans)
    ensures Exchanged(l, ReconcileFrom(l, now, k), added, id)
    decreases |l.acceptedPlans| - k
  {
    if k == |l.acceptedPlans| {
      added := [];
      assert added + l.executionReceipts == l.executionReceipts;
    } else {
      var m := ReconcileOne(l, now, k);
      var first := ReconcileOneExchanges(l, now, k, id);
      var rest := ReconcileExchanges(m, now, k + 1, id);
      added := rest + first;
      ExchangedCompose(l, m, ReconcileFrom(m, now, k + 1), first, rest, id);
    }
  }

  lemma CoordinatorExchanges(l: Ledger, cfg: Config, now: int, id: string)
    requires ActiveUnreceipted(l.acceptedPlans)
    ensures var out := CoordinatorMutator(l, cfg, now);
      out.Some? ==>
        ReceiptProposals(NewReceipts(l, out.value))[id] + Count(out.value.acceptedPlans, Unreceipted(id))
        <= Count(l.acceptedPlans, Unreceipted(id)) + NewPlans(l, out.value)[id]
  {
    var expired := l.(strategyProposals := ExpireProposals(l.strategyProposals, now));
    var added := [];
    if !cfg.dryRun { added := ReconcileExchanges(expired, now, 0, id); }
    var mid := Reconcile(expired, cfg, now);
    AcceptShape(mid, cfg, now);
    var out := AcceptMutator(mid, cfg, now);
    if out.Some? {
      NewReceiptsArePrefix(l, out.value, added);
      if out.value.acceptedPlans != mid.acceptedPlans {
        var newId :| out.value.acceptedPlans == [NewPlan(newId, now)] + mid.acceptedPlans;
        CountCons(NewPlan(newId, now), mid.acceptedPlans, Unreceipted(id));
      }
    }
  }

  predicate KeepsReceiptLaw(s: State, t: State, id: string) { ReceiptLaw(s, id) ==> ReceiptLaw(t, id) }

  lemma CoordinateReceipts(cfg: Config, s: State, id: string)
    requires Basics(s)
    ensures KeepsReceiptLaw(s, DoCoordinate(s, cfg), id)
  {
    var out := CoordinatorMutator(s.ledger, cfg, s.now);
    if out.Some? {
      forall k | 0 <= k < |s.ledger.acceptedPlans| && IsActivePlan(s.ledger.acceptedPlans[k])
        ensures s.ledger.acceptedPlans[k].executionReceiptId.None?
      {
        assert PlanOk(s.ledger.acceptedPlans[k], s.hist);
      }
      CoordinatorExchanges(s.ledger, cfg, s.now, id);
      CountTake(out.value.acceptedPlans, MAX_PLANS, Unreceipted(id));
    }
  }

  /** Rewriting a plan without touching its receipt or proposal changes no count. */
  lemma RewriteCounts(plans: seq<Plan>, k: nat, p: Plan, id: string)
    requires k < |plans| && p.proposalId == plans[k].proposalId
    requires p.executionReceiptId == plans[k].executionReceiptId
    ensures Count(Take(plans[k := p], MAX_PLANS), Unreceipted(id)) <= Count(plans, Unreceipted(id))
  {
    CountUpdate(plans, k, p, Unreceipted(id));
    CountTake(plans[k := p], MAX_PLANS, Unreceipted(id));
  }

  lemma ClaimReceipts(
    cfg: Config, s: State, at: int, actor: Actor, runId: string, planId: Option<string>, id: string)
    ensures KeepsReceiptLaw(s, DoClaim(s, cfg, at, actor, runId, planId), id)
  {
    var plans := s.ledger.acceptedPlans;
    CountTake(plans, MAX_PLANS, Unreceipted(id));
    var k := ClaimCandidate(s.ledger, cfg, at, planId);
    if k < |plans| {
      RewriteCounts(plans, k, plans[k].(status := Failed), id);
      RewriteCounts(plans, k, ClaimedPlan(plans[k], cfg, at, actor, runId), id);
    }
  }

  lemma BlockReceipts(s: State, k: nat, id: string)
    ensures KeepsReceiptLaw(s, DoBlock(s, k), id)
  {
    var plans := s.ledger.acceptedPlans;
    CountTake(plans, MAX_PLANS, Unreceipted(id));
    if k < |s.attempts| && FencedPlan(s, k).Some? {
      var q := FencedPlan(s, k).value;
      RewriteCounts(plans, q, plans[q].(status := Failed), id);
    }
  }

  lemma FinaliseReceiptLaw(cfg: Config, s: State, k: nat, failed: bool, id: string)
    requires Basics(s) && !Stale(s, Finalise(k, failed))
    ensures KeepsReceiptLaw(s, DoFinalise(s, cfg, k, failed), id)
  {
    var plans := s.ledger.acceptedPlans;
    CountTake(plans, MAX_PLANS, Unreceipted(id));
    if k < |s.attempts| && s.attempts[k].phase.Running? {
      FinaliseReceipts(cfg, s, k, failed);
      if FencedPlan(s, k).Some? {
        FencedPlanIsOurs(s, k);
        var q, a := FencedPlan(s, k).value, s.attempts[k];
        var l := FinaliseMutator(s.ledger, a.plan, a.proposal, a.actor, a.runId, cfg, s.now, failed && !cfg.dryRun);
        CountUpdate(plans, q, l.acceptedPlans[q], Unreceipted(id));
        CountTake(l.acceptedPlans, MAX_PLANS, Unreceipted(id));
      }
    }
  }

  lemma StepReceiptLaw(cfg: Config, s: State, step: Step, id: string)
    requires Basics(s) && !Stale(s, step)
    ensures KeepsReceiptLaw(s, Apply(cfg, s, step), id)
  {
    match step
    case Coordinate => CoordinateReceipts(cfg, s, id);
    case Claim(at, actor, runId, planId) => ClaimReceipts(cfg, s, at, actor, runId, planId, id);
    case Block(k) => BlockReceipts(s, k, id);
    case Finalise(k, failed) => FinaliseReceiptLaw(cfg, s, k, failed, id);
    case _ => OtherReceipts(cfg, s, step, id);
  }

  lemma OtherReceipts(cfg: Config, s: State, step: Step, id: string)
    requires !step.Coordinate? && !step.Claim? && !step.Block? && !step.Finalise?
    ensures KeepsReceiptLaw(s, Apply(cfg, s, step), id)
  {
    CountTake(s.ledger.acceptedPlans, MAX_PLANS, Unreceipted(id));
    var t := Apply(cfg, s, step);
    assert t.hist.receipts == s.hist.receipts && t.hist.accepted == s.hist.accepted;
  }

  predicate NoStale(cfg: Config, steps: seq<Step>) {
    forall k :: 0 <= k < |steps| ==> !Stale(Before(cfg, steps, k), steps[k])
  }

  lemma NoStaleFront(cfg: Config, steps: seq<Step>)
    requires steps != [] && NoStale(cfg, steps)
    ensures NoStale(cfg, steps[..|steps| - 1])
    ensures !Stale(Run(cfg, steps[..|steps| - 1]), steps[|steps| - 1])
  {
    var front := steps[..|steps| - 1];
    forall k | 0 <= k < |front| ensures !Stale(Before(cfg, front, k), front[k]) {
      assert front[..k] == steps[..k];
      assert !Stale(Before(cfg, steps, k), steps[k]);
    }
    assert !Stale(Before(cfg, steps, |steps| - 1), steps[|steps| - 1]);
  }

  lemma {:induction false} ReceiptLawHolds(cfg: Config, steps: seq<Step>, id: string)
    requires NoStale(cfg, steps)
    ensures ReceiptLaw(Run(cfg, steps), id)
    decreases |steps|
  {
    if steps != [] {
      NoStaleFront(cfg, steps);
      ReceiptLawHolds(cfg, steps[..|steps| - 1], id);
      BasicsHold(cfg, steps[..|steps| - 1]);
      StepReceiptLaw(cfg, Run(cfg, steps[..|steps| - 1]), steps[|steps| - 1], id);
    }
  }

  // === A stale finalisation always breaks it ===

  lemma StepGrows(cfg: Config, s: State, step: Step)
    ensures Grows(s.hist, Apply(cfg, s, step).hist)
  {
  }

  lemma {:induction false} RunGrows(cfg: Config, steps: seq<Step>, k: nat)
    requires k <= |steps|
    ensures Grows(Before(cfg, steps, k).hist, Run(cfg, steps).hist)
    decreases |steps|
  {
    if k == |steps| {
      assert steps[..k] == steps;
    } else {
      var front := steps[..|steps| - 1];
      assert front[..k] == steps[..k];
      RunGrows(cfg, front, k);
      StepGrows(cfg, Run(cfg, front), steps[|steps| - 1]);
    }
  }

  /** No id is proposed twice in the run. */
  ghost predicate DistinctProposals(cfg: Config, steps: seq<Step>) {
    forall id :: Run(cfg, steps).hist.inserted[id] <= 1
  }

  /** Without any assumption on ids: receipts never outnumber proposals, and loops never outnumber receipts. */
  lemma ReceiptsBounded(cfg: Config, steps: seq<Step>, id: string)
    requires NoStale(cfg, steps)
    ensures var s := Run(cfg, steps);
      Count(s.ledger.loopPositions, LoopFor(id)) <= s.hist.receipts[id] <= s.hist.accepted[id] <= s.hist.inserted[id]
  {
    ReceiptLawHolds(cfg, steps, id);
    LawsHold(cfg, steps, id);
  }
}
