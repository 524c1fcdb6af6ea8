/**
 * Counting laws over whole runs, for every proposal id: what is accepted was inserted, what is claimed
 * was accepted, what reaches the protocol calls was claimed, what opened a loop left a receipt. Nothing
 * is assumed about ids being distinct or about timing.
 */
module Conservation {
  import opened Prelude
  import opened StrategyLedger
  import opened Subagents
  import opened LedgerRuns

  function OpenFor(id: string): Proposal -> bool { (p: Proposal) => p.id == id && p.status.Open? }
  function PlanFor(id: string): Plan -> bool { (p: Plan) => p.proposalId == id }
  function AwaitingFor(id: string): Plan -> bool { (p: Plan) => p.proposalId == id && p.status.Awaiting? }
  function UngatedFor(id: string): Attempt -> bool {
    (a: Attempt) => a.plan.proposalId == id && a.phase.Claimed?
  }
  function LoopFor(id: string): LoopPosition -> bool { (l: LoopPosition) => l.proposalId == id }

  // === Receipts put in front of a list ===

  lemma {:induction false} ReceiptProposalsAppend(a: seq<Receipt>, b: seq<Receipt>)
    ensures ReceiptProposals(a + b) == ReceiptProposals(a) + ReceiptProposals(b)
  {
    if a == [] {
      assert a + b == b;
    } else {
      assert (a + b)[1..] == a[1..] + b;
      ReceiptProposalsAppend(a[1..], b);
    }
  }

  lemma NewReceiptsArePrefix(before: Ledger, after: Ledger, added: seq<Receipt>)
    requires after.executionReceipts == added + before.executionReceipts
    ensures NewReceipts(before, after) == added
  {
  }

  lemma PrefixesCompose<T>(a: seq<T>, b: seq<T>, c: seq<T>, first: seq<T>, rest: seq<T>)
    requires b == first + a && c == rest + b
    ensures c == (rest + first) + a
  {
  }

  // === What the mutators do to the counts ===

  /** Reconciliation: no plan starts to await; each new loop comes with a new receipt for its proposal. */
  predicate Reconciled(l: Ledger, r: Ledger, added: seq<Receipt>, id: string) {
    && r.executionReceipts == added + l.executionReceipts
    && r.strategyProposals == l.strategyProposals
    && |r.acceptedPlans| == |l.acceptedPlans|
    && Count(r.acceptedPlans, AwaitingFor(id)) <= Count(l.acceptedPlans, AwaitingFor(id))
    && Count(r.acceptedPlans, PlanFor(id)) == Count(l.acceptedPlans, PlanFor(id))
    && Count(r.loopPositions, LoopFor(id)) <= Count(l.loopPositions, LoopFor(id)) + ReceiptProposals(added)[id]
  }

  lemma ReconciledCompose(a: Ledger, b: Ledger, c: Ledger, first: seq<Receipt>, rest: seq<Receipt>, id: string)
    requires Reconciled(a, b, first, id) && Reconciled(b, c, rest, id)
    ensures Reconciled(a, c, rest + first, id)
  {
    ReceiptProposalsAppend(rest, first);
    PrefixesCompose(a.executionReceipts, b.executionReceipts, c.executionReceipts, first, rest);
  }

  lemma {:induction false} ReconcileCounts(l: Ledger, now: int, k: nat, id: string) returns (added: seq<Receipt>)
    requires k <= |l.acceptedPlans|
    ensures Reconciled(l, ReconcileFrom(l, now, k), added, id)
    decreases |l.acceptedPlans| - k
  {
    if k == |l.acceptedPlans| {
      added := [];
      assert added + l.executionReceipts == l.executionReceipts;
    } else {
      var m := ReconcileOne(l, now, k);
      var first := ReconcileOneCounts(l, now, k, id);
      var rest := ReconcileCounts(m, now, k + 1, id);
      added := rest + first;
      ReconciledCompose(l, m, ReconcileFrom(m, now, k + 1), first, rest, id);
    }
  }

  lemma ReconcileOneCounts(l: Ledger, now: int, k: nat, id: string) returns (added: seq<Receipt>)
    requires k < |l.acceptedPlans|
    ensures Reconciled(l, ReconcileOne(l, now, k), added, id)
  {
    var r := ReconcileOne(l, now, k);
    assert r.acceptedPlans == l.acceptedPlans[k := r.acceptedPlans[k]];
    CountUpdate(l.acceptedPlans, k, r.acceptedPlans[k], AwaitingFor(id));
    CountUpdate(l.acceptedPlans, k, r.acceptedPlans[k], PlanFor(id));
    if |r.executionReceipts| > |l.executionReceipts| {
      added := [r.executionReceipts[0]];
      assert added[1..] == [];
      if |r.loopPositions| > |l.loopPositions| {
        CountCons(r.loopPositions[0], l.loopPositions, LoopFor(id));
      }
    } else {
      added := [];
    }
  }

  lemma ExpireCounts(ps: seq<Proposal>, now: int, id: string)
    ensures Count(ExpireProposals(ps, now), OpenFor(id)) <= Count(ps, OpenFor(id))
  {
    CountPointwise(ExpireProposals(ps, now), ps, OpenFor(id), OpenFor(id));
  }

  /** Accepting moves one proposal from open to accepted and adds one plan for it. */
  lemma AcceptCounts(l: Ledger, cfg: Config, now: int, id: string)
    ensures var out := AcceptMutator(l, cfg, now);
      out.Some? ==>
        var r, d := out.value, NewPlans(l, out.value)[id];
        && Count(r.strategyProposals, OpenFor(id)) + d <= Count(l.strategyProposals, OpenFor(id))
        && Count(r.acceptedPlans, PlanFor(id)) == Count(l.acceptedPlans, PlanFor(id)) + d
        && Count(r.acceptedPlans, AwaitingFor(id)) <= Count(l.acceptedPlans, AwaitingFor(id)) + d
        && r.executionReceipts == l.executionReceipts && r.loopPositions == l.loopPositions
  {
    var k := FindIndex(l.strategyProposals, (p: Proposal) => p.status.Open?);
    if !HasActivePlan(l.acceptedPlans) && k < |l.strategyProposals| {
      var p := l.strategyProposals[k];
      assert ((p: Proposal) => p.status.Open?)(p);
      CountUpdate(l.strategyProposals, k, p.(status := Rejected), OpenFor(id));
      CountUpdate(l.strategyProposals, k, p.(status := Accepted), OpenFor(id));
      CountCons(NewPlan(p.id, now), l.acceptedPlans, PlanFor(id));
      CountCons(NewPlan(p.id, now), l.acceptedPlans, AwaitingFor(id));
    }
  }

  lemma CoordinatorCounts(l: Ledger, cfg: Config, now: int, id: string)
    ensures var out := CoordinatorMutator(l, cfg, now);
      out.Some? ==>
        var r, d := out.value, NewPlans(l, out.value)[id];
        && Count(r.strategyProposals, OpenFor(id)) + d <= Count(l.strategyProposals, OpenFor(id))
        && Count(r.acceptedPlans, PlanFor(id)) == Count(l.acceptedPlans, PlanFor(id)) + d
        && Count(r.acceptedPlans, AwaitingFor(id)) <= Count(l.acceptedPlans, AwaitingFor(id)) + d
        && Count(r.loopPositions, LoopFor(id))
           <= Count(l.loopPositions, LoopFor(id)) + ReceiptProposals(NewReceipts(l, r))[id]
  {
    var expired := l.(strategyProposals := ExpireProposals(l.strategyProposals, now));
    ExpireCounts(l.strategyProposals, now, id);
    var added := [];
    if !cfg.dryRun { added := ReconcileCounts(expired, now, 0, id); }
    AcceptCounts(Reconcile(expired, cfg, now), cfg, now, id);
    var out := CoordinatorMutator(l, cfg, now);
    if out.Some? {
      NewReceiptsArePrefix(l, out.value, added);
    }
  }

  lemma ClaimCounts(l: Ledger, cfg: Config, now: int, actor: Actor, runId: string, planId: Option<string>, id: string)
    ensures var out := ClaimMutator(l, cfg, now, actor, runId, planId);
      && Count(out.ledger.acceptedPlans, PlanFor(id)) == Count(l.acceptedPlans, PlanFor(id))
      && Count(out.ledger.acceptedPlans, AwaitingFor(id)) <= Count(l.acceptedPlans, AwaitingFor(id))
      && (!cfg.dryRun && out.claimed.Some? && out.claimed.value.0.proposalId == id ==>
            Count(out.ledger.acceptedPlans, AwaitingFor(id)) + 1 <= Count(l.acceptedPlans, AwaitingFor(id)))
  {
    var k := ClaimCandidate(l, cfg, now, planId);
    if k < |l.acceptedPlans| && Claimable(l.acceptedPlans[k], cfg, now) {
      var plan := l.acceptedPlans[k];
      CountUpdate(l.acceptedPlans, k, plan.(status := Failed), PlanFor(id));
      CountUpdate(l.acceptedPlans, k, plan.(status := Failed), AwaitingFor(id));
      CountUpdate(l.acceptedPlans, k, ClaimedPlan(plan, cfg, now, actor, runId), PlanFor(id));
      CountUpdate(l.acceptedPlans, k, ClaimedPlan(plan, cfg, now, actor, runId), AwaitingFor(id));
    }
  }

  lemma FinaliseCounts(
    l: Ledger, plan: Plan, p: Proposal, actor: Actor, runId: string, cfg: Config, now: int, failed: bool, id: string)
    ensures var r := FinaliseMutator(l, plan, p, actor, runId, cfg, now, failed);
      && Count(r.acceptedPlans, PlanFor(id)) == Count(l.acceptedPlans, PlanFor(id))
      && Count(r.acceptedPlans, AwaitingFor(id)) <= Count(l.acceptedPlans, AwaitingFor(id))
      && Count(r.loopPositions, LoopFor(id))
         <= Count(l.loopPositions, LoopFor(id)) + ReceiptProposals(NewReceipts(l, r))[id]
  {
    var k := FindIndex(l.acceptedPlans, PlanWithId(plan.id));
    if k < |l.acceptedPlans| && HoldsClaim(l.acceptedPlans[k], actor, runId) {
      var r := FinaliseMutator(l, plan, p, actor, runId, cfg, now, failed);
      CountUpdate(l.acceptedPlans, k, r.acceptedPlans[k], PlanFor(id));
      CountUpdate(l.acceptedPlans, k, r.acceptedPlans[k], AwaitingFor(id));
      var added := [FinalReceipt(plan, p, actor, runId, cfg, now, failed)];
      NewReceiptsArePrefix(l, r, added);
      assert added[1..] == [];
      if !failed { CountCons(r.loopPositions[0], l.loopPositions, LoopFor(id)); }
    }
  }

  lemma GuardCounts(l: Ledger, cfg: Config, now: int, id: string)
    ensures var r := GuardMutator(l, cfg, now);
      Count(r.loopPositions, LoopFor(id)) <= Count(l.loopPositions, LoopFor(id))
  {
    CountPointwise(ReactivateLoops(l.loopPositions, l.riskLocks), l.loopPositions, LoopFor(id), LoopFor(id));
    CountPointwise(UnwindLoops(l.loopPositions), l.loopPositions, LoopFor(id), LoopFor(id));
  }

  // === The laws ===

  /** The counting laws for one proposal id. The third one is for live runs. */
  predicate Laws(cfg: Config, s: State, id: string) {
    && s.hist.accepted[id] + Count(s.ledger.strategyProposals, OpenFor(id)) <= s.hist.inserted[id]
    && Count(s.ledger.acceptedPlans, PlanFor(id)) <= s.hist.accepted[id]
    && (!cfg.dryRun ==>
          s.hist.claimed[id] + Count(s.ledger.acceptedPlans, AwaitingFor(id)) <= s.hist.accepted[id])
    && s.hist.entered[id] + Count(s.attempts, UngatedFor(id)) <= s.hist.claimed[id]
    && Count(s.ledger.loopPositions, LoopFor(id)) <= s.hist.receipts[id]
  }

  lemma PruneCounts(l: Ledger, id: string)
    ensures Count(Prune(l).strategyProposals, OpenFor(id)) <= Count(l.strategyProposals, OpenFor(id))
    ensures Count(Prune(l).acceptedPlans, PlanFor(id)) <= Count(l.acceptedPlans, PlanFor(id))
    ensures Count(Prune(l).acceptedPlans, AwaitingFor(id)) <= Count(l.acceptedPlans, AwaitingFor(id))
  {
    CountTake(l.strategyProposals, MAX_PROPOSALS, OpenFor(id));
    CountTake(l.acceptedPlans, MAX_PLANS, PlanFor(id));
    CountTake(l.acceptedPlans, MAX_PLANS, AwaitingFor(id));
  }

  predicate KeepsLaws(cfg: Config, s: State, t: State, id: string) { Laws(cfg, s, id) ==> Laws(cfg, t, id) }

  lemma ProposeLaws(cfg: Config, s: State, p: Proposal, id: string)
    ensures KeepsLaws(cfg, s, DoPropose(s, cfg, p), id)
  {
    var l := ProposeMutator(s.ledger, p, cfg, s.now);
    CountCons(InsertedProposal(p, s.ledger, cfg, s.now), s.ledger.strategyProposals, OpenFor(id));
    PruneCounts(l, id);
  }

  lemma CoordinateLaws(cfg: Config, s: State, id: string)
    ensures KeepsLaws(cfg, s, DoCoordinate(s, cfg), id)
  {
    CoordinatorCounts(s.ledger, cfg, s.now, id);
    var out := CoordinatorMutator(s.ledger, cfg, s.now);
    if out.Some? { PruneCounts(out.value, id); }
  }

  lemma ClaimLaws(cfg: Config, s: State, at: int, actor: Actor, runId: string, planId: Option<string>, id: string)
    ensures KeepsLaws(cfg, s, DoClaim(s, cfg, at, actor, runId, planId), id)
  {
    ClaimCounts(s.ledger, cfg, at, actor, runId, planId, id);
    var out := ClaimMutator(s.ledger, cfg, at, actor, runId, planId);
    PruneCounts(out.ledger, id);
    if out.claimed.Some? {
      var a := Attempt(out.claimed.value.0, out.claimed.value.1, actor, runId, Claimed,
                       PlanRecord(s, ClaimCandidate(s.ledger, cfg, at, planId)));
      CountAppend(s.attempts, [a], UngatedFor(id));
      assert [a][1..] == [];
    }
  }

  lemma GateLaws(cfg: Config, s: State, k: nat, id: string)
    ensures KeepsLaws(cfg, s, DoGate(s, cfg, k), id)
  {
    if k < |s.attempts| {
      var a := s.attempts[k];
      CountRemove(s.attempts, k, UngatedFor(id));
      CountUpdate(s.attempts, k, a.(phase := Blocked), UngatedFor(id));
      CountUpdate(s.attempts, k, a.(phase := Running), UngatedFor(id));
    }
  }

  lemma BlockLaws(cfg: Config, s: State, k: nat, id: string)
    ensures KeepsLaws(cfg, s, DoBlock(s, k), id)
  {
    if k < |s.attempts| {
      var a := s.attempts[k];
      CountRemove(s.attempts, k, UngatedFor(id));
      var l := BlockMutator(s.ledger, a.plan.id, a.actor, a.runId);
      var q := FindIndex(s.ledger.acceptedPlans, PlanWithId(a.plan.id));
      if q < |s.ledger.acceptedPlans| {
        CountUpdate(s.ledger.acceptedPlans, q, s.ledger.acceptedPlans[q].(status := Failed), PlanFor(id));
        CountUpdate(s.ledger.acceptedPlans, q, s.ledger.acceptedPlans[q].(status := Failed), AwaitingFor(id));
      }
      PruneCounts(l, id);
    }
  }

  lemma FinaliseLaws(cfg: Config, s: State, k: nat, failed: bool, id: string)
    ensures KeepsLaws(cfg, s, DoFinalise(s, cfg, k, failed), id)
  {
    if k < |s.attempts| {
      var a := s.attempts[k];
      CountRemove(s.attempts, k, UngatedFor(id));
      FinaliseCounts(s.ledger, a.plan, a.proposal, a.actor, a.runId, cfg, s.now, failed && !cfg.dryRun, id);
      PruneCounts(FinaliseMutator(s.ledger, a.plan, a.proposal, a.actor, a.runId, cfg, s.now,
                                  failed && !cfg.dryRun), id);
    }
  }

  lemma CrashLaws(cfg: Config, s: State, k: nat, id: string)
    ensures KeepsLaws(cfg, s, DoCrash(s, k), id)
  {
    if k < |s.attempts| { CountRemove(s.attempts, k, UngatedFor(id)); }
  }

  lemma GuardLaws(cfg: Config, s: State, id: string)
    ensures KeepsLaws(cfg, s, DoGuard(s, cfg), id)
  {
    GuardCounts(s.ledger, cfg, s.now, id);
    PruneCounts(GuardMutator(s.ledger, cfg, s.now), id);
  }

  lemma CaptureLaws(cfg: Config, s: State, t: State, id: string)
    requires t == s.(ledger := t.ledger) && t.ledger.loopPositions == s.ledger.loopPositions
    requires t.ledger.strategyProposals == Prune(s.ledger).strategyProposals
    requires t.ledger.acceptedPlans == Prune(s.ledger).acceptedPlans
    ensures KeepsLaws(cfg, s, t, id)
  {
    PruneCounts(s.ledger, id);
  }

  lemma StepLaws(cfg: Config, s: State, step: Step, id: string)
    ensures KeepsLaws(cfg, s, Apply(cfg, s, step), id)
  {
    match step
    case Propose(p) => ProposeLaws(cfg, s, p, id);
    case Coordinate => CoordinateLaws(cfg, s, id);
    case Claim(at, actor, runId, planId) => ClaimLaws(cfg, s, at, actor, runId, planId, id);
    case Gate(k) => GateLaws(cfg, s, k, id);
    case Block(k) => BlockLaws(cfg, s, k, id);
    case Finalise(k, failed) => FinaliseLaws(cfg, s, k, failed, id);
    case Crash(k) => CrashLaws(cfg, s, k, id);
    case Guard => GuardLaws(cfg, s, id);
    case Tick(_) =>
    case CaptureMarket(m) => CaptureLaws(cfg, s, DoCaptureMarket(s, m), id);
    case CapturePositions(p) => CaptureLaws(cfg, s, DoCapturePositions(s, p), id);
  }

  lemma {:induction false} LawsHold(cfg: Config, steps: seq<Step>, id: string)
    ensures Laws(cfg, Run(cfg, steps), id)
    decreases |steps|
  {
    if steps != [] {
      LawsHold(cfg, steps[..|steps| - 1], id);
      StepLaws(cfg, Run(cfg, steps[..|steps| - 1]), steps[|steps| - 1], id);
    }
  }
}
