/**
 * When a stored plan is `executed` exactly if it has one receipt and one loop position, record by record,
 * so that ids may repeat.
 */
module ExecutedPlans {
  import opened Prelude
  import opened StrategyLedger
  import opened Subagents
  import opened LedgerRuns
  import opened ActivePlan
  import opened Conservation
  import opened Fencing
  import opened SingleReceipt
  import opened FencedRuns
  import Capacity
  import opened Records

  /** The plan record for which a step opens a loop position: the newest stored with the loop's plan id. */
  function LoopOpened(cfg: Config, s: State, step: Step): multiset<int> {
    var loops := Apply(cfg, s, step).ledger.loopPositions;
    if |loops| <= |s.ledger.loopPositions| then multiset{}
    else multiset{PlanRecord(s, FindIndex(s.ledger.acceptedPlans, PlanWithId(loops[0].planId)))}
  }

  /** One stored plan, with the receipts and the loop positions its record ever got. */
  predicate OneOfEach(p: Plan, receipts: nat, loops: nat) {
    receipts <= 1 && loops <= 1 && (p.status.Executed? <==> receipts == 1 && loops == 1)
  }

  predicate AllOneOfEach(plans: seq<Plan>, n: int, receipts: multiset<int>, loops: multiset<int>) {
    forall i :: 0 <= i < |plans| ==> OneOfEach(plans[i], receipts[n - 1 - i], loops[n - 1 - i])
  }

  /** After `k` steps of the run this is so of every stored plan. */
  predicate OneOfEachAt(cfg: Config, steps: seq<Step>, k: nat)
    requires k <= |steps|
  {
    var s := Before(cfg, steps, k);
    AllOneOfEach(s.ledger.acceptedPlans, |s.hist.accepted|,
                 Tally(cfg, steps[..k], Receipting), Tally(cfg, steps[..k], LoopOpened))
  }

  // === What breaks it ===

  /** A closed gate is reported on a plan that has been reconciled as executed in the meantime. */
  predicate StaleBlock(s: State, step: Step) {
    && step.Block? && step.attempt < |s.attempts| && s.attempts[step.attempt].phase.Blocked?
    && FencedPlan(s, step.attempt).Some?
    && s.ledger.acceptedPlans[FencedPlan(s, step.attempt).value].status.Executed?
  }

  /** Reconciliation records the plan in flight as executed while a loop with the same plan id is stored. */
  predicate Masked(cfg: Config, s: State, step: Step) {
    && step.Coordinate? && Receipting(cfg, s, step) != multiset{} && s.ledger.acceptedPlans != []
    && FindIndex(s.ledger.loopPositions, LoopOfPlan(s.ledger.acceptedPlans[0].id)) < |s.ledger.loopPositions|
  }

  predicate Breaks(cfg: Config, s: State, step: Step) {
    Stale(s, step) || StaleBlock(s, step) || Masked(cfg, s, step)
  }

  predicate BreaksAt(cfg: Config, steps: seq<Step>, k: nat) {
    k < |steps| && Breaks(cfg, Before(cfg, steps, k), steps[k])
  }

  // === The invariant ===

  predicate Outcome(p: Plan, receipts: nat, loops: nat) {
    && receipts == (if p.executionReceiptId.Some? then 1 else 0)
    && loops <= receipts
    && (p.status.Executed? <==> receipts == 1 && loops == 1)
  }

  /** The outcome of every stored plan; no record yet to come has anything. */
  ghost predicate Outcomes(plans: seq<Plan>, n: int, receipts: multiset<int>, loops: multiset<int>) {
    && |plans| <= n
    && (forall i :: 0 <= i < |plans| ==> Outcome(plans[i], receipts[n - 1 - i], loops[n - 1 - i]))
    && (forall m :: m >= n ==> receipts[m] == 0 && loops[m] == 0)
  }

  lemma OutcomesTake(plans: seq<Plan>, n: int, receipts: multiset<int>, loops: multiset<int>)
    requires Outcomes(plans, n, receipts, loops)
    ensures Outcomes(Take(plans, MAX_PLANS), n, receipts, loops)
  {
  }

  lemma OutcomesGrown(x: Plan, plans: seq<Plan>, n: int, receipts: multiset<int>, loops: multiset<int>)
    requires Outcomes(plans, n, receipts, loops) && x.executionReceiptId.None? && !x.status.Executed?
    ensures Outcomes([x] + plans, n + 1, receipts, loops)
  {
    var after := [x] + plans;
    forall i | 0 <= i < |after| ensures Outcome(after[i], receipts[n - i], loops[n - i]) {
      if i > 0 { assert after[i] == plans[i - 1]; }
    }
  }

  /** One plan is rewritten; its record may get a receipt and a loop. */
  lemma OutcomesRewritten(
    plans: seq<Plan>, q: nat, p: Plan, n: int, receipts: multiset<int>, loops: multiset<int>, got: bool, opens: bool)
    requires Outcomes(plans, n, receipts, loops) && q < |plans| && (got ==> plans[q].executionReceiptId.None?)
    requires p.executionReceiptId.Some? <==> plans[q].executionReceiptId.Some? || got
    requires if got then opens <==> p.status.Executed?
             else !opens && (p.status.Executed? <==> plans[q].status.Executed?)
    ensures var r := n - 1 - q;
      Outcomes(plans[q := p], n, receipts + (if got then multiset{r} else multiset{}),
               loops + (if opens then multiset{r} else multiset{}))
  {
    var r, after := n - 1 - q, plans[q := p];
    var more, extra := if got then multiset{r} else multiset{}, if opens then multiset{r} else multiset{};
    forall i | 0 <= i < |after|
      ensures Outcome(after[i], (receipts + more)[n - 1 - i], (loops + extra)[n - 1 - i])
    {
      assert Outcome(plans[i], receipts[n - 1 - i], loops[n - 1 - i]);
    }
  }

  // === Each step ===

  ghost predicate StateOutcomes(s: State, receipts: multiset<int>, loops: multiset<int>) {
    Outcomes(s.ledger.acceptedPlans, |s.hist.accepted|, receipts, loops)
  }

  ghost predicate KeepsOutcomes(cfg: Config, s: State, step: Step, receipts: multiset<int>, loops: multiset<int>) {
    StateOutcomes(s, receipts, loops) ==>
      StateOutcomes(Apply(cfg, s, step), receipts + Receipting(cfg, s, step), loops + LoopOpened(cfg, s, step))
  }

  /** Steps that give no receipt and open no loop: the plans are as they were, or one was rewritten. */
  predicate Quiet(s: State, t: State, q: nat, p: Plan) {
    var before, after := s.ledger.acceptedPlans, t.ledger.acceptedPlans;
    && t.hist.accepted == s.hist.accepted
    && (|| after == before || after == Take(before, MAX_PLANS)
        || (Rewritten(before, after, q, p) && p.executionReceiptId == before[q].executionReceiptId
            && (p.status.Executed? <==> before[q].status.Executed?)))
  }

  lemma QuietOutcomes(s: State, t: State, q: nat, p: Plan, receipts: multiset<int>, loops: multiset<int>)
    requires Quiet(s, t, q, p) && StateOutcomes(s, receipts, loops)
    ensures StateOutcomes(t, receipts, loops)
  {
    var before, n := s.ledger.acceptedPlans, |s.hist.accepted|;
    OutcomesTake(before, n, receipts, loops);
    if q < |before| && p.executionReceiptId == before[q].executionReceiptId
       && (p.status.Executed? <==> before[q].status.Executed?)
    {
      OutcomesRewritten(before, q, p, n, receipts, loops, false, false);
      assert receipts + multiset{} == receipts && loops + multiset{} == loops;
      OutcomesTake(before[q := p], n, receipts, loops);
    }
  }

  lemma BlockQuiet(s: State, k: nat) returns (q: nat, p: Plan)
    requires !StaleBlock(s, Block(k))
    ensures Quiet(s, DoBlock(s, k), q, p)
  {
    q, p := 0, NewPlan("", 0);
    if k < |s.attempts| && FencedPlan(s, k).Some? {
      q := FencedPlan(s, k).value;
      p := s.ledger.acceptedPlans[q].(status := Failed);
    }
  }

  lemma ClaimedPlans(l: Ledger, cfg: Config, at: int, actor: Actor, runId: string, planId: Option<string>)
    ensures var before, after := l.acceptedPlans, ClaimMutator(l, cfg, at, actor, runId, planId).ledger.acceptedPlans;
      var k := ClaimCandidate(l, cfg, at, planId);
      if k < |before| && Claimable(before[k], cfg, at) then
        && |after| == |before| && after == before[k := after[k]]
        && after[k].executionReceiptId == before[k].executionReceiptId
        && !after[k].status.Executed? && !before[k].status.Executed?
      else after == before
  {
  }

  lemma ClaimQuiet(cfg: Config, s: State, at: int, actor: Actor, runId: string, planId: Option<string>)
    returns (q: nat, p: Plan)
    ensures Quiet(s, DoClaim(s, cfg, at, actor, runId, planId), q, p)
  {
    q, p := 0, NewPlan("", 0);
    var k := ClaimCandidate(s.ledger, cfg, at, planId);
    ClaimedPlans(s.ledger, cfg, at, actor, runId, planId);
    if at <= s.now && k < |s.ledger.acceptedPlans| && Claimable(s.ledger.acceptedPlans[k], cfg, at) {
      q := k;
      p := ClaimMutator(s.ledger, cfg, at, actor, runId, planId).ledger.acceptedPlans[k];
    }
  }

  lemma OtherQuiet(cfg: Config, s: State, step: Step)
    requires !step.Coordinate? && !step.Finalise? && !step.Block? && !step.Claim?
    ensures Quiet(s, Apply(cfg, s, step), 0, NewPlan("", 0))
  {
  }

  lemma LoopsStay(cfg: Config, s: State, step: Step)
    requires !step.Coordinate? && !step.Finalise?
    ensures |Apply(cfg, s, step).ledger.loopPositions| == |s.ledger.loopPositions|
  {
  }

  lemma QuietStep(cfg: Config, s: State, step: Step, receipts: multiset<int>, loops: multiset<int>)
    requires !step.Coordinate? && !step.Finalise? && !StaleBlock(s, step)
    ensures KeepsOutcomes(cfg, s, step, receipts, loops)
  {
    LoopsStay(cfg, s, step);
    assert receipts + Receipting(cfg, s, step) == receipts && loops + LoopOpened(cfg, s, step) == loops;
    if StateOutcomes(s, receipts, loops) {
      var q, p := 0, NewPlan("", 0);
      match step {
        case Block(k) => q, p := BlockQuiet(s, k);
        case Claim(at, actor, runId, planId) => q, p := ClaimQuiet(cfg, s, at, actor, runId, planId);
        case _ => OtherQuiet(cfg, s, step);
      }
      QuietOutcomes(s, Apply(cfg, s, step), q, p, receipts, loops);
    }
  }

  /** A finalisation that passes the fence: plan `q` is rewritten to `p` and gets its receipt. */
  predicate Finalises(cfg: Config, s: State, step: Step, t: State, q: nat, p: Plan) {
    && Rewritten(s.ledger.acceptedPlans, t.ledger.acceptedPlans, q, p) && t.hist.accepted == s.hist.accepted
    && p.executionReceiptId.Some?
    && Receipting(cfg, s, step) == multiset{PlanRecord(s, q)}
    && LoopOpened(cfg, s, step) == if p.status.Executed? then multiset{PlanRecord(s, q)} else multiset{}
  }

  lemma FencedFinalise(cfg: Config, s: State, k: nat, failed: bool, q: nat) returns (p: Plan)
    requires k < |s.attempts| && s.attempts[k].phase.Running? && FencedPlan(s, k) == Some(q)
    ensures Finalises(cfg, s, Finalise(k, failed), DoFinalise(s, cfg, k, failed), q, p)
  {
    var a := s.attempts[k];
    p := FinaliseMutator(s.ledger, a.plan, a.proposal, a.actor, a.runId, cfg, s.now,
                         failed && !cfg.dryRun).acceptedPlans[q];
  }

  lemma UnfencedFinalise(cfg: Config, s: State, k: nat, failed: bool)
    requires k >= |s.attempts| || !s.attempts[k].phase.Running? || FencedPlan(s, k).None?
    ensures Quiet(s, DoFinalise(s, cfg, k, failed), 0, NewPlan("", 0))
    ensures Receipting(cfg, s, Finalise(k, failed)) == multiset{} == LoopOpened(cfg, s, Finalise(k, failed))
  {
  }

  lemma FinalisedOutcomes(
    cfg: Config, s: State, step: Step, t: State, q: nat, p: Plan, receipts: multiset<int>, loops: multiset<int>,
    got: multiset<int>, opens: multiset<int>)
    requires Finalises(cfg, s, step, t, q, p) && s.ledger.acceptedPlans[q].executionReceiptId.None?
    requires got == Receipting(cfg, s, step) && opens == LoopOpened(cfg, s, step)
    requires StateOutcomes(s, receipts, loops)
    ensures StateOutcomes(t, receipts + got, loops + opens)
  {
    FinalisedList(s.ledger.acceptedPlans, t.ledger.acceptedPlans, q, p, |s.hist.accepted|, receipts, loops, got, opens);
  }

  lemma FinalisedList(
    before: seq<Plan>, after: seq<Plan>, q: nat, p: Plan, n: int, receipts: multiset<int>, loops: multiset<int>,
    got: multiset<int>, opens: multiset<int>)
    requires Rewritten(before, after, q, p) && before[q].executionReceiptId.None? && p.executionReceiptId.Some?
    requires got == multiset{n - 1 - q} && opens == if p.status.Executed? then multiset{n - 1 - q} else multiset{}
    requires Outcomes(before, n, receipts, loops)
    ensures Outcomes(after, n, receipts + got, loops + opens)
  {
    OutcomesRewritten(before, q, p, n, receipts, loops, true, p.status.Executed?);
    OutcomesTake(before[q := p], n, receipts + got, loops + opens);
  }

  lemma FinaliseOutcomes(cfg: Config, s: State, k: nat, failed: bool, receipts: multiset<int>, loops: multiset<int>)
    requires !Stale(s, Finalise(k, failed))
    ensures KeepsOutcomes(cfg, s, Finalise(k, failed), receipts, loops)
  {
    var step, t := Finalise(k, failed), DoFinalise(s, cfg, k, failed);
    if StateOutcomes(s, receipts, loops) {
      if k < |s.attempts| && s.attempts[k].phase.Running? && FencedPlan(s, k).Some? {
        var q := FencedPlan(s, k).value;
        var p := FencedFinalise(cfg, s, k, failed, q);
        FinalisedOutcomes(cfg, s, step, t, q, p, receipts, loops, Receipting(cfg, s, step), LoopOpened(cfg, s, step));
      } else {
        UnfencedFinalise(cfg, s, k, failed);
        assert receipts + multiset{} == receipts && loops + multiset{} == loops;
        QuietOutcomes(s, t, 0, NewPlan("", 0), receipts, loops);
      }
    }
  }

  // === A coordinator tick ===

  /** What reconciliation leaves of the plan in flight and of the loops: settled with a loop unless one is stored. */
  predicate HeadSettled(l: Ledger, r: Ledger) {
    && l.acceptedPlans != [] && l.acceptedPlans[0].status.Executing?
    && |r.acceptedPlans| == |l.acceptedPlans| && r.acceptedPlans == l.acceptedPlans[0 := r.acceptedPlans[0]]
    && r.acceptedPlans[0].status.Executed? && r.acceptedPlans[0].executionReceiptId.Some?
    && (if FindIndex(l.loopPositions, LoopOfPlan(l.acceptedPlans[0].id)) < |l.loopPositions|
        then r.loopPositions == l.loopPositions
        else |r.loopPositions| > |l.loopPositions| && r.loopPositions[0].planId == l.acceptedPlans[0].id)
  }

  predicate HeadCancelled(l: Ledger, r: Ledger) {
    && l.acceptedPlans != [] && r.loopPositions == l.loopPositions && l.acceptedPlans[0].status.Executing?
    && r.acceptedPlans == l.acceptedPlans[0 := l.acceptedPlans[0].(status := Cancelled)]
  }

  lemma ReconcileHeadIs(l: Ledger, cfg: Config, now: int)
    requires OnlyHeadActive(l.acceptedPlans)
    ensures var r := Reconcile(l, cfg, now); r == l || HeadSettled(l, r) || HeadCancelled(l, r)
  {
    Capacity.ReconcileHead(l, now);
  }

  /** A receipt by reconciliation is the head's. */
  lemma ReconciledHead(before: seq<Plan>, after: seq<Plan>, n: int)
    requires |after| == |before| && (after == before || (before != [] && after == before[0 := after[0]]))
    ensures ReconciledRecords(before, after, n, 0)
         == if before != [] && Settles(before[0], after[0]) then multiset{n - 1} else multiset{}
  {
    var one := if before != [] && Settles(before[0], after[0]) then multiset{n - 1} else multiset{};
    forall m ensures ReconciledRecords(before, after, n, 0)[m] == one[m] { ReconciledAt(before, after, n, 0, m); }
  }

  /**
   * What a tick makes of the `n` plan records so far: perhaps a new one is put in front, and the head of the
   * old ones is perhaps settled or cancelled; `got` are the records that get a receipt.
   */
  ghost predicate TickedRecords(
    before: seq<Plan>, n: int, got: multiset<int>, mid: seq<Plan>, after: seq<Plan>, m: int)
  {
    && |mid| == |before| && (mid == before || (before != [] && mid == before[0 := mid[0]]))
    && (before != [] ==> HeadTicked(before[0], mid[0]))
    && got == (if before != [] && Settles(before[0], mid[0]) then multiset{n - 1} else multiset{})
    && ((after == Take(mid, MAX_PLANS) && m == n)
        || exists id, at :: after == Take([NewPlan(id, at)] + mid, MAX_PLANS) && m == n + 1)
  }

  predicate HeadTicked(p: Plan, q: Plan) {
    if Settles(p, q) then q.executionReceiptId.Some?
    else q.executionReceiptId == p.executionReceiptId && (q.status.Executed? <==> p.status.Executed?)
  }

  /** The ledger between reconciliation and acceptance. */
  ghost predicate Between(l: Ledger, mid: Ledger, r: Ledger, now: int) {
    && ((mid.acceptedPlans == l.acceptedPlans && mid.loopPositions == l.loopPositions)
        || HeadSettled(l, mid) || HeadCancelled(l, mid))
    && r.loopPositions == mid.loopPositions
    && (r.acceptedPlans == mid.acceptedPlans || exists id :: r.acceptedPlans == [NewPlan(id, now)] + mid.acceptedPlans)
  }

  lemma MutatorIs(l: Ledger, cfg: Config, now: int) returns (mid: Ledger)
    requires OnlyHeadActive(l.acceptedPlans) && CoordinatorMutator(l, cfg, now).Some?
    ensures Between(l, mid, CoordinatorMutator(l, cfg, now).value, now)
  {
    var expired := l.(strategyProposals := ExpireProposals(l.strategyProposals, now));
    mid := Reconcile(expired, cfg, now);
    ReconcileHeadIs(expired, cfg, now);
    AcceptShape(mid, cfg, now);
  }

  lemma TickReceipts(s: State, mid: Ledger, r: Ledger, now: int)
    requires Between(s.ledger, mid, r, now)
    ensures |s.ledger.acceptedPlans| == |mid.acceptedPlans| <= |r.acceptedPlans|
    ensures var before, n := s.ledger.acceptedPlans, |s.hist.accepted|;
      ReconciledRecords(before, r.acceptedPlans[|r.acceptedPlans| - |before|..], n, 0)
      == if before != [] && Settles(before[0], mid.acceptedPlans[0]) then multiset{n - 1} else multiset{}
  {
    var before, plans := s.ledger.acceptedPlans, mid.acceptedPlans;
    if r.acceptedPlans == plans {
      assert r.acceptedPlans[0..] == plans;
    } else {
      assert r.acceptedPlans[1..] == plans;
    }
    ReconciledHead(before, plans, |s.hist.accepted|);
  }

  lemma TickedFrom(l: Ledger, mid: Ledger, r: Ledger, now: int, n: int, got: multiset<int>)
    requires Between(l, mid, r, now) && |mid.acceptedPlans| == |l.acceptedPlans|
    requires got == if l.acceptedPlans != [] && Settles(l.acceptedPlans[0], mid.acceptedPlans[0])
                    then multiset{n - 1} else multiset{}
    ensures TickedRecords(l.acceptedPlans, n, got, mid.acceptedPlans, Take(r.acceptedPlans, MAX_PLANS),
                   n + |r.acceptedPlans| - |l.acceptedPlans|)
  {
  }

  lemma TickParts(cfg: Config, s: State) returns (mid: Ledger, r: Ledger, got: multiset<int>, after: seq<Plan>, m: int)
    requires OnlyHeadActive(s.ledger.acceptedPlans) && CoordinatorMutator(s.ledger, cfg, s.now).Some?
    ensures Between(s.ledger, mid, r, s.now) && |mid.acceptedPlans| == |s.ledger.acceptedPlans|
    ensures got == Receipting(cfg, s, Coordinate)
    ensures got == if s.ledger.acceptedPlans != [] && Settles(s.ledger.acceptedPlans[0], mid.acceptedPlans[0])
                   then multiset{|s.hist.accepted| - 1} else multiset{}
    ensures after == DoCoordinate(s, cfg).ledger.acceptedPlans == Take(r.acceptedPlans, MAX_PLANS)
    ensures m == |DoCoordinate(s, cfg).hist.accepted|
         == |s.hist.accepted| + |r.acceptedPlans| - |s.ledger.acceptedPlans|
  {
    mid := MutatorIs(s.ledger, cfg, s.now);
    r := CoordinatorMutator(s.ledger, cfg, s.now).value;
    TickReceiptsFrom(cfg, s, mid, r);
    CoordinateState(cfg, s, r);
    got, after, m :=
      Receipting(cfg, s, Coordinate), DoCoordinate(s, cfg).ledger.acceptedPlans, |DoCoordinate(s, cfg).hist.accepted|;
  }

  lemma TickIs(cfg: Config, s: State) returns (mid: seq<Plan>, got: multiset<int>, after: seq<Plan>, m: int)
    requires OnlyHeadActive(s.ledger.acceptedPlans) && CoordinatorMutator(s.ledger, cfg, s.now).Some?
    ensures TickedRecords(s.ledger.acceptedPlans, |s.hist.accepted|, got, mid, after, m)
    ensures got == Receipting(cfg, s, Coordinate)
    ensures after == DoCoordinate(s, cfg).ledger.acceptedPlans && m == |DoCoordinate(s, cfg).hist.accepted|
  {
    var between, r;
    between, r, got, after, m := TickParts(cfg, s);
    mid := between.acceptedPlans;
    TickedFrom(s.ledger, between, r, s.now, |s.hist.accepted|, got);
  }

  /** The plan stored first is the one its own id finds. */
  lemma HeadIsFirst(plans: seq<Plan>)
    requires plans != []
    ensures FindIndex(plans, PlanWithId(plans[0].id)) == 0
  {
    assert PlanWithId(plans[0].id)(plans[0]);
  }

  lemma TickLoops(cfg: Config, s: State, r: Ledger)
    requires CoordinatorMutator(s.ledger, cfg, s.now) == Some(r)
    ensures DoCoordinate(s, cfg).ledger.loopPositions == r.loopPositions
  {
  }

  /** The receipts of a tick, from the ledger between. */
  predicate ReceiptsFrom(cfg: Config, s: State, mid: Ledger)
    requires |mid.acceptedPlans| == |s.ledger.acceptedPlans|
  {
    Receipting(cfg, s, Coordinate)
    == if s.ledger.acceptedPlans != [] && Settles(s.ledger.acceptedPlans[0], mid.acceptedPlans[0])
       then multiset{|s.hist.accepted| - 1} else multiset{}
  }

  lemma TickReceiptsFrom(cfg: Config, s: State, mid: Ledger, r: Ledger)
    requires CoordinatorMutator(s.ledger, cfg, s.now) == Some(r) && Between(s.ledger, mid, r, s.now)
    ensures |mid.acceptedPlans| == |s.ledger.acceptedPlans| && ReceiptsFrom(cfg, s, mid)
  {
    TickReceipts(s, mid, r, s.now);
  }

  predicate OpensAsTold(cfg: Config, s: State, t: State) {
    var loops := t.ledger.loopPositions;
    (if |loops| <= |s.ledger.loopPositions| then multiset{}
     else multiset{PlanRecord(s, FindIndex(s.ledger.acceptedPlans, PlanWithId(loops[0].planId)))})
    == if Masked(cfg, s, Coordinate) then multiset{} else Receipting(cfg, s, Coordinate)
  }

  lemma OpensFrom(cfg: Config, s: State, t: State, mid: Ledger, r: Ledger)
    requires Between(s.ledger, mid, r, s.now) && t.ledger.loopPositions == mid.loopPositions
    requires |mid.acceptedPlans| == |s.ledger.acceptedPlans| && ReceiptsFrom(cfg, s, mid)
    ensures OpensAsTold(cfg, s, t)
  {
    if s.ledger.acceptedPlans != [] { HeadIsFirst(s.ledger.acceptedPlans); }
  }

  /** It opens a loop exactly for the receipt it gives, unless that is masked. */
  lemma TickOpens(cfg: Config, s: State)
    requires OnlyHeadActive(s.ledger.acceptedPlans)
    ensures LoopOpened(cfg, s, Coordinate)
         == if Masked(cfg, s, Coordinate) then multiset{} else Receipting(cfg, s, Coordinate)
  {
    if CoordinatorMutator(s.ledger, cfg, s.now).Some? {
      var mid := MutatorIs(s.ledger, cfg, s.now);
      var r := CoordinatorMutator(s.ledger, cfg, s.now).value;
      TickLoops(cfg, s, r);
      TickReceiptsFrom(cfg, s, mid, r);
      OpensFrom(cfg, s, DoCoordinate(s, cfg), mid, r);
    }
  }

  lemma TickedOutcomes(
    before: seq<Plan>, n: int, got: multiset<int>, mid: seq<Plan>, after: seq<Plan>, m: int,
    receipts: multiset<int>, loops: multiset<int>)
    requires TickedRecords(before, n, got, mid, after, m)
    requires Outcomes(before, n, receipts, loops) && ActiveUnreceipted(before)
    ensures Outcomes(after, m, receipts + got, loops + got)
  {
    if before != [] {
      OutcomesRewritten(before, 0, mid[0], n, receipts, loops, Settles(before[0], mid[0]), Settles(before[0], mid[0]));
      assert mid == before[0 := mid[0]];
    } else {
      assert receipts + got == receipts && loops + got == loops;
    }
    OutcomesTake(mid, n, receipts + got, loops + got);
    if m == n + 1 {
      var id, at :| after == Take([NewPlan(id, at)] + mid, MAX_PLANS);
      OutcomesGrown(NewPlan(id, at), mid, n, receipts + got, loops + got);
      OutcomesTake([NewPlan(id, at)] + mid, n + 1, receipts + got, loops + got);
    }
  }

  lemma ActiveHaveNone(s: State)
    requires Basics(s)
    ensures ActiveUnreceipted(s.ledger.acceptedPlans)
  {
    forall k | 0 <= k < |s.ledger.acceptedPlans| && IsActivePlan(s.ledger.acceptedPlans[k])
      ensures s.ledger.acceptedPlans[k].executionReceiptId.None?
    {
      assert PlanOk(s.ledger.acceptedPlans[k], s.hist);
    }
  }

  lemma ThrowingTick(cfg: Config, s: State, receipts: multiset<int>, loops: multiset<int>)
    requires CoordinatorMutator(s.ledger, cfg, s.now).None?
    ensures KeepsOutcomes(cfg, s, Coordinate, receipts, loops)
  {
    assert receipts + multiset{} == receipts && loops + multiset{} == loops;
  }

  lemma CoordinateOutcomes(cfg: Config, s: State, receipts: multiset<int>, loops: multiset<int>)
    requires Basics(s) && OnlyHeadActive(s.ledger.acceptedPlans) && !Masked(cfg, s, Coordinate)
    ensures KeepsOutcomes(cfg, s, Coordinate, receipts, loops)
  {
    if CoordinatorMutator(s.ledger, cfg, s.now).None? {
      ThrowingTick(cfg, s, receipts, loops);
    } else if StateOutcomes(s, receipts, loops) {
      var mid, got, after, m := TickIs(cfg, s);
      TickOpens(cfg, s);
      ActiveHaveNone(s);
      TickedOutcomes(s.ledger.acceptedPlans, |s.hist.accepted|, got, mid, after, m, receipts, loops);
    }
  }

  // === Whole runs ===

  lemma StepOutcomes(cfg: Config, s: State, step: Step, receipts: multiset<int>, loops: multiset<int>)
    requires Basics(s) && OnlyHeadActive(s.ledger.acceptedPlans) && !Breaks(cfg, s, step)
    ensures KeepsOutcomes(cfg, s, step, receipts, loops)
  {
    match step
    case Coordinate => CoordinateOutcomes(cfg, s, receipts, loops);
    case Finalise(k, failed) => FinaliseOutcomes(cfg, s, k, failed, receipts, loops);
    case _ => QuietStep(cfg, s, step, receipts, loops);
  }

  lemma TallySnoc(cfg: Config, steps: seq<Step>, k: nat, event: Event)
    requires k < |steps|
    ensures Tally(cfg, steps[..k + 1], event)
         == Tally(cfg, steps[..k], event) + event(cfg, Before(cfg, steps, k), steps[k])
  {
    assert steps[..k + 1][..k] == steps[..k];
  }

  ghost predicate OutcomesAt(cfg: Config, steps: seq<Step>, k: nat)
    requires k <= |steps|
  {
    StateOutcomes(Before(cfg, steps, k), Tally(cfg, steps[..k], Receipting), Tally(cfg, steps[..k], LoopOpened))
  }

  lemma OutcomesNext(cfg: Config, steps: seq<Step>, k: nat)
    requires k < |steps| && OutcomesAt(cfg, steps, k) && !BreaksAt(cfg, steps, k)
    ensures OutcomesAt(cfg, steps, k + 1)
  {
    BasicsHold(cfg, steps[..k]);
    HeadInvariant(cfg, steps[..k]);
    StepOutcomes(cfg, Before(cfg, steps, k), steps[k],
                 Tally(cfg, steps[..k], Receipting), Tally(cfg, steps[..k], LoopOpened));
    RunSnoc(cfg, steps, k);
    TallySnoc(cfg, steps, k, Receipting);
    TallySnoc(cfg, steps, k, LoopOpened);
  }

  lemma {:induction false} OutcomesThroughout(cfg: Config, steps: seq<Step>, k: nat)
    requires k <= |steps| && forall j :: 0 <= j < k ==> !BreaksAt(cfg, steps, j)
    ensures OutcomesAt(cfg, steps, k)
    decreases k
  {
    if k > 0 {
      OutcomesThroughout(cfg, steps, k - 1);
      OutcomesNext(cfg, steps, k - 1);
    }
  }

  lemma OutcomesAreOneOfEach(plans: seq<Plan>, n: int, receipts: multiset<int>, loops: multiset<int>)
    requires Outcomes(plans, n, receipts, loops)
    ensures AllOneOfEach(plans, n, receipts, loops)
  {
    forall i | 0 <= i < |plans| ensures OneOfEach(plans[i], receipts[n - 1 - i], loops[n - 1 - i]) {
      assert Outcome(plans[i], receipts[n - 1 - i], loops[n - 1 - i]);
    }
  }

  lemma OutcomesGiveOneOfEach(cfg: Config, steps: seq<Step>, k: nat)
    requires k <= |steps| && OutcomesAt(cfg, steps, k)
    ensures OneOfEachAt(cfg, steps, k)
  {
    var s := Before(cfg, steps, k);
    OutcomesAreOneOfEach(s.ledger.acceptedPlans, |s.hist.accepted|,
                         Tally(cfg, steps[..k], Receipting), Tally(cfg, steps[..k], LoopOpened));
  }

  // === A step that breaks it, breaks it at once ===

  lemma StepCapped(cfg: Config, s: State, step: Step)
    requires |s.ledger.acceptedPlans| <= MAX_PLANS
    ensures |Apply(cfg, s, step).ledger.acceptedPlans| <= MAX_PLANS
  {
  }

  /** The list of plans is never longer than its cap. */
  lemma {:induction false} PlansCapped(cfg: Config, steps: seq<Step>)
    ensures |Run(cfg, steps).ledger.acceptedPlans| <= MAX_PLANS
    decreases |steps|
  {
    if steps != [] {
      PlansCapped(cfg, steps[..|steps| - 1]);
      StepCapped(cfg, Run(cfg, steps[..|steps| - 1]), steps[|steps| - 1]);
    }
  }

  /** After the step some stored plan is not executed with one of each, nor the reverse. */
  predicate Broken(s: State, receipts: multiset<int>, loops: multiset<int>) {
    !AllOneOfEach(s.ledger.acceptedPlans, |s.hist.accepted|, receipts, loops)
  }

  lemma BrokenAt(s: State, receipts: multiset<int>, loops: multiset<int>, i: nat)
    requires i < |s.ledger.acceptedPlans|
    requires var record := |s.hist.accepted| - 1 - i;
      !OneOfEach(s.ledger.acceptedPlans[i], receipts[record], loops[record])
    ensures Broken(s, receipts, loops)
  {
  }

  /** A second receipt for the record of plan `q`. */
  lemma SecondReceipt(
    s: State, t: State, q: nat, p: Plan, receipts: multiset<int>, loops: multiset<int>, got: multiset<int>,
    opens: multiset<int>)
    requires StateOutcomes(s, receipts, loops) && |s.ledger.acceptedPlans| <= MAX_PLANS
    requires Rewritten(s.ledger.acceptedPlans, t.ledger.acceptedPlans, q, p) && t.hist.accepted == s.hist.accepted
    requires s.ledger.acceptedPlans[q].executionReceiptId.Some? && got == multiset{PlanRecord(s, q)}
    ensures Broken(t, receipts + got, loops + opens)
  {
    assert Outcome(s.ledger.acceptedPlans[q], receipts[PlanRecord(s, q)], loops[PlanRecord(s, q)]);
    BrokenAt(t, receipts + got, loops + opens, q);
  }

  lemma StaleBreaks(cfg: Config, s: State, step: Step, receipts: multiset<int>, loops: multiset<int>)
    requires Stale(s, step) && StateOutcomes(s, receipts, loops) && |s.ledger.acceptedPlans| <= MAX_PLANS
    ensures Broken(Apply(cfg, s, step), receipts + Receipting(cfg, s, step), loops + LoopOpened(cfg, s, step))
  {
    var q := FencedPlan(s, step.attempt).value;
    var p := FencedFinalise(cfg, s, step.attempt, step.failed, q);
    SecondReceipt(s, Apply(cfg, s, step), q, p, receipts, loops, Receipting(cfg, s, step), LoopOpened(cfg, s, step));
  }

  lemma BlockedPlan(s: State, k: nat)
    requires StaleBlock(s, Block(k)) && |s.ledger.acceptedPlans| <= MAX_PLANS
    ensures var q, t := FencedPlan(s, k).value, DoBlock(s, k);
      && q < |t.ledger.acceptedPlans| && t.ledger.acceptedPlans[q].status.Failed? && t.hist.accepted == s.hist.accepted
  {
  }

  lemma StaleBlockBreaks(cfg: Config, s: State, step: Step, receipts: multiset<int>, loops: multiset<int>)
    requires StaleBlock(s, step) && StateOutcomes(s, receipts, loops) && |s.ledger.acceptedPlans| <= MAX_PLANS
    ensures Broken(Apply(cfg, s, step), receipts + Receipting(cfg, s, step), loops + LoopOpened(cfg, s, step))
  {
    var q := FencedPlan(s, step.attempt).value;
    LoopsStay(cfg, s, step);
    assert receipts + Receipting(cfg, s, step) == receipts && loops + LoopOpened(cfg, s, step) == loops;
    assert Outcome(s.ledger.acceptedPlans[q], receipts[PlanRecord(s, q)], loops[PlanRecord(s, q)]);
    BlockedPlan(s, step.attempt);
    BrokenAt(Apply(cfg, s, step), receipts, loops, q);
  }

  lemma MaskedHead(
    before: seq<Plan>, n: int, got: multiset<int>, mid: seq<Plan>, after: seq<Plan>, m: int,
    receipts: multiset<int>, loops: multiset<int>)
    requires TickedRecords(before, n, got, mid, after, m)
    requires Outcomes(before, n, receipts, loops) && ActiveUnreceipted(before)
    requires |before| <= MAX_PLANS && got != multiset{}
    ensures !AllOneOfEach(after, m, receipts + got, loops)
  {
    assert Outcome(before[0], receipts[n - 1], loops[n - 1]);
    assert after[m - n] == mid[0];
    assert !OneOfEach(after[m - n], (receipts + got)[n - 1], loops[n - 1]);
  }

  lemma MaskedBreaks(cfg: Config, s: State, step: Step, receipts: multiset<int>, loops: multiset<int>)
    requires Basics(s) && OnlyHeadActive(s.ledger.acceptedPlans) && Masked(cfg, s, step)
    requires StateOutcomes(s, receipts, loops) && |s.ledger.acceptedPlans| <= MAX_PLANS
    ensures Broken(Apply(cfg, s, step), receipts + Receipting(cfg, s, step), loops + LoopOpened(cfg, s, step))
  {
    var mid, got, after, m := TickIs(cfg, s);
    TickOpens(cfg, s);
    assert loops + LoopOpened(cfg, s, step) == loops;
    ActiveHaveNone(s);
    MaskedHead(s.ledger.acceptedPlans, |s.hist.accepted|, got, mid, after, m, receipts, loops);
  }

  lemma BreakingBreaks(cfg: Config, s: State, step: Step, receipts: multiset<int>, loops: multiset<int>)
    requires Basics(s) && OnlyHeadActive(s.ledger.acceptedPlans) && Breaks(cfg, s, step)
    requires StateOutcomes(s, receipts, loops) && |s.ledger.acceptedPlans| <= MAX_PLANS
    ensures Broken(Apply(cfg, s, step), receipts + Receipting(cfg, s, step), loops + LoopOpened(cfg, s, step))
  {
    if Stale(s, step) {
      StaleBreaks(cfg, s, step, receipts, loops);
    } else if StaleBlock(s, step) {
      StaleBlockBreaks(cfg, s, step, receipts, loops);
    } else {
      MaskedBreaks(cfg, s, step, receipts, loops);
    }
  }

  lemma BrokenNext(cfg: Config, steps: seq<Step>, k: nat)
    requires BreaksAt(cfg, steps, k) && OutcomesAt(cfg, steps, k)
    ensures !OneOfEachAt(cfg, steps, k + 1)
  {
    BasicsHold(cfg, steps[..k]);
    HeadInvariant(cfg, steps[..k]);
    PlansCapped(cfg, steps[..k]);
    BreakingBreaks(cfg, Before(cfg, steps, k), steps[k], Tally(cfg, steps[..k], Receipting),
                   Tally(cfg, steps[..k], LoopOpened));
    RunSnoc(cfg, steps, k);
    TallySnoc(cfg, steps, k, Receipting);
    TallySnoc(cfg, steps, k, LoopOpened);
  }

  lemma {:induction false} FirstBreak(cfg: Config, steps: seq<Step>, n: nat) returns (k: nat)
    requires BreaksAt(cfg, steps, n)
    ensures BreaksAt(cfg, steps, k) && forall j :: 0 <= j < k ==> !BreaksAt(cfg, steps, j)
    decreases n
  {
    if j: nat :| j < n && BreaksAt(cfg, steps, j) {
      k := FirstBreak(cfg, steps, j);
    } else {
      k := n;
    }
  }

  /**
   * In any run, ids repeating or not: at every point each stored plan has at most one receipt and one loop
   * position and is `executed` exactly when it has one of each, if and only if no finalisation lands on a plan
   * with a receipt, no report of a closed gate on an executed plan, and no reconciliation is masked by a loop
   * stored under the same plan id.
   */
  lemma OneOfEachIff(cfg: Config, steps: seq<Step>)
    ensures (forall k :: 0 <= k <= |steps| ==> OneOfEachAt(cfg, steps, k))
       <==> (forall k :: 0 <= k < |steps| ==> !BreaksAt(cfg, steps, k))
  {
    if forall k :: 0 <= k < |steps| ==> !BreaksAt(cfg, steps, k) {
      forall k | 0 <= k <= |steps| ensures OneOfEachAt(cfg, steps, k) {
        OutcomesThroughout(cfg, steps, k);
        OutcomesGiveOneOfEach(cfg, steps, k);
      }
    } else {
      var n: nat :| n < |steps| && BreaksAt(cfg, steps, n);
      var k := FirstBreak(cfg, steps, n);
      OutcomesThroughout(cfg, steps, k);
      BrokenNext(cfg, steps, k);
    }
  }

  // === Fenced runs have no late writes ===

  predicate NoLateWrite(cfg: Config, steps: seq<Step>) {
    forall k :: 0 <= k < |steps| ==>
      !Stale(Before(cfg, steps, k), steps[k]) && !StaleBlock(Before(cfg, steps, k), steps[k])
  }

  /** Whoever finalises or reports a closed gate does so before a tick finds the claim expired. */
  predicate WritesInTime(s: State, step: Step) {
    && FinalisesInTime(s, step)
    && (step.Block? && step.attempt < |s.attempts| && s.attempts[step.attempt].phase.Blocked? ==>
          KeyOf(s.attempts[step.attempt]) !in s.hist.late)
  }

  predicate TimelyWrites(cfg: Config, steps: seq<Step>) {
    forall k :: 0 <= k < |steps| ==> WritesInTime(Before(cfg, steps, k), steps[k])
  }

  lemma DryRunsWriteInTime(cfg: Config, steps: seq<Step>)
    requires cfg.dryRun
    ensures TimelyWrites(cfg, steps)
  {
    forall k | 0 <= k < |steps| ensures WritesInTime(Before(cfg, steps, k), steps[k]) {
      NeverLateInDryRuns(cfg, steps[..k]);
    }
  }

  lemma HeldMeansNoLateWrite(cfg: Config, s: State, step: Step)
    requires Basics(s) && Held(cfg, s) && WritesInTime(s, step)
    ensures !Stale(s, step) && !StaleBlock(s, step)
  {
    HeldMeansNotStale(cfg, s, step);
    if step.Block? && step.attempt < |s.attempts| && FencedPlan(s, step.attempt).Some? {
      FencedPlanIsOurs(s, step.attempt);
      var p, a := s.ledger.acceptedPlans[FencedPlan(s, step.attempt).value], s.attempts[step.attempt];
      assert p in s.ledger.acceptedPlans && a in s.attempts && Holds(p, a);
      var q := FencedPlan(s, step.attempt).value;
      assert PlanOk(s.ledger.acceptedPlans[q], s.hist);
    }
  }

  /** Distinct claim keys, and either a dry run or writes in time: no late write goes through. */
  lemma FencedRunsHaveNoLateWrite(cfg: Config, steps: seq<Step>)
    requires DistinctClaims(cfg, steps) && (cfg.dryRun || TimelyWrites(cfg, steps))
    ensures NoLateWrite(cfg, steps)
  {
    if cfg.dryRun { DryRunsWriteInTime(cfg, steps); }
    forall k | 0 <= k < |steps|
      ensures !Stale(Before(cfg, steps, k), steps[k]) && !StaleBlock(Before(cfg, steps, k), steps[k])
    {
      HeldThroughout(cfg, steps, k);
      HeldMeansNoLateWrite(cfg, Before(cfg, steps, k), steps[k]);
    }
  }

  // === Distinct ids mask nothing ===

  predicate LoopsOk(loops: seq<LoopPosition>) {
    forall k :: 0 <= k < |loops| ==> loops[k].planId == PlanIdFor(loops[k].proposalId)
  }

  predicate KeepsLoopsOk(s: State, t: State) { LoopsOk(s.ledger.loopPositions) ==> LoopsOk(t.ledger.loopPositions) }

  lemma ReconcileLoopsOk(l: Ledger, now: int, h: History)
    requires OnlyHeadActive(l.acceptedPlans) && PlansOk(l.acceptedPlans, h) && LoopsOk(l.loopPositions)
    ensures LoopsOk(ReconcileFrom(l, now, 0).loopPositions)
  {
    Capacity.ReconcileHead(l, now);
    if l.acceptedPlans != [] {
      assert PlanOk(l.acceptedPlans[0], h);
      var q := FindIndex(l.strategyProposals, ProposalWithId(l.acceptedPlans[0].proposalId));
      if q < |l.strategyProposals| {
        assert ProposalWithId(l.acceptedPlans[0].proposalId)(l.strategyProposals[q]);
      }
    }
  }

  lemma CoordinateLoopsOk(cfg: Config, s: State)
    requires Basics(s) && OnlyHeadActive(s.ledger.acceptedPlans)
    ensures KeepsLoopsOk(s, DoCoordinate(s, cfg))
  {
    var expired := s.ledger.(strategyProposals := ExpireProposals(s.ledger.strategyProposals, s.now));
    if LoopsOk(s.ledger.loopPositions) { ReconcileLoopsOk(expired, s.now, s.hist); }
    AcceptShape(Reconcile(expired, cfg, s.now), cfg, s.now);
  }

  lemma FinaliseLoopsOk(cfg: Config, s: State, k: nat, failed: bool)
    requires Basics(s)
    ensures KeepsLoopsOk(s, DoFinalise(s, cfg, k, failed))
  {
    if k < |s.attempts| { assert AttemptOk(s.attempts[k]); }
  }

  lemma StepLoopsOk(cfg: Config, s: State, step: Step)
    requires Basics(s) && OnlyHeadActive(s.ledger.acceptedPlans)
    ensures KeepsLoopsOk(s, Apply(cfg, s, step))
  {
    match step
    case Coordinate => CoordinateLoopsOk(cfg, s);
    case Finalise(k, failed) => FinaliseLoopsOk(cfg, s, k, failed);
    case _ =>
  }

  lemma {:induction false} LoopsOkHolds(cfg: Config, steps: seq<Step>)
    ensures LoopsOk(Run(cfg, steps).ledger.loopPositions)
    decreases |steps|
  {
    if steps != [] {
      var front := steps[..|steps| - 1];
      LoopsOkHolds(cfg, front);
      BasicsHold(cfg, front);
      HeadInvariant(cfg, front);
      StepLoopsOk(cfg, Run(cfg, front), steps[|steps| - 1]);
    }
  }

  /** A loop stored under the id of a plan that awaits its first receipt means two acceptances of that id. */
  lemma MaskMeansTwo(cfg: Config, s: State)
    requires Basics(s) && LoopsOk(s.ledger.loopPositions) && s.ledger.acceptedPlans != []
    requires s.ledger.acceptedPlans[0].executionReceiptId.None?
    requires FindIndex(s.ledger.loopPositions, LoopOfPlan(s.ledger.acceptedPlans[0].id)) < |s.ledger.loopPositions|
    requires var id := s.ledger.acceptedPlans[0].proposalId;
      ReceiptLaw(s, id) && Count(s.ledger.loopPositions, LoopFor(id)) <= s.hist.receipts[id]
    ensures s.hist.accepted[s.ledger.acceptedPlans[0].proposalId] >= 2
  {
    var plan := s.ledger.acceptedPlans[0];
    var m := FindIndex(s.ledger.loopPositions, LoopOfPlan(plan.id));
    var loop := s.ledger.loopPositions[m];
    assert LoopOfPlan(plan.id)(loop) && PlanOk(plan, s.hist);
    assert PlanIdFor(loop.proposalId)[|"plan-"|..] == loop.proposalId;
    assert PlanIdFor(plan.proposalId)[|"plan-"|..] == plan.proposalId;
    CountPositive(s.ledger.loopPositions, m, LoopFor(plan.proposalId));
    CountPositive(s.ledger.acceptedPlans, 0, Unreceipted(plan.proposalId));
  }

  lemma MaskedUnreceipted(cfg: Config, s: State)
    requires Basics(s) && OnlyHeadActive(s.ledger.acceptedPlans) && Masked(cfg, s, Coordinate)
    ensures s.ledger.acceptedPlans[0].executionReceiptId.None?
  {
    var mid := MutatorIs(s.ledger, cfg, s.now);
    TickReceiptsFrom(cfg, s, mid, CoordinatorMutator(s.ledger, cfg, s.now).value);
    ActiveHaveNone(s);
  }

  lemma NoStaleUpTo(cfg: Config, steps: seq<Step>, k: nat)
    requires k <= |steps| && NoLateWrite(cfg, steps)
    ensures NoStale(cfg, steps[..k])
  {
    forall j | 0 <= j < k ensures !Stale(Before(cfg, steps[..k], j), steps[..k][j]) {
      assert steps[..k][..j] == steps[..j];
      assert !Stale(Before(cfg, steps, j), steps[j]);
    }
  }

  lemma DistinctIdsMaskNothing(cfg: Config, steps: seq<Step>, k: nat)
    requires k < |steps| && DistinctProposals(cfg, steps) && NoLateWrite(cfg, steps)
    ensures !Masked(cfg, Before(cfg, steps, k), steps[k])
  {
    var s := Before(cfg, steps, k);
    if Masked(cfg, s, steps[k]) {
      BasicsHold(cfg, steps[..k]);
      HeadInvariant(cfg, steps[..k]);
      LoopsOkHolds(cfg, steps[..k]);
      NoStaleUpTo(cfg, steps, k);
      MaskedUnreceipted(cfg, s);
      var id := s.ledger.acceptedPlans[0].proposalId;
      ReceiptLawHolds(cfg, steps[..k], id);
      ReceiptsBounded(cfg, steps[..k], id);
      MaskMeansTwo(cfg, s);
      RunGrows(cfg, steps, k);
    }
  }

  /** Distinct ids, distinct claim keys and claimants that write in time: one of each, at every point of the run. */
  lemma FencedRunsHaveOneOfEach(cfg: Config, steps: seq<Step>)
    requires DistinctProposals(cfg, steps) && DistinctClaims(cfg, steps) && (cfg.dryRun || TimelyWrites(cfg, steps))
    ensures forall k :: 0 <= k <= |steps| ==> OneOfEachAt(cfg, steps, k)
  {
    FencedRunsHaveNoLateWrite(cfg, steps);
    forall k | 0 <= k < |steps| ensures !BreaksAt(cfg, steps, k) {
      DistinctIdsMaskNothing(cfg, steps, k);
      assert !Stale(Before(cfg, steps, k), steps[k]) && !StaleBlock(Before(cfg, steps, k), steps[k]);
    }
    OneOfEachIff(cfg, steps);
  }
}
