/** Short live runs that show why the timing and the one-protocol hypotheses are there. */
module Counterexamples {
  import opened Prelude
  import opened StrategyLedger
  import opened Subagents
  import opened LedgerRuns
  import Fencing
  import Policy
  import opened FencedRuns
  import opened SingleReceipt
  import opened Capacity

  const LIVE := Config(
    false, true, 2000000000, true, true, 1, 1, 1.0, 1.0, 0, 100.0, 100.0, 0.5, false, 1000, 10, 1000,
    Usdc, Sui)

  const MARKET := MarketSnapshot("mkt", 0, [
    MarketRate(Suilend, Usdc, 2.0, 4.0, 1.0), MarketRate(Suilend, Sui, 1.0, 3.0, 1.0),
    MarketRate(Navi, Sui, 4.0, 6.0, 1.0)])

  /** A Suilend borrow with the given health factor, and the target supply of the same value on Navi. */
  function Positions(suilend: real, navi: real): PositionSnapshot {
    var leg := PositionLeg(Sui, "0x2::sui::SUI", "5000000000", 5.0);
    PositionSnapshot("pos", 0, [
      ProtocolPositions(Suilend, Finite(suilend), 0.0, 0.0, 0.0, 0.0, [], [leg]),
      ProtocolPositions(Navi, Finite(navi), 0.0, 0.0, 0.0, 0.0, [leg], [leg])])
  }

  function Offer(id: string): Proposal {
    Proposal(id, BorrowAgainstExistingCollateral, 1000, Open, Usdc, Sui, Suilend, Suilend, Navi,
      "1000000", "1000000000", 1.0, 1.0, Finite(2.0), 10, "mkt", "pos", Some("src"))
  }

  // === One loop from proposal to execution ===

  /** Nothing in flight, nothing open, snapshots fresh, lists short of their limits. */
  predicate Idle(s: State) {
    && s.attempts == [] && s.now == 0
    && s.ledger.marketSnapshots == [MARKET]
    && 1 <= |s.ledger.positionSnapshots| < 10 && s.ledger.positionSnapshots[0] == Positions(2.0, 2.0)
    && !HasActiveLock(s.ledger.riskLocks) && !HasActivePlan(s.ledger.acceptedPlans)
    && Count(s.ledger.loopPositions, CountsAgainstCapacity) == 0
    && (forall k :: 0 <= k < |s.ledger.strategyProposals| && s.ledger.strategyProposals[k].status.Open? ==>
          s.ledger.strategyProposals[k].expiresAt > 0)
    && |s.ledger.strategyProposals| < 10 && |s.ledger.acceptedPlans| < 10
    && |s.ledger.executionReceipts| < 10 && |s.ledger.riskLocks| < 10
  }

  /** A one followed by zeros is a power of ten. */
  lemma {:induction false} OneAndZeros(s: string)
    requires s != [] && s[0] == '1' && forall k :: 1 <= k < |s| ==> s[k] == '0'
    ensures Amounts.AllDigits(s) && Amounts.DigitsValue(s) == Amounts.Pow10(|s| - 1)
  {
    if |s| > 1 { OneAndZeros(s[..|s| - 1]); } else { assert s[..0] == []; }
  }

  lemma OfferPasses(id: string, l: Ledger)
    requires l.marketSnapshots == [MARKET]
    requires l.positionSnapshots != [] && l.positionSnapshots[0] == Positions(2.0, 2.0)
    requires !HasActiveLock(l.riskLocks) && !HasActivePlan(l.acceptedPlans)
    requires Count(l.loopPositions, CountsAgainstCapacity) == 0
    ensures ValidateLoopProposal(Offer(id), l, LIVE, 0).Allowed?
    ensures ValidateLoopProposal(Offer(id).(status := Accepted), l, LIVE, 0).Allowed?
  {
    OneAndZeros("1000000000");
    assert Amounts.Pow10(9) == 1000000000;
  }

  function Proposed(s: State, id: string): State {
    s.(ledger := s.ledger.(strategyProposals := [Offer(id)] + s.ledger.strategyProposals),
       hist := s.hist.(inserted := s.hist.inserted + multiset{id}))
  }

  function AcceptedState(s: State, id: string): State {
    s.(ledger := s.ledger.(
         strategyProposals := [Offer(id).(status := Accepted)] + s.ledger.strategyProposals,
         acceptedPlans := [NewPlan(id, 0)] + s.ledger.acceptedPlans),
       hist := s.hist.(inserted := s.hist.inserted + multiset{id}, accepted := s.hist.accepted + multiset{id}))
  }

  function ClaimedBy(id: string, runId: string): Plan { ClaimedPlan(NewPlan(id, 0), LIVE, 0, Executor, runId) }

  function RunningState(s: State, id: string, runId: string, phase: Phase): State {
    var t := AcceptedState(s, id);
    t.(ledger := t.ledger.(acceptedPlans := [ClaimedBy(id, runId)] + s.ledger.acceptedPlans),
       attempts := [Attempt(ClaimedBy(id, runId), Offer(id).(status := Accepted), Executor, runId, phase,
                            |s.hist.accepted|)],
       hist := t.hist.(claimed := s.hist.claimed + multiset{id},
                       entered := s.hist.entered + (if phase.Running? then multiset{id} else multiset{}),
                       keys := s.hist.keys + multiset{ClaimKey(PlanIdFor(id), Executor, runId)}))
  }

  lemma ProposeOffer(s: State, id: string)
    requires Idle(s)
    ensures Apply(LIVE, s, Propose(Offer(id))) == Proposed(s, id)
  {
    OfferPasses(id, s.ledger);
  }

  lemma AcceptOffer(s: State, id: string)
    requires Idle(s)
    ensures Apply(LIVE, Proposed(s, id), Coordinate) == AcceptedState(s, id)
  {
    var t := Proposed(s, id);
    var ps := t.ledger.strategyProposals;
    assert ExpireProposals(ps, 0) == ps;
    assert t.ledger.(strategyProposals := ps) == t.ledger;
    Quiet(t.ledger, 0);
    var open := (p: Proposal) => p.status.Open?;
    assert open(ps[0]);
    assert FindIndex(ps, open) == 0;
    OfferPasses(id, t.ledger);
    assert ps[0 := Offer(id).(status := Accepted)] == [Offer(id).(status := Accepted)] + s.ledger.strategyProposals;
    assert NewReceipts(t.ledger, AcceptMutator(t.ledger, LIVE, 0).value) == [];
  }

  /** Without an active plan there is nothing to reconcile. */
  lemma Quiet(l: Ledger, now: int)
    requires !HasActivePlan(l.acceptedPlans)
    ensures Reconcile(l, LIVE, now) == l
  {
    ReconcileTail(l, now, 0);
  }

  lemma ClaimOffer(s: State, id: string, runId: string)
    requires Idle(s)
    ensures Apply(LIVE, AcceptedState(s, id), Claim(0, Executor, runId, None)) == RunningState(s, id, runId, Claimed)
  {
    var t := AcceptedState(s, id);
    var claimable := (p: Plan) => Claimable(p, LIVE, 0);
    assert claimable(t.ledger.acceptedPlans[0]);
    assert ProposalWithId(id)(t.ledger.strategyProposals[0]);
    assert ClaimCandidate(t.ledger, LIVE, 0, None) == 0;
    assert t.ledger.acceptedPlans[0 := ClaimedBy(id, runId)] == [ClaimedBy(id, runId)] + s.ledger.acceptedPlans;
  }

  lemma GateOffer(s: State, id: string, runId: string)
    requires Idle(s)
    ensures Apply(LIVE, RunningState(s, id, runId, Claimed), Gate(0)) == RunningState(s, id, runId, Running)
  {
    var t := RunningState(s, id, runId, Claimed);
    OfferPasses(id, t.ledger.(acceptedPlans := []));
  }

  function OfferSteps(id: string, runId: string): seq<Step> {
    [Propose(Offer(id)), Coordinate, Claim(0, Executor, runId, None), Gate(0)]
  }

  lemma RunAppend(steps: seq<Step>, step: Step)
    ensures Run(LIVE, steps + [step]) == Apply(LIVE, Run(LIVE, steps), step)
  {
    assert (steps + [step])[..|steps|] == steps;
  }

  lemma OfferReachesExecution(steps: seq<Step>, id: string, runId: string)
    requires Idle(Run(LIVE, steps))
    ensures Run(LIVE, steps + OfferSteps(id, runId)) == RunningState(Run(LIVE, steps), id, runId, Running)
  {
    var s := Run(LIVE, steps);
    ProposeOffer(s, id);
    AcceptOffer(s, id);
    ClaimOffer(s, id, runId);
    GateOffer(s, id, runId);
    var t1 := steps + [Propose(Offer(id))];
    var t2 := t1 + [Coordinate];
    var t3 := t2 + [Claim(0, Executor, runId, None)];
    RunAppend(steps, Propose(Offer(id)));
    RunAppend(t1, Coordinate);
    RunAppend(t2, Claim(0, Executor, runId, None));
    RunAppend(t3, Gate(0));
    assert steps + OfferSteps(id, runId) == t3 + [Gate(0)];
  }

  const START: seq<Step> := [CaptureMarket(MARKET), CapturePositions(Positions(2.0, 2.0))]

  lemma StartIsIdle()
    ensures Run(LIVE, START) == State(Ledger([MARKET], [Positions(2.0, 2.0)], [], [], [], [], []), [], 0, NO_HISTORY)
    ensures Idle(Run(LIVE, START))
  {
    RunAppend([], CaptureMarket(MARKET));
    RunAppend([CaptureMarket(MARKET)], CapturePositions(Positions(2.0, 2.0)));
    assert [] + [CaptureMarket(MARKET)] == [CaptureMarket(MARKET)];
    assert START == [CaptureMarket(MARKET)] + [CapturePositions(Positions(2.0, 2.0))];
  }

  // === A claimant that comes back late ===

  const LATE: seq<Step> := START + OfferSteps("a", "run") + [Tick(10)] + [Coordinate] + [Finalise(0, false)]

  lemma OfferAppearsOnChain(id: string)
    ensures ExecutionAppearsOnChain(Offer(id).(status := Accepted), Positions(2.0, 2.0))
  {
    var snap := Positions(2.0, 2.0);
    assert PositionsOn(Suilend)(snap.protocols[0]);
    assert FindIndex(snap.protocols, PositionsOn(Suilend)) == 0;
    assert !PositionsOn(Navi)(snap.protocols[0]) && PositionsOn(Navi)(snap.protocols[1]);
    assert FindIndex(snap.protocols, PositionsOn(Navi)) == 1;
    var leg := PositionLeg(Sui, "0x2::sui::SUI", "5000000000", 5.0);
    assert MatchingUsd([leg], Sui) == 5.0 by { assert [leg][1..] == []; }
  }

  function ReconciledPlan(id: string, runId: string, now: int): Plan {
    ClaimedBy(id, runId).(status := Executed, executionReceiptId := Some(ReceiptId(PlanIdFor(id), now, true)))
  }

  function LoopsAfter(loops: seq<LoopPosition>, id: string, now: int): seq<LoopPosition> {
    if FindIndex(loops, LoopOfPlan(PlanIdFor(id))) < |loops| then loops
    else [NewLoop(PlanIdFor(id), Offer(id), now, Active)] + loops
  }

  predicate NoneOpen(ps: seq<Proposal>) { forall k :: 0 <= k < |ps| ==> !ps[k].status.Open? }

  /** What the tick makes of the ledger. */
  lemma ReconciledLedger(s: State, id: string, runId: string, phase: Phase, now: int) returns (m: Ledger)
    requires Idle(s) && NoneOpen(s.ledger.strategyProposals) && now >= 10
    ensures var l := RunningState(s, id, runId, phase).ledger;
      && CoordinatorMutator(l, LIVE, now) == Some(m)
      && m == l.(acceptedPlans := [ReconciledPlan(id, runId, now)] + s.ledger.acceptedPlans,
                 executionReceipts :=
                   [ReconciledReceipt(ClaimedBy(id, runId), Offer(id), now)] + s.ledger.executionReceipts,
                 loopPositions := LoopsAfter(s.ledger.loopPositions, id, now))
  {
    var l := RunningState(s, id, runId, phase).ledger;
    assert ExpireProposals(l.strategyProposals, now) == l.strategyProposals;
    assert l.(strategyProposals := l.strategyProposals) == l;
    assert ProposalWithId(id)(l.strategyProposals[0]);
    OfferAppearsOnChain(id);
    m := ReconcileOne(l, now, 0);
    assert m.acceptedPlans == [ReconciledPlan(id, runId, now)] + s.ledger.acceptedPlans;
    ReconcileTail(m, now, 1);
    var open := (x: Proposal) => x.status.Open?;
    assert FindIndex(m.strategyProposals, open) == |m.strategyProposals|;
  }

  lemma TickSaves(s: State, m: Ledger)
    requires CoordinatorMutator(s.ledger, LIVE, s.now) == Some(m)
    ensures var t := Apply(LIVE, s, Coordinate);
      && t.ledger == Prune(m) && t.attempts == s.attempts
      && t.hist.receipts == s.hist.receipts + ReceiptProposals(NewReceipts(s.ledger, m))
      && t.hist.inserted == s.hist.inserted && t.hist.keys == s.hist.keys
  {
  }

  /** The snapshot already shows the borrow and the supply, so a later tick records the plan as executed. */
  lemma TickReconciles(s: State, id: string, runId: string, phase: Phase, now: int)
    requires Idle(s) && NoneOpen(s.ledger.strategyProposals) && now >= 10
    ensures var r := RunningState(s, id, runId, phase);
      var t := Apply(LIVE, r.(now := now), Coordinate);
      && t.attempts == r.attempts && t.hist.receipts == s.hist.receipts + multiset{id}
      && t.ledger.acceptedPlans == [ReconciledPlan(id, runId, now)] + s.ledger.acceptedPlans
      && t.ledger.loopPositions == LoopsAfter(s.ledger.loopPositions, id, now)
      && t.hist.inserted == r.hist.inserted && t.hist.keys == r.hist.keys
  {
    var m := ReconciledLedger(s, id, runId, phase, now);
    var receipt := ReconciledReceipt(ClaimedBy(id, runId), Offer(id), now);
    TickSaves(RunningState(s, id, runId, phase).(now := now), m);
    assert NewReceipts(s.ledger, m) == [receipt];
    assert ReceiptProposals([receipt]) == multiset{id} + ReceiptProposals([]);
  }

  lemma LateFinalise(t: State)
    requires t.attempts
          == [Attempt(ClaimedBy("a", "run"), Offer("a").(status := Accepted), Executor, "run", Running, 0)]
    requires |t.ledger.acceptedPlans| == 1 && t.ledger.acceptedPlans[0].id == PlanIdFor("a")
    requires HoldsClaim(t.ledger.acceptedPlans[0], Executor, "run")
    ensures var h := Apply(LIVE, t, Finalise(0, false)).hist;
      h.receipts == t.hist.receipts + multiset{"a"} && h.inserted == t.hist.inserted && h.keys == t.hist.keys
  {
    assert PlanWithId(PlanIdFor("a"))(t.ledger.acceptedPlans[0]);
    Fencing.FinaliseReceipts(LIVE, t, 0, false);
  }

  lemma LateSteps()
    ensures var s := RunningState(Run(LIVE, START), "a", "run", Running);
      Run(LIVE, LATE) == Apply(LIVE, Apply(LIVE, s.(now := 10), Coordinate), Finalise(0, false))
  {
    StartIsIdle();
    OfferReachesExecution(START, "a", "run");
    var steps := START + OfferSteps("a", "run");
    RunAppend(steps, Tick(10));
    RunAppend(steps + [Tick(10)], Coordinate);
    RunAppend(steps + [Tick(10)] + [Coordinate], Finalise(0, false));
  }

  /** One proposal, one claim, and still two receipts: the first by reconciliation, the second by the claimant. */
  lemma LateFinaliseWritesTwoReceipts()
    ensures DistinctProposals(LIVE, LATE) && DistinctClaims(LIVE, LATE)
    ensures Run(LIVE, LATE).hist.receipts["a"] == 2
  {
    StartIsIdle();
    TickReconciles(Run(LIVE, START), "a", "run", Running, 10);
    LateFinalise(Apply(LIVE, RunningState(Run(LIVE, START), "a", "run", Running).(now := 10), Coordinate));
    LateSteps();
  }

  // === A closed gate reported late ===

  function ClaimSteps(): seq<Step> { [Propose(Offer("a")), Coordinate, Claim(0, Executor, "run", None)] }

  const CLAIMED: seq<Step> := START + ClaimSteps()
  const LATE_REPORT: seq<Step> := CLAIMED + [Tick(1001)] + [Gate(0)] + [Coordinate] + [Block(0)]

  lemma ClaimedRun(steps: seq<Step>)
    requires Idle(Run(LIVE, steps))
    ensures Run(LIVE, steps + ClaimSteps()) == RunningState(Run(LIVE, steps), "a", "run", Claimed)
  {
    var s := Run(LIVE, steps);
    ProposeOffer(s, "a");
    AcceptOffer(s, "a");
    ClaimOffer(s, "a", "run");
    var t1 := steps + [Propose(Offer("a"))];
    var t2 := t1 + [Coordinate];
    RunAppend(steps, Propose(Offer("a")));
    RunAppend(t1, Coordinate);
    RunAppend(t2, Claim(0, Executor, "run", None));
    assert steps + ClaimSteps() == t2 + [Claim(0, Executor, "run", None)];
  }

  /** The offer has expired by the time its claimant comes to the gate. */
  lemma GateCloses(s: State)
    requires Idle(s)
    ensures Apply(LIVE, RunningState(s, "a", "run", Claimed).(now := 1001), Gate(0))
         == RunningState(s, "a", "run", Blocked).(now := 1001)
  {
  }

  lemma LateReportSteps()
    ensures var s := RunningState(Run(LIVE, START), "a", "run", Blocked);
      Run(LIVE, LATE_REPORT) == Apply(LIVE, Apply(LIVE, s.(now := 1001), Coordinate), Block(0))
  {
    StartIsIdle();
    ClaimedRun(START);
    GateCloses(Run(LIVE, START));
    RunAppend(CLAIMED, Tick(1001));
    RunAppend(CLAIMED + [Tick(1001)], Gate(0));
    RunAppend(CLAIMED + [Tick(1001)] + [Gate(0)], Coordinate);
    RunAppend(CLAIMED + [Tick(1001)] + [Gate(0)] + [Coordinate], Block(0));
  }

  lemma LateReport(t: State)
    requires t.attempts
          == [Attempt(ClaimedBy("a", "run"), Offer("a").(status := Accepted), Executor, "run", Blocked, 0)]
    requires |t.ledger.acceptedPlans| == 1 && t.ledger.acceptedPlans[0].id == PlanIdFor("a")
    requires HoldsClaim(t.ledger.acceptedPlans[0], Executor, "run")
    ensures var r := Apply(LIVE, t, Block(0));
      && r.ledger.acceptedPlans == [t.ledger.acceptedPlans[0].(status := Failed)]
      && r.ledger.loopPositions == t.ledger.loopPositions && r.hist == t.hist
  {
    assert PlanWithId(PlanIdFor("a"))(t.ledger.acceptedPlans[0]);
  }

  /** A plan that was reconciled as executed, with its receipt and its loop, ends up failed. */
  lemma LateReportFailsAnExecutedPlan()
    ensures var s := Run(LIVE, LATE_REPORT);
      && |s.ledger.acceptedPlans| == 1 && s.ledger.acceptedPlans[0].status.Failed?
      && s.ledger.acceptedPlans[0].executionReceiptId.Some? && s.hist.receipts["a"] == 1
      && |s.ledger.loopPositions| == 1 && s.ledger.loopPositions[0].proposalId == "a"
  {
    StartIsIdle();
    TickReconciles(Run(LIVE, START), "a", "run", Blocked, 1001);
    LateReport(Apply(LIVE, RunningState(Run(LIVE, START), "a", "run", Blocked).(now := 1001), Coordinate));
    LateReportSteps();
  }

  // === A null health factor ===

  /**
   * A fresh loop whose borrow is dust, rounded down to nothing, where nothing is owed: the projected health
   * factor is infinite, and null once stored.
   */
  function Unbounded(): Proposal {
    Offer("x").(
      proposalType := OpenLoop, rawCollateralAmount := "1000000", rawBorrowAmount := "0", borrowUsd := 0.0,
      sourcePositionId := None, projectedHealthFactor := Infinite)
  }

  const BOUND: seq<Step> := START + [Propose(Unbounded())]
  const STUCK: seq<Step> := BOUND + ClaimSteps() + [Tick(10)]

  lemma UnboundedStored()
    ensures var s := Run(LIVE, BOUND);
      && Idle(s) && s.ledger.strategyProposals == [Unbounded().(projectedHealthFactor := Null)]
      && s.ledger.acceptedPlans == [] && s.ledger.positionSnapshots == [Positions(2.0, 2.0)]
  {
    StartIsIdle();
    RunAppend(START, Propose(Unbounded()));
    OfferPasses("x", Run(LIVE, START).ledger);
    UnboundedPasses(Run(LIVE, START).ledger);
  }

  lemma UnboundedPasses(l: Ledger)
    requires ValidateLoopProposal(Offer("x"), l, LIVE, 0).Allowed?
    ensures ValidateLoopProposal(Unbounded(), l, LIVE, 0).Allowed?
  {
    Policy.ValidatorAllowsExactly(Offer("x"), l, LIVE, 0);
    Policy.ValidatorAllowsExactly(Unbounded(), l, LIVE, 0);
    assert Policy.RecentMarket(Unbounded(), l, LIVE, 0) <==> Policy.RecentMarket(Offer("x"), l, LIVE, 0);
    assert Policy.RecentPositions(Unbounded(), l, LIVE, 0) <==> Policy.RecentPositions(Offer("x"), l, LIVE, 0);
  }

  lemma StuckState()
    ensures var s := Run(LIVE, BOUND);
      Run(LIVE, STUCK) == RunningState(s, "a", "run", Claimed).(now := 10)
  {
    UnboundedStored();
    ClaimedRun(BOUND);
    RunAppend(BOUND + ClaimSteps(), Tick(10));
  }

  lemma StuckSettles(s: State)
    requires s.now == 10 && |s.ledger.acceptedPlans| == 1 && s.ledger.acceptedPlans[0] == ClaimedBy("a", "run")
    ensures ClaimExpired(s.ledger.acceptedPlans[0], s.now)
    ensures !HasActivePlan(Policy.Settled(s.ledger, LIVE, s.now).acceptedPlans)
  {
    var l := s.ledger.(strategyProposals := ExpireProposals(s.ledger.strategyProposals, 10));
    assert ReconcileFrom(l, 10, 0) == ReconcileFrom(ReconcileOne(l, 10, 0), 10, 1) == ReconcileOne(l, 10, 0);
  }

  lemma StuckThrows(s: State)
    requires s.now == 10
    requires s.ledger.strategyProposals
          == [Offer("a").(status := Accepted), Unbounded().(projectedHealthFactor := Null)]
    ensures Policy.ThrowsOn(s.ledger, LIVE, s.now, 1)
  {
  }

  lemma StuckLedger()
    ensures var s := Run(LIVE, STUCK);
      && s.now == 10 && |s.ledger.acceptedPlans| == 1 && s.ledger.acceptedPlans[0] == ClaimedBy("a", "run")
      && s.ledger.strategyProposals == [Offer("a").(status := Accepted), Unbounded().(projectedHealthFactor := Null)]
  {
    UnboundedStored();
    StuckState();
  }

  /**
   * A proposal with an infinite health factor is stored, a newer one is accepted and claimed, and the claim
   * runs out. The tick that should reconcile it throws on the stored null: the plan stays executing.
   */
  lemma NullHealthLosesTheReconciliation()
    ensures var s := Run(LIVE, STUCK);
      && |s.ledger.acceptedPlans| == 1 && ClaimExpired(s.ledger.acceptedPlans[0], s.now)
      && !HasActivePlan(Policy.Settled(s.ledger, LIVE, s.now).acceptedPlans)
      && Run(LIVE, STUCK + [Coordinate]) == s
  {
    StuckLedger();
    var s := Run(LIVE, STUCK);
    StuckSettles(s);
    StuckThrows(s);
    Policy.ThrowingTickSavesNothing(LIVE, s, 1);
    RunAppend(STUCK, Coordinate);
  }

  // === Two collateral-side locks ===

  function Loop(id: string, status: LoopStatus): LoopPosition {
    NewLoop(PlanIdFor(id), Offer(id), 0, status)
  }

  function FinishedPlan(id: string, runId: string): Plan {
    ClaimedBy(id, runId).(status := Executed, executionReceiptId := Some(ReceiptId(PlanIdFor(id), 0, false)))
  }

  lemma FinishOffer(s: State, id: string, runId: string)
    requires Idle(s)
    ensures var t := Apply(LIVE, RunningState(s, id, runId, Running), Finalise(0, false));
      && t.attempts == [] && t.now == 0
      && t.ledger.marketSnapshots == s.ledger.marketSnapshots
      && t.ledger.positionSnapshots == s.ledger.positionSnapshots && t.ledger.riskLocks == s.ledger.riskLocks
      && t.ledger.strategyProposals == [Offer(id).(status := Accepted)] + s.ledger.strategyProposals
      && t.ledger.acceptedPlans == [FinishedPlan(id, runId)] + s.ledger.acceptedPlans
      && t.ledger.loopPositions == [Loop(id, Active)] + s.ledger.loopPositions
      && |t.ledger.executionReceipts| == |s.ledger.executionReceipts| + 1
  {
    var r := RunningState(s, id, runId, Running);
    assert PlanWithId(PlanIdFor(id))(r.ledger.acceptedPlans[0]);
    assert r.ledger.acceptedPlans[0 := FinishedPlan(id, runId)]
        == [FinishedPlan(id, runId)] + s.ledger.acceptedPlans;
  }

  /** A snapshot and a guard tick on a ledger with few entries. */
  function Watched(s: State, p: PositionSnapshot): State { Apply(LIVE, Apply(LIVE, s, CapturePositions(p)), Guard) }

  predicate Small(l: Ledger) {
    && |l.marketSnapshots| < 10 && |l.positionSnapshots| < 10 && |l.strategyProposals| < 10
    && |l.acceptedPlans| < 10 && |l.executionReceipts| < 10 && |l.riskLocks| < 10
  }

  lemma WatchedHealthy(s: State)
    requires Small(s.ledger)
    ensures Watched(s, Positions(2.0, 2.0)) == s.(ledger := s.ledger.(
      positionSnapshots := [Positions(2.0, 2.0)] + s.ledger.positionSnapshots,
      riskLocks := ClearLocks(s.ledger.riskLocks),
      loopPositions := ReactivateLoops(s.ledger.loopPositions, s.ledger.riskLocks)))
  {
    var isCritical := (e: ProtocolPositions) => IsCritical(e, LIVE);
    var ps := Positions(2.0, 2.0).protocols;
    assert !isCritical(ps[0]) && !isCritical(ps[1]);
    assert FindIndex(ps, isCritical) == 2;
  }

  lemma WatchedCritical(s: State, suilend: real, navi: real)
    requires Small(s.ledger) && (suilend == 0.5 || (suilend == 2.0 && navi == 0.5))
    requires !HasActiveLock(s.ledger.riskLocks)
    ensures var ps := Positions(suilend, navi).protocols;
      var e := if suilend == 0.5 then ps[0] else ps[1];
      Watched(s, Positions(suilend, navi)) == s.(ledger := s.ledger.(
        positionSnapshots := [Positions(suilend, navi)] + s.ledger.positionSnapshots,
        riskLocks := [RiskLock(s.now, true, true, Some(e.protocol), e.healthFactor)] + s.ledger.riskLocks,
        loopPositions := UnwindLoops(s.ledger.loopPositions)))
  {
    var isCritical := (e: ProtocolPositions) => IsCritical(e, LIVE);
    var ps := Positions(suilend, navi).protocols;
    if suilend == 0.5 {
      assert isCritical(ps[0]);
      assert FindIndex(ps, isCritical) == 0;
    } else {
      assert !isCritical(ps[0]) && isCritical(ps[1]);
      assert FindIndex(ps, isCritical) == 1;
    }
    var e := if suilend == 0.5 then ps[0] else ps[1];
    var k := FindIndex(s.ledger.riskLocks, LockFor(e.protocol));
    assert k == |s.ledger.riskLocks|;
  }

  function WatchSteps(suilend: real, navi: real): seq<Step> { [CapturePositions(Positions(suilend, navi)), Guard] }

  lemma RunWatched(steps: seq<Step>, suilend: real, navi: real)
    ensures Run(LIVE, steps + WatchSteps(suilend, navi)) == Watched(Run(LIVE, steps), Positions(suilend, navi))
  {
    var t := steps + [CapturePositions(Positions(suilend, navi))];
    RunAppend(steps, CapturePositions(Positions(suilend, navi)));
    RunAppend(t, Guard);
    assert steps + WatchSteps(suilend, navi) == t + [Guard];
  }

  const FIRST: seq<Step> := START + OfferSteps("a", "r1") + [Finalise(0, false)]
  const STRANDED: seq<Step> := FIRST + WatchSteps(2.0, 0.5) + WatchSteps(2.0, 2.0)
  const SECOND: seq<Step> := STRANDED + OfferSteps("b", "r2") + [Finalise(0, false)]
  const REOPENED: seq<Step> := SECOND + WatchSteps(0.5, 2.0) + WatchSteps(2.0, 2.0)

  lemma FirstLoopOpens()
    ensures var s := Run(LIVE, FIRST);
      && s.attempts == [] && s.now == 0 && s.ledger.marketSnapshots == [MARKET]
      && s.ledger.positionSnapshots == [Positions(2.0, 2.0)] && s.ledger.riskLocks == []
      && s.ledger.strategyProposals == [Offer("a").(status := Accepted)]
      && s.ledger.acceptedPlans == [FinishedPlan("a", "r1")] && |s.ledger.executionReceipts| == 1
      && s.ledger.loopPositions == [Loop("a", Active)]
  {
    StartIsIdle();
    OfferReachesExecution(START, "a", "r1");
    FinishOffer(Run(LIVE, START), "a", "r1");
    RunAppend(START + OfferSteps("a", "r1"), Finalise(0, false));
  }

  /** The Navi lock unwinds the Suilend loop, and clearing it does not bring the loop back. */
  lemma FirstLoopStranded()
    ensures var s := Run(LIVE, STRANDED);
      Idle(s) && Small(s.ledger) && s.ledger.strategyProposals == [Offer("a").(status := Accepted)]
      && s.ledger.acceptedPlans == [FinishedPlan("a", "r1")]
      && |s.ledger.executionReceipts| == 1 && |s.ledger.riskLocks| == 1 && |s.ledger.positionSnapshots| == 3
      && s.ledger.loopPositions == [Loop("a", Unwinding)]
  {
    FirstLoopOpens();
    RunWatched(FIRST, 2.0, 0.5);
    WatchedCritical(Run(LIVE, FIRST), 2.0, 0.5);
    var s2 := Run(LIVE, FIRST + WatchSteps(2.0, 0.5));
    assert s2.ledger.loopPositions == [Loop("a", Unwinding)];
    assert !IsLocked(s2.ledger.riskLocks, Suilend);
    RunWatched(FIRST + WatchSteps(2.0, 0.5), 2.0, 2.0);
    WatchedHealthy(s2);
    assert Run(LIVE, STRANDED).ledger.loopPositions == [Loop("a", Unwinding)];
    CountCons(Loop("a", Unwinding), [], CountsAgainstCapacity);
  }

  // === An id offered twice ===

  const MASKED: seq<Step> := STRANDED + OfferSteps("a", "r2") + [Tick(10)] + [Coordinate]

  /**
   * While the first loop waits under its plan id, a second plan with that id is executed on chain and
   * reconciled: it gets its receipt and no loop position, so the limit counts one loop where there are two.
   */
  lemma RepeatedIdHidesALoop()
    ensures var l := Run(LIVE, MASKED).ledger;
      && l.acceptedPlans == [ReconciledPlan("a", "r2", 10), FinishedPlan("a", "r1")]
      && l.loopPositions == [Loop("a", Unwinding)]
  {
    FirstLoopStranded();
    OfferReachesExecution(STRANDED, "a", "r2");
    TickReconciles(Run(LIVE, STRANDED), "a", "r2", Running, 10);
    assert LoopOfPlan(PlanIdFor("a"))(Loop("a", Unwinding));
    RunAppend(STRANDED + OfferSteps("a", "r2"), Tick(10));
    RunAppend(STRANDED + OfferSteps("a", "r2") + [Tick(10)], Coordinate);
  }

  lemma SecondLoopOpens()
    ensures var s := Run(LIVE, SECOND);
      Small(s.ledger) && |s.ledger.riskLocks| < 9 && |s.ledger.positionSnapshots| < 9
      && !HasActiveLock(s.ledger.riskLocks) && !HasActivePlan(s.ledger.acceptedPlans)
      && s.ledger.loopPositions == [Loop("b", Active), Loop("a", Unwinding)]
  {
    FirstLoopStranded();
    OfferReachesExecution(STRANDED, "b", "r2");
    FinishOffer(Run(LIVE, STRANDED), "b", "r2");
    RunAppend(STRANDED + OfferSteps("b", "r2"), Finalise(0, false));
  }

  lemma BothUnwinding()
    ensures var s := Run(LIVE, SECOND + WatchSteps(0.5, 2.0));
      Small(s.ledger) && !HasActivePlan(s.ledger.acceptedPlans) && IsLocked(s.ledger.riskLocks, Suilend)
      && s.ledger.loopPositions == [Loop("b", Unwinding), Loop("a", Unwinding)]
  {
    SecondLoopOpens();
    var s1 := Run(LIVE, SECOND);
    RunWatched(SECOND, 0.5, 2.0);
    WatchedCritical(s1, 0.5, 2.0);
    var s2 := Watched(s1, Positions(0.5, 2.0));
    assert s2.ledger.riskLocks[0].active && s2.ledger.riskLocks[0].protocol == Some(Suilend);
    assert UnwindLoops(s1.ledger.loopPositions) == [Loop("b", Unwinding), Loop("a", Unwinding)];
  }

  lemma BothReopened()
    ensures var l := Run(LIVE, REOPENED).ledger;
      l.loopPositions == [Loop("b", Active), Loop("a", Active)] && !HasActivePlan(l.acceptedPlans)
  {
    BothUnwinding();
    RunWatched(SECOND + WatchSteps(0.5, 2.0), 2.0, 2.0);
    WatchedHealthy(Run(LIVE, SECOND + WatchSteps(0.5, 2.0)));
  }

  /** Locking and clearing Suilend then reopens both loops: two open loops under a limit of one. */
  lemma ClearingTwoProtocolsExceedsTheLimit()
    ensures InUse(Run(LIVE, REOPENED).ledger) == 2 && Limit(LIVE) == 1
  {
    BothReopened();
    CountCons(Loop("b", Active), [Loop("a", Active)], CountsAgainstCapacity);
    CountCons(Loop("a", Active), [], CountsAgainstCapacity);
  }
}
