# Lending agent: a Dafny model of its core

The repository is an autonomous lending agent on Sui: a set of subagents that share one strategy ledger, an
allocation solver, an attested decision pipeline with an on-chain treasury, and a tool loop around a language
model. This project models its decision code in Dafny and proves what it guarantees over whole runs and whole
transactions, and exactly where it does not.

* **Strategy ledger** (`StrategyLedger`, `Subagents`, `LedgerStore`). The decisions handed to the ledger's
  `update` are functions on the document; `LedgerStore` holds the document as an object whose methods change it
  in place and are proved equal to those functions. `LedgerRuns` puts them together as a state machine: every
  interleaving of proposal, coordinator tick, claim, gate, blocked write, finalisation, guard tick, snapshot,
  crash and passing time. Claim, gate, execution and finalisation are separate steps because the code drops the
  lock between them. On top of it stand `ActivePlan`, `Policy`, `RiskLocks`, `Conservation` and `SingleReceipt`
  (counts by proposal id), `Records` (the same record by record, because ids can repeat), `Fencing`,
  `FencedRuns`, `ExecutedPlans`, `Capacity`, `OneProtocol`, `Reserved` and `Counterexamples`; `UpdateLock` is
  the lock file itself.
* **Sizing** of proposals (`Sizing`) and decimal amounts (`Amounts`).
* **Allocator** (`Curves`, `WaterFilling`, `NearOptimal`, `Dilutions`, `StraightLines`, `Solver`, `SolverLaws`)
  in exact arithmetic with the code's fixed iteration counts and floors.
* **Decision pipeline** (`Treasury`, `Decide`, `SupplyTx`, `Pipeline`) and its wire format (`Bcs`,
  `ActionIntent`).
* **Tool loop** and its translation to Anthropic messages (`Conversation`).

`Prelude` holds the shared vocabulary. `dafny verify dfyconfig.toml` checks everything.

## Findings

Places where the code does less than one would expect of it, each with the lemmas that show it and say exactly
when it happens.

* A live claimant that finalises after its expired claim was reconciled writes a second receipt and opens a
  second loop: the finalisation checks the claim fields, which reconciliation leaves in place, and not the plan
  status (`Counterexamples.LateFinaliseWritesTwoReceipts`). In the same way a closed gate that is reported late
  turns an executed plan into a failed one (`Counterexamples.LateReportFailsAnExecutedPlan`).
  `Records.OneReceiptPerRecordIffNoStale` and `ExecutedPlans.OneOfEachIff` say which runs are affected.
* Reconciliation opens no loop position when one is stored under the same plan id, and plan ids repeat when
  proposal ids do (within a run the main agent numbers its proposals by the length of a list that stops growing at 100): the
  second loop is then on chain without a position, and the limit does not see it
  (`Counterexamples.RepeatedIdHidesALoop`; exact condition in `ExecutedPlans.OneOfEachIff`).
* With locks on two collateral protocols, clearing them can reopen more loops than `maxConcurrentLoops`
  (`Counterexamples.ClearingTwoProtocolsExceedsTheLimit`). The validator counts loops in use; what counts is
  every loop not yet closed plus the plan in flight: more than the limit of those is what snapshots and guard
  ticks can turn into an excess (`Reserved.WatchingExceedsIff`), and checking it before every acceptance and
  every late finalisation is what keeps the limit (`Reserved.SafeIffRoom`).
* Three or more pools that have nothing borrowed and pay the same reward make the solver allocate more than the
  budget (`SolverLaws.EqualPoolsOverspend`), and the resulting transaction aborts (`Pipeline.EqualPoolsAbort`):
  the repair takes the excess from one leg only, so it keeps the budget exactly when the overshoot is at most
  the largest leg (`SolverLaws.SolveWithinBudgetIff`). Before the call one can check that the caps of all curves
  but the largest fit the budget: that is enough for any curves (`SolverLaws.FittingCapsNeverOverspend`,
  `Pipeline.FittingCapsExecute`) and exact on such pools (`SolverLaws.EqualRewardsFitIff`).
* A budget that covers all caps fills every leg to its cap, even where a smaller deposit would earn strictly more
  (`StraightLines.FilledBeyondItsBest`; `NearOptimal.OverfilledLegIsBeaten` says when, and
  `NearOptimal.WaterFillNearOptimal` by how much at most).
* A proposal whose infinite health factor has become `null` in the stored JSON makes the validator throw while
  it formats the denial, and the coordinator tick with it: nothing is saved, not even the reconciliation of an
  expired claim (`Policy.CoordinatorThrowsExactly`, `Policy.ThrowingTickSavesNothing`,
  `Counterexamples.NullHealthLosesTheReconciliation`).
* The hand-rolled encoder reduces out-of-range numbers where the schema encoder refuses them
  (`ActionIntent.OutOfRangeWraps`, `ActionIntent.HandRolledMatchesSchema`).
* A comment in the solver says marginal yield decreases with the deposit. A deposit that crosses a convex kink
  can raise it (`StraightLines.KinkRaisesTheMarginal`). So does depositing more beyond twice the pool on a
  straight line, but for rounding noise (`StraightLines.MarginalRisesBeyondTwice`), and in any such pool of at
  least one token unit and a hundred million raw units it is strictly higher at nine times the pool than at three
  times
  (`StraightLines.LargePoolsRise`, with `StraightLines.LargePoolRises` for an instance). It does not rise where
  nothing is borrowed (`StraightLines.FlatMarginal`) nor, rounding noise apart, on the fallback line up to twice
  the pool (`StraightLines.MarginalHardlyRises`). The optimality theorem therefore names concavity as a
  hypothesis.
* `computeDeployable` only asks that some agent capability is active, while the vault asks for the one named:
  with budget granted and commands to send, they go through if and only if the two agree
  (`Pipeline.DecidedLegsExecute`, `Pipeline.MismatchAborts`).
* `formatUnits` prints the sign of a negative fraction after the dot, so that minus 1.50 is read back as minus
  1.05 and minus 1.5 is refused (`Amounts.NegativeExamples`, exact condition in `Amounts.RoundTripIff`).

## Model

| member | source | states |
|---|---|---|
| LedgerStore.LedgerDocument.PruneLedger | agent/src/core/strategyLedger.ts:540-548 | in place: every list keeps its newest entries up to its cap, loop positions are never pruned |
| LedgerStore.LedgerDocument.InsertProposal | agent/src/core/subagents.ts:295-303 | in place: the proposal goes to the front, rejected at once when the validator does not allow it |
| LedgerStore.LedgerDocument.ExpireOpenProposals | agent/src/core/subagents.ts:604-615 | in place: exactly the open proposals at or past their expiry become expired, and the returned count is their number |
| LedgerStore.LedgerDocument.ReconcileExpiredExecutingPlans | agent/src/core/subagents.ts:1354-1462 | in place: the loop over plans does what `ReconcileFrom` says, entry by entry, touching plans, receipts and loops only |
| LedgerStore.LedgerDocument.RunCoordinator | agent/src/core/subagents.ts:604-695 | in place: expire, reconcile, then accept or reject one proposal; when the validator throws, the caller learns it and nothing is to be saved |
| LedgerStore.LedgerDocument.ClaimAcceptedPlan | agent/src/core/subagents.ts:721-756 | in place: which plan is claimed, what the claim writes, and the copies handed to the caller |
| LedgerStore.LedgerDocument.FailBlockedPlan | agent/src/core/subagents.ts:766-773 | in place: the plan fails only while it still carries the caller's claim |
| LedgerStore.LedgerDocument.FinaliseExecution | agent/src/core/subagents.ts:849-879 | in place: receipt, plan status and loop position, behind the claim fence and nothing else |
| LedgerStore.LedgerDocument.ClearCriticalLocks | agent/src/core/subagents.ts:924-936 | in place: active critical locks become inactive and the protocols they were on are collected |
| LedgerStore.LedgerDocument.ReactivateClearedLoops | agent/src/core/subagents.ts:937-944 | in place: exactly the unwinding loops on a cleared protocol become active |
| LedgerStore.LedgerDocument.UnwindActiveLoops | agent/src/core/subagents.ts:985-992 | in place: exactly the active loops become unwinding |
| LedgerStore.LedgerDocument.RunUnwindGuard | agent/src/core/subagents.ts:909-1001 | in place: the whole tick: clear and reactivate, refresh one lock, or add a lock and unwind |
| Policy.ValidatorAllowsExactly | agent/src/core/subagents.ts:1194-1280 | the cascade of denials allows a proposal if and only if it meets a list of order-free conditions on itself, the ledger and the time |
| Policy.ValidatorThrowsExactly | agent/src/core/subagents.ts:1227-1231 | the validator raises if and only if an otherwise well-formed, unexpired proposal has a health factor that was infinite before it went through JSON, under a positive floor |
| Policy.CoordinatorThrowsExactly | agent/src/core/subagents.ts:604-695 | on any ledger a coordinator tick throws if and only if the health floor is positive, no plan is active once the tick has reconciled, and the newest open unexpired proposal is well formed with a null health factor |
| Policy.ThrowingTickSavesNothing | agent/src/core/strategyLedger.ts:264-272 | such a tick leaves the whole state as it was: its expiries and its reconciliation are lost with it |
| Counterexamples.NullHealthLosesTheReconciliation | agent/src/core/subagents.ts:604-695 | a concrete live run: a proposal with an infinite health factor is stored, a newer one is claimed and its claim runs out; the tick that would settle the plan throws and the plan stays executing |
| Policy.GateAllowsExactly | agent/src/core/subagents.ts:1282-1311 | the executor gate allows if and only if live switches are on and the same conditions hold, plans aside |
| Policy.FundsMoveOnlyThroughOpenGate | agent/src/core/subagents.ts:762-785 | in any state, reachable or not: the fund-moving section is entered one claimed attempt at a time, and only when the gate conditions hold of its proposal and the ledger at that moment |
| Policy.AcceptsOnlyTheNewestSound | agent/src/core/subagents.ts:639-677 | on any ledger: a coordinator tick accepts at most one proposal, the newest open unexpired one, sound at that moment, with no risk lock active; it writes exactly that acceptance |
| ActivePlan.ActivePlanIsHead | agent/src/core/subagents.ts:639-677 | in every reachable ledger at most one plan is accepted or executing, it is the first of the list, and pruning to 100 keeps it |
| ActivePlan.InactiveForever | agent/src/core/subagents.ts:721-756 | over any stretch of any run each stored plan is tracked to its new position, and one that left the two active statuses never returns to them |
| ActivePlan.ReconcileKeepsPlans | agent/src/core/subagents.ts:1394-1462 | reconciliation keeps the list length and every plan's identity and revives none |
| Records.EachPlanMovesFundsOnce | agent/src/core/subagents.ts:785-831 | live runs, any interleaving, crash, clock and repetition of ids: each plan record enters the fund-moving section no more often than it is claimed, and is claimed at most once |
| Records.EachProposalIsAcceptedOnce | agent/src/core/subagents.ts:645-677 | dry or live, whatever the ids: each proposal record is accepted at most once |
| Records.OneReceiptPerRecordIffNoStale | agent/src/core/subagents.ts:849-879 | in any run: every plan record gets at most one receipt if and only if no finalisation passes the fence on a plan that already carries one |
| Conservation.LawsHold | agent/src/core/subagents.ts:597-896 | in every reachable state, per proposal id: the counting laws over insertions, open proposals, acceptances, unclaimed plans, claims, attempts in flight and entries |
| SingleReceipt.ReceiptsBounded | agent/src/core/subagents.ts:849-879 | without assumptions on ids: absent such finalisations, loops <= receipts <= acceptances <= insertions per id |
| Fencing.BasicsHold | agent/src/core/subagents.ts:740-756 | in every run: plan ids derive from proposal ids, inactive plans hold no live claim, and attempts in flight are recorded |
| Fencing.FencedPlanIsOurs | agent/src/core/subagents.ts:850-854 | the plan a fenced write lands on belongs to the writer's own proposal |
| FencedRuns.FencedRunsHaveNoStaleFinalise | agent/src/core/subagents.ts:849-854 | with distinct (plan, actor, run) claim keys, a dry run has no such finalisation, nor has a live run whose finalisations come before the first coordinator tick after their claim expired |
| FencedRuns.FencedRunsWriteOneReceipt | agent/src/core/subagents.ts:849-879 | hence at most one receipt and one loop position per proposal, even when an expired claim is reclaimed and the first claimant finishes late |
| FencedRuns.HeldThroughout | agent/src/core/subagents.ts:1346-1352 | the invariant: a plan held by a claimant that is not late has no receipt, and in a live run is still executing under the same expiry |
| FencedRuns.DryRunsAreTimely | agent/src/core/subagents.ts:1395-1397 | dry runs never reconcile, so no claimant of one is ever late |
| ExecutedPlans.OneOfEachIff | agent/src/core/subagents.ts:766-879 | in any run, ids repeating or not: at every point each stored plan has, record by record, at most one receipt and one loop position and is `executed` exactly when it has one of each, if and only if no finalisation lands on a plan with a receipt, no report of a closed gate on an executed plan, and no reconciliation finds a loop already stored under its plan id |
| ExecutedPlans.FencedRunsHaveNoLateWrite | agent/src/core/subagents.ts:766-879 | with distinct claim keys neither of the first two happens in a dry run, nor in a live run whose claimants write before a tick finds their claim expired |
| ExecutedPlans.DistinctIdsMaskNothing | agent/src/core/subagents.ts:1430-1452 | nor the third when no id is proposed twice and there are no late writes |
| ExecutedPlans.FencedRunsHaveOneOfEach | agent/src/core/subagents.ts:766-879 | so such runs keep one of each for every plan at every point |
| Counterexamples.LateFinaliseWritesTwoReceipts | agent/src/core/subagents.ts:849-879 | a concrete live run, one proposal and one claim, in which a late finalisation follows reconciliation and writes a second receipt |
| Counterexamples.LateReportFailsAnExecutedPlan | agent/src/core/subagents.ts:766-773 | a concrete live run in which a closed gate, reported late, turns a plan that was reconciled as executed, with its receipt and its loop, into a failed one |
| Counterexamples.RepeatedIdHidesALoop | agent/src/core/subagents.ts:1430-1452 | a concrete live run in which an id is offered again while its first loop is still stored: the second plan is reconciled as executed, with a receipt, and no loop position is opened for it |
| Reserved.WatchingExceedsIff | agent/src/core/subagents.ts:909-1001 | from a reachable state some sequence of position snapshots and guard ticks exceeds the loop limit if and only if the loops not yet closed plus the plan in flight exceed it |
| Reserved.AlarmOpensEverything | agent/src/core/subagents.ts:937-992 | the sequence: a critical snapshot on each protocol, then a healthy one, a guard tick after each; afterwards everything reserved is in use |
| Reserved.SafeIffRoom | agent/src/core/subagents.ts:1261-1268 | in any run: no state it passes through can be so brought over the limit if and only if every acceptance, and every successful finalisation of a plan no longer in flight, found less reserved than the limit |
| Capacity.TimelyFinalisesExecuting | agent/src/core/subagents.ts:862-878 | timely live runs with distinct claim keys finalise only plans that are still executing |
| OneProtocol.OneProtocolCapacity | agent/src/core/subagents.ts:937-944 | with one collateral protocol the limit holds although clearing a lock reopens loops |
| OneProtocol.TimelyOneProtocolCapacity | agent/src/core/subagents.ts:985-992 | the same for live runs from the assumptions on claim keys and timing |
| Counterexamples.ClearingTwoProtocolsExceedsTheLimit | agent/src/core/subagents.ts:937-944 | a concrete run with two collateral protocols in which clearing locks leaves two open loops under a limit of one |
| RiskLocks.LocksInvariant | agent/src/core/subagents.ts:922-984 | in every reachable state the active locks are a prefix of the list, critical, one per protocol and among its first three entries |
| RiskLocks.GuardTickIsExact | agent/src/core/subagents.ts:909-1001 | after every guard tick with a snapshot, a lock is active if and only if the latest snapshot has a borrowed position with finite health factor at or below critical; the first such protocol is locked |
| RiskLocks.PruneKeepsActiveLocks | agent/src/core/strategyLedger.ts:546 | pruning to 100 drops no active lock |
| RiskLocks.ActiveLockBlocks | agent/src/core/subagents.ts:1255-1257 | while any lock is active no plan is accepted and no attempt passes the executor gate |
| UpdateLock.MutualExclusionIffNeverSteals | agent/src/core/strategyLedger.ts:274-333 | updates of one process, interleaved at their await points: at most one is inside its critical section at every moment if and only if no try finds the lock file five stale periods old |
| UpdateLock.UpdatesAreSequential | agent/src/core/strategyLedger.ts:264-272 | then the saved document is the mutators, each followed by pruning, applied one after another in lock-acquisition order, each saved update exactly once |
| UpdateLock.ShortSectionsExclude | agent/src/core/strategyLedger.ts:309-333 | if every task is out again before five stale periods have passed since it got the lock, no lock file is removed under its holder and there is one holder at every moment |
| UpdateLock.StealingLosesAnUpdate | agent/src/core/strategyLedger.ts:309-333 | a concrete interleaving in which a stolen lock loses a write |
| Sizing.CappedBorrowIsGreatest | agent/src/core/subagents.ts:1610-1617 | a raw borrow is within the result if and only if it respects both the raw cap and the dollar amount |
| Sizing.PlannedBorrowIsGreatest | agent/src/core/subagents.ts:1559-1572 | a positive dollar borrow is within the plan if and only if it respects the cap, the capacity fraction and the projected health floor |
| Sizing.ExistingCollateralPassesSizeChecks | agent/src/core/subagents.ts:1108-1192 | every existing-collateral proposal the builder returns passes the validator's asset, protocol, source, health and amount checks, whatever the ledger and time |
| Sizing.BuiltProposalsPassAmounts | agent/src/core/subagents.ts:1010-1106 | whichever of the two builders is used: protocols are as the validator wants them and the borrow and collateral amounts pass its caps |
| Sizing.FreshLoopStaysWithinCaps | agent/src/core/subagents.ts:1029-1100 | every fresh proposal stays within the borrow caps, the collateral cap and the wallet's raw USDC when known |
| Amounts.FormatParseRoundTrip | agent/src/utils/amounts.ts:1-20 | parsing what was printed gives the raw amount back, for every amount and precision |
| Amounts.FormatIsInjective | agent/src/utils/amounts.ts:1-14 | distinct amounts print differently |
| Amounts.FractionIsCanonical | agent/src/utils/amounts.ts:11-13 | the printed fraction has between one and `decimals` digits and never ends in zero |
| Amounts.RoundTripIff | agent/src/utils/amounts.ts:1-20 | for every integer amount and precision the round trip holds if and only if the amount is not negative, or whole, or its fraction printed with its sign has exactly `decimals` characters |
| Amounts.NegativeFormatted | agent/src/utils/amounts.ts:1-20 | what every negative amount is read back as: itself, or one digit short, or not at all |
| Amounts.NegativeExamples | agent/src/utils/amounts.ts:1-20 | -0.05 comes back, -1.5 is refused, -1.50 comes back as -1.05 |
| Curves.ScanBorrowApr | agent/src/core/allocation.ts:95-128 | the scan over a sorted copy computes the interpolation |
| Curves.SortKeepsPoints | agent/src/core/allocation.ts:96 | sorting permutes the control points |
| Curves.BorrowAprRises | agent/src/core/allocation.ts:95-128 | for rates rising along sorted utilisation: the rate is monotone across segments and stays between the least and greatest control point |
| Curves.SupplyAprRises | agent/src/core/allocation.ts:131-134 | the base supply rate is non-negative and rises with utilisation |
| Curves.UtilizationFalls | agent/src/core/allocation.ts:137-148 | a deposit never raises utilisation |
| Curves.OwnImpactNeverFavourable | agent/src/core/allocation.ts:155-158 | x <= y implies netSupplyApr(x) >= netSupplyApr(y) >= the reward rate |
| Curves.FallbackReproducesSpot | agent/src/core/allocation.ts:187-199 | the fallback line passes through the operating point |
| Curves.ValidatedCurveIsCalibrated | agent/src/core/allocation.ts:206-219 | for any candidate points the curve in use is within max(0.5, 15% of |spot|) of the spot rate at the current utilisation |
| Curves.DerivedFactorReproducesSupply | agent/src/core/allocation.ts:168-179 | with the fallback line the derived reserve factor reproduces spot supply exactly if and only if that lies between 5% and 100% of borrow rate times utilisation |
| WaterFilling.BisectNarrows | agent/src/core/allocation.ts:334-381 | after any number of halvings an end that moved carries its verdict and the bracket is that many times halved |
| WaterFilling.SolveMarginalEquals | agent/src/core/allocation.ts:359-383 | the bisection loop computes `SolveX` |
| WaterFilling.BracketXKept | agent/src/core/allocation.ts:373-381 | the search keeps marginal(lo) > level >= marginal(hi) and ends with hi - lo = cap / 2^60 |
| WaterFilling.WaterFill | agent/src/core/allocation.ts:320-356 | the bisection over the level computes `Fill` |
| WaterFilling.LevelBracketed | agent/src/core/allocation.ts:334-353 | the search keeps total(hi) <= budget, and lo = 0 or total(lo) > budget, and ends 2^80 times narrower than the highest first-unit marginal |
| WaterFilling.FillWithinCaps | agent/src/core/allocation.ts:320-356 | every allocation is between zero and its cap |
| WaterFilling.EqualFlatPoolsAllFill | agent/src/core/allocation.ts:341-355 | pools with the same constant marginal are each filled to the cap, whatever their caps and the budget |
| NearOptimal.WaterFillNearOptimal | agent/src/core/allocation.ts:320-383 | for concave interest with the finite-difference marginal as slope, up to a slack: no split within the caps placing no more earns more than the returned one by more than, summed over legs, half the bracket width times the marginal's drop across it plus four slacks when the budget is below total capacity, and the cap times what the marginal there is below zero plus one slack when it is not |
| NearOptimal.LegNearOptimal | agent/src/core/allocation.ts:359-383 | the same for one leg at any level, net of the level as a price per unit |
| NearOptimal.OverfilledLegIsBeaten | agent/src/core/allocation.ts:328-331 | at full capacity, a leg whose marginal at some smaller deposit is negative enough earns strictly more with that deposit, and so does the whole split |
| NearOptimal.FlatPoolsAreConcave | agent/src/core/allocation.ts:390-400 | the hypothesis is met with no slack by pools with nothing borrowed |
| StraightLines.StraightLinesAreConcave | agent/src/core/allocation.ts:390-400 | the hypothesis is met, with an explicit slack for finite difference and floors, by the straight line of the fallback when the cap is at most twice what the pool holds |
| StraightLines.StraightPoolsNearOptimal | agent/src/core/allocation.ts:320-383 | so on such pools water-filling is near-optimal with nothing assumed of the interest |
| StraightLines.FallbackIsStraight | agent/src/core/allocation.ts:187-199 | the fallback is such a line for every spot rate that is not negative |
| StraightLines.MarginalHardlyRises | agent/src/core/allocation.ts:390-400 | on such a line, while deposits stay within twice the pool, depositing more does not raise the marginal yield by more than twice an explicit rounding noise |
| StraightLines.MarginalRisesBeyondTwice | agent/src/core/allocation.ts:390-400 | on a line that pays something, beyond twice the pool: depositing more raises the marginal yield but for twice the noise, and strictly wherever the rise of the unrounded marginal, which is always strict, exceeds that |
| StraightLines.LargePoolsRise | agent/src/core/allocation.ts:390-400 | on every such line, in a pool of at least one token unit and a hundred million raw units, the marginal yield with its floors is strictly higher at nine times the pool than at three times |
| StraightLines.LargePoolRises | agent/src/core/allocation.ts:390-400 | one such pool and pair: a thousand units of a six-decimal token, three thousand and nine thousand |
| StraightLines.FilledBeyondItsBest | agent/src/core/allocation.ts:328-331 | a line without reward capped at four times its pool is filled to the cap when the budget covers it, although a deposit the size of the pool earns strictly more |
| StraightLines.FlatMarginal | agent/src/core/allocation.ts:390-400 | with nothing borrowed the marginal is the reward rate at every deposit |
| StraightLines.KinkRaisesTheMarginal | agent/src/core/allocation.ts:390-400 | a concrete curve with a kink whose marginal is negative at seven units and zero at nine |
| Dilutions.MarginalMoves | agent/src/core/allocation.ts:390-400 | flooring deposits to raw units moves the finite difference of a diluted pool by no more than the noise |
| Solver.SolveAllocation | agent/src/core/allocation.ts:228-311 | the pruning loop computes `Solve`, with reported rates and iteration counts, and always returns from inside: the fallback after it is unreachable for every input |
| Solver.PruneOutcome | agent/src/core/allocation.ts:264-296 | what pruning hands on: no positive minimum, at most one funded leg, or every funded leg at or above the minimum |
| Solver.FindSmallestDust | agent/src/core/allocation.ts:280-289 | the scan finds the first of the smallest positive sizes below the minimum, or none |
| Solver.FindLargest | agent/src/core/allocation.ts:496-506 | the scan finds the first of the largest amounts |
| Solver.Repair | agent/src/core/allocation.ts:431-452 | in place: the rounding repair of the raw amounts, and the total it returns |
| Solver.RepairedWithinBudget | agent/src/core/allocation.ts:439-444 | the repaired total is within budget if and only if the overshoot is at most the largest amount; no amount grows by more than one unit per leg or drops below zero |
| Solver.RoundingIsPlaced | agent/src/core/allocation.ts:445-452 | a shortfall of at most one unit per leg is placed in full whenever something was placed |
| Solver.FinalizeAllocation | agent/src/core/allocation.ts:423-484 | the method computes `Finalize`: amounts, repair, positive legs with rounded net rate and share, largest first, blended and marginal rate |
| Solver.SortLegsKeeps | agent/src/core/allocation.ts:470 | sorting permutes the legs and keeps their total |
| Solver.PositiveLegsAre | agent/src/core/allocation.ts:454-469 | the legs add up to the amounts and each is a positive amount of its own curve, with that curve's rate and its share of the total |
| SolverLaws.SolveConserves | agent/src/core/allocation.ts:423-484 | legs are positive, largest first, add up to allocatedRaw, and allocatedRaw + unallocatedRaw = budgetRaw |
| SolverLaws.SolveWithinBudgetIff | agent/src/core/allocation.ts:431-444 | unallocatedRaw is non-negative if and only if the floored amounts overshoot the budget by no more than the largest of them |
| SolverLaws.FittingCapsNeverOverspend | agent/src/core/allocation.ts:256-262 | a condition on the request alone: when the caps of all curves but the largest add up to no more than the budget, the budget is never exceeded, for any rate curves and minimum position |
| SolverLaws.EqualRewardsFitIff | agent/src/core/allocation.ts:334-355 | the condition is exact on pools with nothing borrowed and the same reward, whatever their caps |
| SolverLaws.TwoCurvesNeverOverspend | agent/src/core/allocation.ts:256-262 | with at most two curves it always holds and the budget is never exceeded |
| SolverLaws.BlendedIsAMean | agent/src/core/allocation.ts:454-474 | the reported shares add up to one and the blended rate lies between the lowest and the highest rate of the legs, rounding included |
| SolverLaws.SolveRespectsCaps | agent/src/core/allocation.ts:256-262 | every leg is the repaired amount of one candidate with that candidate's protocol and net rate, within min(global cap, own cap, budget) of its curve; the largest leg alone may go beyond, by the shortfall it takes, at most one raw unit per candidate |
| SolverLaws.RoundingShortfallIsPlaced | agent/src/core/allocation.ts:445-452 | a shortfall of at most one unit per candidate leaves nothing unallocated |
| SolverLaws.CapForIsCapRaw | agent/src/core/allocation.ts:256-262 | the cap in token units converts back to exactly the smallest of the raw caps |
| SolverLaws.EqualPoolsOverspend | agent/src/core/allocation.ts:334-355 | n >= 2 pools with nothing borrowed, the same reward and no cap below the budget: allocatedRaw = (n - 1) * budgetRaw, more than the budget from three pools on |
| ActionIntent.U64Le | enclave/app/action_intent.ts:28-33 | the loop writes the value modulo 2^64, least significant byte first |
| ActionIntent.Uleb128 | enclave/app/action_intent.ts:34-39 | the do-while writes the ULEB128 form of the length modulo 2^32 |
| ActionIntent.AddressRoundTrip | enclave/app/action_intent.ts:41-45 | the 64-digit text of 32 bytes parses back to them |
| ActionIntent.HandRolledMatchesSchema | enclave/app/action_intent.ts:47-70 | for well-formed addresses: the hand-rolled envelope equals the generic struct encoding of the declared schema when every field is in range, and otherwise the schema has no encoding |
| ActionIntent.PayloadFields | agent/src/core/actionIntent.ts:25-66 | field by field: the schema encodes a field if and only if it is in range, and then as the hand-rolled bytes |
| ActionIntent.EnvelopeRoundTrip | enclave/app/action_intent.ts:68-70 | a schema decoder recovers every in-range intent and timestamp from the envelope and consumes exactly its bytes |
| ActionIntent.EnvelopeIsInjective | enclave/app/action_intent.ts:68-70 | equal envelopes, even with more bytes behind them, mean equal timestamps, intents (up to the spelling of addresses) and rests |
| ActionIntent.OutOfRangeWraps | enclave/app/action_intent.ts:27-33 | out of range numbers are reduced, not refused: the bytes are those of the wrapped intent |
| Bcs.UlebIsMinimal | enclave/app/action_intent.ts:34-39 | the ULEB128 form is a group sequence of the value, and no other one is shorter |
| Bcs.ReadUlebOfUleb | enclave/app/action_intent.ts:34-39 | reading undoes writing and leaves what follows |
| Bcs.UlebOfReadUleb | enclave/app/action_intent.ts:34-39 | the reader accepts nothing but the shortest form |
| Bcs.DecodeAfterEncode | agent/src/core/actionIntent.ts:25-46 | for every schema and value, decoding undoes encoding and leaves exactly the rest |
| Bcs.EncodeAfterDecode | agent/src/core/actionIntent.ts:25-46 | for every schema, what the decoder reads encodes to exactly what it consumed |
| Bcs.EncodingIsPrefixFree | agent/src/core/actionIntent.ts:25-46 | encodings of different values differ, even with more bytes behind them |
| Treasury.DeployableIsGreatest | agent/src/clients/chain/treasuryClient.ts:75-99 | a positive amount passes the vault's expiry, period and funds checks if and only if canSupply holds and it is at most deployableRaw |
| Treasury.ReleaseTakesItsAmount | move/packages/core/sources/capability.move:177-209 | a release takes exactly its amount off what is left (for a window of positive length) |
| Treasury.HeadroomLater | agent/src/clients/chain/treasuryClient.ts:86-89 | with unchanged state what is left never shrinks as time passes |
| Treasury.ExecutesIffWithinHeadroom | move/packages/core/sources/decision.move:122-173 | authorised commands with ascending nonces all pass when their total fits what is left, and for a window of positive length only then |
| Treasury.ExecutedState | move/packages/core/sources/capability.move:177-209 | a transaction that goes through leaves the funds less its total and the last nonce |
| SupplyTx.BuildVerifiedAllocationTx | agent/src/core/verifiedSupplyTx.ts:247-276 | appends one command per leg in order to what the transaction holds, and stops with the right error at the first leg without refs |
| Pipeline.FundedIsEverything | enclave/app/decide.ts:46-49 | the filter on funded legs drops nothing the solver returned |
| Pipeline.LegAuthorised | enclave/app/decide.ts:58-80 | each decided leg meets every check that does not depend on earlier commands: signature, treasury, agent, expiry, action, adapter, per-transaction cap |
| Pipeline.DecidedLegs | enclave/app/decide.ts:36-80 | as many legs as the solver's, non-negative amounts totalling at most allocatedRaw, nonces strictly ascending from the base |
| Pipeline.SignatureHolds | enclave/app/decide.ts:79 | what the enclave signed is what the vault re-derives from the fields of the command |
| Pipeline.DecidedLegsExecute | agent/src/core/treasuryTools.ts:163-258 | end to end: budget, solver, decision, refs filter, transaction: when the solver does not overshoot by more than its largest amount and the base nonce is fresh, the commands pass every check in order, now or at any later time before expiry with unchanged state, if and only if there are none or the configured agent capability is the vault's active one |
| Pipeline.MismatchAborts | move/packages/core/sources/capability.move:185-186 | commands naming a capability other than the active one are refused, whatever the signatures and amounts |
| Pipeline.FittingCapsExecute | agent/src/core/treasuryTools.ts:163-258 | the same if and only if from a condition on the request alone: the caps of all curves but the largest fit the budget |
| Pipeline.TwoCurvesExecute | agent/src/core/treasuryTools.ts:163-258 | the same if and only if, with no hypothesis on the solver, for at most two curves |
| Pipeline.EqualPoolsAbort | agent/src/core/treasuryTools.ts:163-258 | with three or more such pools, all of them submittable and a period of positive length, the decided transaction aborts |
| Conversation.ToOpenAIResponse | agent/src/clients/http/anthropicResponsesClient.ts:95-112 | the loop over reply blocks computes the output items and the joined text |
| Conversation.ToAnthropicMessages | agent/src/clients/http/anthropicResponsesClient.ts:63-92 | the loop over items computes `Translate` |
| Conversation.TranslationIsTheGrouping | agent/src/clients/http/anthropicResponsesClient.ts:63-92 | for any input: the translation is the only list of non-empty messages with alternating roles that reads, block by block, as the items do |
| Conversation.RunToolLoop | agent/src/core/autonomousAgent.ts:238-284 | the loop ends at the first reply without a call or after the last round, with the conversation, response and report that implies |
| Conversation.ReportIsTheText | agent/src/core/autonomousAgent.ts:365-370 | the report is the whole text of the last reply, empty if it has none: the sentence about used-up rounds is never reported |
| Conversation.WholeConversation | agent/src/core/autonomousAgent.ts:259-272 | the conversation of round n translates to the prompt followed, per round, by the reply's own blocks (empty text aside) and one result per call |
| Conversation.UsesAreCalls | agent/src/core/autonomousAgent.ts:361-363 | the ids of a reply's tool uses are, in order, the ids of the calls executed |
| Conversation.ProviderSees | agent/src/clients/http/anthropicResponsesClient.ts:63-92 | in every round the messages start and end with user, alternate, each assistant message's tool_use ids equal in order the tool_result ids of the next message, every earlier round is a prefix, and no block is lost or moved |

## Left out

- IEEE-754 rounding: rates, dollar values and token units are exact reals; `toRaw` and the sizing floors are kept, and raw amounts are unbounded integers except where the wire format wraps them.
- Text forms: timestamps are numbers, JSON values their canonical text, and number parsing covers optional sign and decimal digits but not the hexadecimal or whitespace forms `BigInt` also accepts.
- Record fields no decision reads: failure and rejection reasons, policy results, fingerprints, leg receipts, heartbeats, Walrus archives, tick summaries.
- Protocol calls: live execution is an arbitrary success, failure or crash between gate and finalisation.
- Proposals from the language model: any proposal may be inserted; only what the validator makes of it is modelled.
- The lock file between processes, process ids and file-system errors: `UpdateLock` covers the updates of one process.
- Legs carry protocol, amount, rate and share; the asset and coin type copied from the curve are not modelled, nor is `bestSingle`, since the code after the loop is never reached.
- WaterFilling.FillWithinCaps: needs non-negative caps, which `capFor` guarantees.
- NearOptimal.WaterFillNearOptimal: concavity is assumed up to a slack, not derived for every curve, because a convex kink breaks it; it is derived for flat pools and for the fallback line.
- FencedRuns.FencedRunsWriteOneReceipt: claim keys are assumed distinct, as the callers' run ids are meant to be.
- Signatures and hashes: signing is an arbitrary function of the envelope bytes and verification recomputes it; SHA-256 of the curves is an arbitrary byte string.
- Treasury.Release: an abstract vault with the checks the TypeScript comments name; custody of receipts, Pyth refresh commands and the protocol adapters are not modelled, only which adapter ids are registered.
- The request and response between agent and enclave: the intent is taken to arrive as it was sent.
- Solver copies: the enclave carries its own copy of the allocator, meant to be kept the same; it is modelled once.
- Reply blocks of kinds the adapter does not know, and text blocks without text, are dropped by the code and by `Conversation.Echo`.
- Conversation.ToAnthropicMessages: the list of messages is a value that is replaced, so sharing between a message and its content array is not captured.
- Front end, protocol SDK clients, price feeds, X posting, configuration, command-line scripts, attestation documents and the owner's withdrawal transactions.
