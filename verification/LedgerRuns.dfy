/**
 * Whole runs of the subagent pipeline: every interleaving of the roles' ledger updates, of the
 * unlocked stretches between claim, gate and finalisation, and of crashes. A run is a list of steps
 * whose parameters carry every nondeterministic choice; a step that is not enabled changes nothing.
 */
module LedgerRuns {
  import opened Prelude
  import opened StrategyLedger
  import opened Subagents

  /**
   * One call of `claimAndExecuteAcceptedPlan` after it has claimed: it holds no lock while it is here.
   * `plan` and `proposal` are the copies made at claim time; `record` says which plan record was claimed.
   */
  datatype Phase = Claimed | Blocked | Running
  datatype Attempt = Attempt(
    plan: Plan, proposal: Proposal, actor: Actor, runId: string, phase: Phase, record: int)

  datatype ClaimKey = ClaimKey(planId: string, actor: Actor, runId: string)

  function KeyOf(a: Attempt): ClaimKey { ClaimKey(a.plan.id, a.actor, a.runId) }

  /** What has happened so far, by proposal id; nothing here is ever pruned or read by a step. */
  datatype History = History(
    inserted: multiset<string>, accepted: multiset<string>, claimed: multiset<string>,
    entered: multiset<string>, receipts: multiset<string>, keys: multiset<ClaimKey>, late: set<ClaimKey>)

  const NO_HISTORY := History(multiset{}, multiset{}, multiset{}, multiset{}, multiset{}, multiset{}, {})

  datatype State = State(ledger: Ledger, attempts: seq<Attempt>, now: int, hist: History)

  const INIT := State(EMPTY_LEDGER, [], 0, NO_HISTORY)

  datatype Step =
    | Tick(ms: nat)
    | CaptureMarket(market: MarketSnapshot)
    | CapturePositions(positions: PositionSnapshot)
    | Propose(proposal: Proposal)
    | Coordinate
    | Claim(at: int, actor: Actor, runId: string, planId: Option<string>)
    | Gate(attempt: nat)
    | Block(attempt: nat)
    | Finalise(attempt: nat, failed: bool)
    | Crash(attempt: nat)
    | Guard

  function ReceiptProposals(rs: seq<Receipt>): multiset<string> {
    if rs == [] then multiset{} else multiset{rs[0].proposalId} + ReceiptProposals(rs[1..])
  }

  /** The receipts a mutator put in front of the ones that were there. */
  function NewReceipts(before: Ledger, after: Ledger): seq<Receipt> {
    if |after.executionReceipts| <= |before.executionReceipts| then []
    else after.executionReceipts[..|after.executionReceipts| - |before.executionReceipts|]
  }

  function NewPlans(before: Ledger, after: Ledger): multiset<string> {
    if |after.acceptedPlans| > |before.acceptedPlans| then multiset{after.acceptedPlans[0].proposalId} else multiset{}
  }

  /** Plan records are numbered in the order of acceptance; the newest, number `|accepted| - 1`, is first in the list. */
  function PlanRecord(s: State, k: int): int { |s.hist.accepted| - 1 - k }

  function DoPropose(s: State, cfg: Config, p: Proposal): State {
    s.(ledger := Prune(ProposeMutator(s.ledger, p, cfg, s.now)),
       hist := s.hist.(inserted := s.hist.inserted + multiset{p.id}))
  }

  predicate OutOfTime(a: Attempt, now: int) {
    a.plan.claimExpiresAt.None? || a.plan.claimExpiresAt.value <= now
  }

  /** The attempts still at work whose claim has run out: a live tick may give up on their plans. */
  function LateKeys(attempts: seq<Attempt>, cfg: Config, now: int): set<ClaimKey> {
    if cfg.dryRun then {} else set a | a in attempts && OutOfTime(a, now) :: KeyOf(a)
  }

  function DoCoordinate(s: State, cfg: Config): State {
    match CoordinatorMutator(s.ledger, cfg, s.now)
    case None => s
    case Some(l) =>
      s.(ledger := Prune(l),
         hist := s.hist.(accepted := s.hist.accepted + NewPlans(s.ledger, l),
                         receipts := s.hist.receipts + ReceiptProposals(NewReceipts(s.ledger, l)),
                         late := s.hist.late + LateKeys(s.attempts, cfg, s.now)))
  }

  /** `at` is the clock reading taken before the lock was acquired. */
  function DoClaim(s: State, cfg: Config, at: int, actor: Actor, runId: string, planId: Option<string>): State {
    if at > s.now then s
    else
      var out := ClaimMutator(s.ledger, cfg, at, actor, runId, planId);
      match out.claimed
      case None => s.(ledger := Prune(out.ledger))
      case Some((plan, p)) =>
        s.(ledger := Prune(out.ledger),
           attempts := s.attempts
             + [Attempt(plan, p, actor, runId, Claimed, PlanRecord(s, ClaimCandidate(s.ledger, cfg, at, planId)))],
           hist := s.hist.(claimed := s.hist.claimed + multiset{plan.proposalId},
                           keys := s.hist.keys + multiset{ClaimKey(plan.id, actor, runId)}))
  }

  /** The gate reads the ledger without the lock; only a passed gate reaches the protocol calls. */
  function DoGate(s: State, cfg: Config, k: nat): State {
    if k >= |s.attempts| || !s.attempts[k].phase.Claimed? then s
    else
      var a := s.attempts[k];
      match ValidateExecutorGate(a.proposal, s.ledger, cfg, s.now)
      case Throws => s.(attempts := Without(s.attempts, k))
      case Denied(_) => s.(attempts := s.attempts[k := a.(phase := Blocked)])
      case Allowed =>
        s.(attempts := s.attempts[k := a.(phase := Running)],
           hist := s.hist.(entered := s.hist.entered + multiset{a.plan.proposalId}))
  }

  function DoBlock(s: State, k: nat): State {
    if k >= |s.attempts| || !s.attempts[k].phase.Blocked? then s
    else
      var a := s.attempts[k];
      s.(ledger := Prune(BlockMutator(s.ledger, a.plan.id, a.actor, a.runId)), attempts := Without(s.attempts, k))
  }

  /** A dry run makes no protocol call, so it cannot fail. */
  function DoFinalise(s: State, cfg: Config, k: nat, failed: bool): State {
    if k >= |s.attempts| || !s.attempts[k].phase.Running? then s
    else
      var a := s.attempts[k];
      var l := FinaliseMutator(s.ledger, a.plan, a.proposal, a.actor, a.runId, cfg, s.now, failed && !cfg.dryRun);
      s.(ledger := Prune(l), attempts := Without(s.attempts, k),
         hist := s.hist.(receipts := s.hist.receipts + ReceiptProposals(NewReceipts(s.ledger, l))))
  }

  function DoCrash(s: State, k: nat): State {
    if k < |s.attempts| then s.(attempts := Without(s.attempts, k)) else s
  }

  function DoGuard(s: State, cfg: Config): State {
    s.(ledger := Prune(GuardMutator(s.ledger, cfg, s.now)))
  }

  function DoCaptureMarket(s: State, m: MarketSnapshot): State {
    s.(ledger := Prune(s.ledger.(marketSnapshots := [m] + s.ledger.marketSnapshots)))
  }

  function DoCapturePositions(s: State, p: PositionSnapshot): State {
    s.(ledger := Prune(s.ledger.(positionSnapshots := [p] + s.ledger.positionSnapshots)))
  }

  function Apply(cfg: Config, s: State, step: Step): State {
    match step
    case Tick(ms) => s.(now := s.now + ms)
    case CaptureMarket(m) => DoCaptureMarket(s, m)
    case CapturePositions(p) => DoCapturePositions(s, p)
    case Propose(p) => DoPropose(s, cfg, p)
    case Coordinate => DoCoordinate(s, cfg)
    case Claim(at, actor, runId, planId) => DoClaim(s, cfg, at, actor, runId, planId)
    case Gate(k) => DoGate(s, cfg, k)
    case Block(k) => DoBlock(s, k)
    case Finalise(k, failed) => DoFinalise(s, cfg, k, failed)
    case Crash(k) => DoCrash(s, k)
    case Guard => DoGuard(s, cfg)
  }

  /** The state after a run, from the empty ledger. */
  function Run(cfg: Config, steps: seq<Step>): State {
    if steps == [] then INIT else Apply(cfg, Run(cfg, steps[..|steps| - 1]), steps[|steps| - 1])
  }

  /** The state in which step `k` of the run is taken. */
  function Before(cfg: Config, steps: seq<Step>, k: nat): State
    requires k <= |steps|
  {
    Run(cfg, steps[..k])
  }

  lemma RunSnoc(cfg: Config, steps: seq<Step>, k: nat)
    requires k < |steps|
    ensures Run(cfg, steps[..k + 1]) == Apply(cfg, Before(cfg, steps, k), steps[k])
  {
    assert steps[..k + 1][..k] == steps[..k];
  }
}
