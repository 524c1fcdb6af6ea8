/**
 * The same laws record by record. Ids can repeat, so here a proposal or a plan is known by its number: the
 * records of a list that only grows at the front are numbered from the oldest, and the one at index `k` of a
 * list whose `n` records were ever made has number `n - 1 - k`, pruned or not.
 */
module Records {
  import opened Prelude
  import opened StrategyLedger
  import opened Subagents
  import opened LedgerRuns
  import opened Fencing
  import opened SingleReceipt

  // === What happened to which record, over a whole run ===

  type Event = (Config, State, Step) -> multiset<int>

  function Tally(cfg: Config, steps: seq<Step>, event: Event): multiset<int> {
    if steps == [] then multiset{}
    else
      var front := steps[..|steps| - 1];
      Tally(cfg, front, event) + event(cfg, Run(cfg, front), steps[|steps| - 1])
  }

  lemma {:induction false} TallyGrows(cfg: Config, steps: seq<Step>, k: nat, event: Event)
    requires k <= |steps|
    ensures Tally(cfg, steps[..k], event) <= Tally(cfg, steps, event)
    decreases |steps|
  {
    if k == |steps| {
      assert steps[..k] == steps;
    } else {
      var front := steps[..|steps| - 1];
      assert front[..k] == steps[..k];
      TallyGrows(cfg, front, k, event);
    }
  }

  function ProposalRecord(s: State, k: int): int { |s.hist.inserted| - 1 - k }

  /** The proposal record that a coordinator tick accepts. */
  function Accepting(cfg: Config, s: State, step: Step): multiset<int> {
    if !step.Coordinate? then multiset{}
    else
      match CoordinatorMutator(s.ledger, cfg, s.now)
      case None => multiset{}
      case Some(l) =>
        if |l.acceptedPlans| <= |s.ledger.acceptedPlans| then multiset{}
        else multiset{ProposalRecord(s, AcceptedIndex(s.ledger.strategyProposals, l.strategyProposals))}
  }

  /** Where a list of proposals became accepted. */
  function AcceptedIndex(before: seq<Proposal>, after: seq<Proposal>): (k: nat)
    ensures k <= |before|
  {
    if before == [] || after == [] then 0
    else if before[0].status.Open? && after[0].status.Accepted? then 0
    else 1 + AcceptedIndex(before[1..], after[1..])
  }

  /** The plan record that a claim takes. */
  function Claiming(cfg: Config, s: State, step: Step): multiset<int> {
    if step.Claim? && step.at <= s.now
       && ClaimMutator(s.ledger, cfg, step.at, step.actor, step.runId, step.planId).claimed.Some?
    then multiset{PlanRecord(s, ClaimCandidate(s.ledger, cfg, step.at, step.planId))}
    else multiset{}
  }

  /** The plan record whose claimant gets past the gate into the fund-moving section. */
  function Entering(cfg: Config, s: State, step: Step): multiset<int> {
    if step.Gate? && step.attempt < |s.attempts| && s.attempts[step.attempt].phase.Claimed?
       && ValidateExecutorGate(s.attempts[step.attempt].proposal, s.ledger, cfg, s.now).Allowed?
    then multiset{s.attempts[step.attempt].record}
    else multiset{}
  }

  /** The records of the plans, from index `k` on, that a tick turns from executing into executed. */
  function ReconciledRecords(before: seq<Plan>, after: seq<Plan>, n: int, k: nat): multiset<int>
    requires k <= |before| == |after|
    decreases |before| - k
  {
    if k == |before| then multiset{}
    else
      (if Settles(before[k], after[k]) then multiset{n - 1 - k} else multiset{})
      + ReconciledRecords(before, after, n, k + 1)
  }

  predicate Settles(p: Plan, q: Plan) { p.status.Executing? && q.status.Executed? }

  /** The plan records that get a receipt: by reconciliation or by a finalisation that passes the fence. */
  function Receipting(cfg: Config, s: State, step: Step): multiset<int> {
    match step
    case Coordinate =>
      (match CoordinatorMutator(s.ledger, cfg, s.now)
       case None => multiset{}
       case Some(l) =>
         if |l.acceptedPlans| < |s.ledger.acceptedPlans| then multiset{}
         else ReconciledRecords(s.ledger.acceptedPlans, l.acceptedPlans[|l.acceptedPlans| - |s.ledger.acceptedPlans|..],
                         |s.hist.accepted|, 0))
    case Finalise(k, _) =>
      if k < |s.attempts| && s.attempts[k].phase.Running? && FencedPlan(s, k).Some?
      then multiset{PlanRecord(s, FencedPlan(s, k).value)} else multiset{}
    case _ => multiset{}
  }

  // === A list of records, of which some are still unspent ===

  /**
   * Of `n` records ever made those in `xs` are still stored, newest first; each number is in the tally at
   * most once, and the number of a stored record that is still unspent is not in it.
   */
  ghost predicate Once<T(!new)>(xs: seq<T>, n: int, tally: multiset<int>, unspent: T -> bool) {
    && |xs| <= n
    && (forall m :: tally[m] <= 1 && (m < 0 || m >= n ==> tally[m] == 0))
    && (forall k :: 0 <= k < |xs| && unspent(xs[k]) ==> tally[n - 1 - k] == 0)
  }

  /** `ys` has the records of `xs`, none of them unspent again. */
  predicate NoneRestored<T>(xs: seq<T>, ys: seq<T>, unspent: T -> bool) {
    |ys| <= |xs| && forall k :: 0 <= k < |ys| && unspent(ys[k]) ==> unspent(xs[k])
  }

  lemma OnceKept<T(!new)>(xs: seq<T>, ys: seq<T>, n: int, tally: multiset<int>, unspent: T -> bool)
    requires Once(xs, n, tally, unspent) && NoneRestored(xs, ys, unspent)
    ensures Once(ys, n, tally, unspent)
  {
  }

  lemma OnceGrown<T(!new)>(x: T, xs: seq<T>, n: int, tally: multiset<int>, unspent: T -> bool)
    requires Once(xs, n, tally, unspent)
    ensures Once([x] + xs, n + 1, tally, unspent)
  {
    var ys := [x] + xs;
    forall k | 0 <= k < |ys| && unspent(ys[k]) ensures tally[n + 1 - 1 - k] == 0 {
      if k > 0 {
        assert ys[k] == xs[k - 1];
        assert n - 1 - (k - 1) == n + 1 - 1 - k;
      }
    }
  }

  /** Record `k` is spent: it was unspent before and is not any more. */
  lemma OnceSpent<T(!new)>(xs: seq<T>, ys: seq<T>, n: int, k: nat, tally: multiset<int>, unspent: T -> bool)
    requires Once(xs, n, tally, unspent) && NoneRestored(xs, ys, unspent) && |ys| == |xs|
    requires k < |xs| && unspent(xs[k]) && !unspent(ys[k])
    ensures Once(ys, n, tally + multiset{n - 1 - k}, unspent)
  {
    var after := tally + multiset{n - 1 - k};
    forall j | 0 <= j < |ys| && unspent(ys[j]) ensures after[n - 1 - j] == 0 {
      assert j != k;
    }
  }

  // === Proposals are accepted once ===

  function IsOpen(): Proposal -> bool { (p: Proposal) => p.status.Open? }

  ghost predicate ProposalsOnce(cfg: Config, s: State, tally: multiset<int>) {
    Once(s.ledger.strategyProposals, |s.hist.inserted|, tally, IsOpen())
  }

  lemma {:induction false} AcceptedIndexIs(before: seq<Proposal>, after: seq<Proposal>, k: nat)
    requires k < |before| == |after| && before[k].status.Open? && after[k].status.Accepted?
    requires forall j :: 0 <= j < k ==> !(before[j].status.Open? && after[j].status.Accepted?)
    ensures AcceptedIndex(before, after) == k
  {
    if k > 0 { AcceptedIndexIs(before[1..], after[1..], k - 1); }
  }

  /** Accepting changes at most the first open proposal, and adds a plan exactly when it accepts it. */
  lemma AcceptIs(l: Ledger, cfg: Config, now: int)
    requires AcceptMutator(l, cfg, now).Some?
    ensures var r := AcceptMutator(l, cfg, now).value;
      var k := FindIndex(l.strategyProposals, (p: Proposal) => p.status.Open?);
      || (r.strategyProposals == l.strategyProposals && |r.acceptedPlans| == |l.acceptedPlans|)
      || (k < |l.strategyProposals| && |r.acceptedPlans| == |l.acceptedPlans|
          && r.strategyProposals == l.strategyProposals[k := l.strategyProposals[k].(status := Rejected)])
      || (k < |l.strategyProposals| && |r.acceptedPlans| == |l.acceptedPlans| + 1
          && r.strategyProposals == l.strategyProposals[k := l.strategyProposals[k].(status := Accepted)])
  {
  }

  lemma FirstOpen(before: seq<Proposal>, now: int, k: nat, after: seq<Proposal>)
    requires k == FindIndex(ExpireProposals(before, now), (p: Proposal) => p.status.Open?) && k < |before|
    requires after == ExpireProposals(before, now)[k := before[k].(status := Accepted)]
    ensures AcceptedIndex(before, after) == k && before[k].status.Open? && !after[k].status.Open?
  {
    var isOpen := (p: Proposal) => p.status.Open?;
    assert isOpen(ExpireProposals(before, now)[k]);
    forall j | 0 <= j < k ensures !(before[j].status.Open? && after[j].status.Accepted?) {
      assert !isOpen(ExpireProposals(before, now)[j]);
    }
    AcceptedIndexIs(before, after, k);
  }

  lemma AcceptProposals(before: seq<Proposal>, mid: Ledger, cfg: Config, now: int)
    requires mid.strategyProposals == ExpireProposals(before, now) && AcceptMutator(mid, cfg, now).Some?
    ensures var r := AcceptMutator(mid, cfg, now).value;
      && |r.strategyProposals| == |before| && NoneRestored(before, r.strategyProposals, IsOpen())
      && (|r.acceptedPlans| > |mid.acceptedPlans| ==> AcceptsAt(before, r.strategyProposals))
  {
    var r := AcceptMutator(mid, cfg, now).value;
    var k := FindIndex(mid.strategyProposals, (p: Proposal) => p.status.Open?);
    AcceptIs(mid, cfg, now);
    if |r.acceptedPlans| > |mid.acceptedPlans| {
      var isOpen := (p: Proposal) => p.status.Open?;
      assert isOpen(mid.strategyProposals[k]) && mid.strategyProposals[k] == before[k];
      FirstOpen(before, now, k, r.strategyProposals);
    }
  }

  predicate AcceptsAt(before: seq<Proposal>, after: seq<Proposal>)
    requires |after| == |before|
  {
    var k := AcceptedIndex(before, after);
    k < |before| && before[k].status.Open? && !after[k].status.Open?
  }

  /** What a coordinator tick does to the proposals. */
  lemma CoordinatorProposals(l: Ledger, cfg: Config, now: int)
    ensures var out := CoordinatorMutator(l, cfg, now);
      out.Some? ==>
        var before, after := l.strategyProposals, out.value.strategyProposals;
        && |after| == |before| && NoneRestored(before, after, IsOpen())
        && (|out.value.acceptedPlans| > |l.acceptedPlans| ==> AcceptsAt(before, after))
  {
    var expired := l.(strategyProposals := ExpireProposals(l.strategyProposals, now));
    ReconcileLeaves(expired, now, 0);
    if CoordinatorMutator(l, cfg, now).Some? {
      AcceptProposals(l.strategyProposals, Reconcile(expired, cfg, now), cfg, now);
    }
  }

  lemma {:induction false} ReconcileLeaves(l: Ledger, now: int, k: nat)
    requires k <= |l.acceptedPlans|
    ensures ReconcileFrom(l, now, k).strategyProposals == l.strategyProposals
    ensures |ReconcileFrom(l, now, k).acceptedPlans| == |l.acceptedPlans|
    decreases |l.acceptedPlans| - k
  {
    if k < |l.acceptedPlans| { ReconcileLeaves(ReconcileOne(l, now, k), now, k + 1); }
  }

  ghost predicate KeepsProposalsOnce(cfg: Config, s: State, t: State, before: multiset<int>, after: multiset<int>) {
    ProposalsOnce(cfg, s, before) ==> ProposalsOnce(cfg, t, after)
  }

  lemma ProposeOnce(cfg: Config, s: State, p: Proposal, tally: multiset<int>)
    ensures KeepsProposalsOnce(cfg, s, DoPropose(s, cfg, p), tally, tally)
  {
    if ProposalsOnce(cfg, s, tally) {
      var x := InsertedProposal(p, s.ledger, cfg, s.now);
      var xs := [x] + s.ledger.strategyProposals;
      OnceGrown(x, s.ledger.strategyProposals, |s.hist.inserted|, tally, IsOpen());
      OnceKept(xs, Take(xs, MAX_PROPOSALS), |s.hist.inserted| + 1, tally, IsOpen());
    }
  }

  lemma TickKeepsProposals(before: seq<Proposal>, after: seq<Proposal>, n: int, tally: multiset<int>, accepts: bool)
    requires |after| == |before| && NoneRestored(before, after, IsOpen()) && Once(before, n, tally, IsOpen())
    requires accepts ==> AcceptsAt(before, after)
    ensures Once(Take(after, MAX_PROPOSALS), n,
                 tally + (if accepts then multiset{n - 1 - AcceptedIndex(before, after)} else multiset{}), IsOpen())
  {
    if accepts {
      OnceSpent(before, after, n, AcceptedIndex(before, after), tally, IsOpen());
      OnceKept(after, Take(after, MAX_PROPOSALS), n, tally + multiset{n - 1 - AcceptedIndex(before, after)}, IsOpen());
    } else {
      assert tally + multiset{} == tally;
      OnceKept(before, Take(after, MAX_PROPOSALS), n, tally, IsOpen());
    }
  }

  lemma CoordinateProposals(cfg: Config, s: State, l: Ledger)
    requires CoordinatorMutator(s.ledger, cfg, s.now) == Some(l)
    ensures DoCoordinate(s, cfg).ledger.strategyProposals == Take(l.strategyProposals, MAX_PROPOSALS)
    ensures DoCoordinate(s, cfg).hist.inserted == s.hist.inserted
    ensures Accepting(cfg, s, Coordinate)
         == if |l.acceptedPlans| > |s.ledger.acceptedPlans|
            then multiset{ProposalRecord(s, AcceptedIndex(s.ledger.strategyProposals, l.strategyProposals))}
            else multiset{}
  {
  }

  lemma TickOnce(
    cfg: Config, s: State, t: State, after: seq<Proposal>, accepts: bool, accepting: multiset<int>,
    tally: multiset<int>)
    requires t.ledger.strategyProposals == Take(after, MAX_PROPOSALS) && t.hist.inserted == s.hist.inserted
    requires |after| == |s.ledger.strategyProposals| && NoneRestored(s.ledger.strategyProposals, after, IsOpen())
    requires accepts ==> AcceptsAt(s.ledger.strategyProposals, after)
    requires accepting == if accepts then multiset{ProposalRecord(s, AcceptedIndex(s.ledger.strategyProposals, after))}
                          else multiset{}
    ensures KeepsProposalsOnce(cfg, s, t, tally, tally + accepting)
  {
    if ProposalsOnce(cfg, s, tally) {
      TickKeepsProposals(s.ledger.strategyProposals, after, |s.hist.inserted|, tally, accepts);
    }
  }

  lemma CoordinateOnce(cfg: Config, s: State, tally: multiset<int>)
    ensures KeepsProposalsOnce(cfg, s, DoCoordinate(s, cfg), tally, tally + Accepting(cfg, s, Coordinate))
  {
    var out := CoordinatorMutator(s.ledger, cfg, s.now);
    if out.None? {
      assert tally + Accepting(cfg, s, Coordinate) == tally;
    } else {
      CoordinatorProposals(s.ledger, cfg, s.now);
      CoordinateProposals(cfg, s, out.value);
      TickOnce(cfg, s, DoCoordinate(s, cfg), out.value.strategyProposals,
               |out.value.acceptedPlans| > |s.ledger.acceptedPlans|, Accepting(cfg, s, Coordinate), tally);
    }
  }

  lemma OtherStepProposals(cfg: Config, s: State, step: Step)
    requires !step.Propose? && !step.Coordinate?
    ensures var t := Apply(cfg, s, step);
      && t.hist.inserted == s.hist.inserted
      && (t.ledger.strategyProposals == s.ledger.strategyProposals
          || t.ledger.strategyProposals == Take(s.ledger.strategyProposals, MAX_PROPOSALS))
  {
    match step
    case Claim(at, actor, runId, planId) => ClaimKeepsProposals(cfg, s, at, actor, runId, planId);
    case Finalise(k, failed) => FinaliseKeepsProposals(cfg, s, k, failed);
    case _ =>
  }

  lemma ClaimKeepsProposals(cfg: Config, s: State, at: int, actor: Actor, runId: string, planId: Option<string>)
    ensures var t := DoClaim(s, cfg, at, actor, runId, planId);
      && t.hist.inserted == s.hist.inserted
      && (t.ledger.strategyProposals == s.ledger.strategyProposals
          || t.ledger.strategyProposals == Take(s.ledger.strategyProposals, MAX_PROPOSALS))
  {
  }

  lemma FinaliseKeepsProposals(cfg: Config, s: State, k: nat, failed: bool)
    ensures var t := DoFinalise(s, cfg, k, failed);
      && t.hist.inserted == s.hist.inserted
      && (t.ledger.strategyProposals == s.ledger.strategyProposals
          || t.ledger.strategyProposals == Take(s.ledger.strategyProposals, MAX_PROPOSALS))
  {
  }

  lemma SameProposalsOnce(cfg: Config, s: State, t: State, tally: multiset<int>)
    requires t.hist.inserted == s.hist.inserted
    requires t.ledger.strategyProposals == s.ledger.strategyProposals
      || t.ledger.strategyProposals == Take(s.ledger.strategyProposals, MAX_PROPOSALS)
    ensures KeepsProposalsOnce(cfg, s, t, tally, tally)
  {
    if ProposalsOnce(cfg, s, tally) {
      OnceKept(s.ledger.strategyProposals, t.ledger.strategyProposals, |s.hist.inserted|, tally, IsOpen());
    }
  }

  lemma OtherStepOnce(cfg: Config, s: State, step: Step, tally: multiset<int>)
    requires !step.Propose? && !step.Coordinate?
    ensures KeepsProposalsOnce(cfg, s, Apply(cfg, s, step), tally, tally)
  {
    OtherStepProposals(cfg, s, step);
    SameProposalsOnce(cfg, s, Apply(cfg, s, step), tally);
  }

  lemma StepOnce(cfg: Config, s: State, step: Step, tally: multiset<int>)
    ensures KeepsProposalsOnce(cfg, s, Apply(cfg, s, step), tally, tally + Accepting(cfg, s, step))
  {
    if !step.Coordinate? { assert tally + Accepting(cfg, s, step) == tally; }
    match step
    case Propose(p) => ProposeOnce(cfg, s, p, tally);
    case Coordinate => CoordinateOnce(cfg, s, tally);
    case _ => OtherStepOnce(cfg, s, step, tally);
  }

  lemma {:induction false} ProposalsOnceHolds(cfg: Config, steps: seq<Step>)
    ensures ProposalsOnce(cfg, Run(cfg, steps), Tally(cfg, steps, Accepting))
    decreases |steps|
  {
    if steps != [] {
      var front := steps[..|steps| - 1];
      ProposalsOnceHolds(cfg, front);
      StepOnce(cfg, Run(cfg, front), steps[|steps| - 1], Tally(cfg, front, Accepting));
    }
  }

  /** Dry or live, whatever the ids: each proposal record is accepted at most once. */
  lemma EachProposalIsAcceptedOnce(cfg: Config, steps: seq<Step>, record: int)
    ensures Tally(cfg, steps, Accepting)[record] <= 1
  {
    ProposalsOnceHolds(cfg, steps);
  }

  // === Plans of live runs are claimed once ===

  function IsAwaiting(): Plan -> bool { (p: Plan) => p.status.Awaiting? }

  ghost predicate PlansOnce(s: State, tally: multiset<int>, unspent: Plan -> bool) {
    Once(s.ledger.acceptedPlans, |s.hist.accepted|, tally, unspent)
  }

  ghost predicate KeepsPlansOnce(
    s: State, t: State, before: multiset<int>, after: multiset<int>, unspent: Plan -> bool)
  {
    PlansOnce(s, before, unspent) ==> PlansOnce(t, after, unspent)
  }

  /** The plans of a tick: perhaps a new one in front of the reconciled old ones. */
  lemma TickedPlansOnce(
    before: seq<Plan>, after: seq<Plan>, n: int, tally: multiset<int>, unspent: Plan -> bool)
    requires |before| <= |after| <= |before| + 1
    requires Once(after[|after| - |before|..], n, tally, unspent)
    ensures Once(Take(after, MAX_PLANS), n + |after| - |before|, tally, unspent)
  {
    var d := |after| - |before|;
    if d == 1 {
      OnceGrown(after[0], after[1..], n, tally, unspent);
      assert after == [after[0]] + after[1..];
    } else {
      assert after[0..] == after;
    }
    OnceKept(after, Take(after, MAX_PLANS), n + d, tally, unspent);
  }

  /** The state a tick leaves, as far as the plan records go. */
  lemma CoordinateState(cfg: Config, s: State, l: Ledger)
    requires CoordinatorMutator(s.ledger, cfg, s.now) == Some(l)
    ensures |s.ledger.acceptedPlans| <= |l.acceptedPlans| <= |s.ledger.acceptedPlans| + 1
    ensures var t := DoCoordinate(s, cfg);
      && t.ledger.acceptedPlans == Take(l.acceptedPlans, MAX_PLANS)
      && |t.hist.accepted| == |s.hist.accepted| + |l.acceptedPlans| - |s.ledger.acceptedPlans|
  {
    CoordinatorPlans(s.ledger, cfg, s.now);
  }

  lemma TickedAwaiting(
    before: seq<Plan>, after: seq<Plan>, n: int, cfg: Config, now: int, added: seq<Receipt>, tally: multiset<int>)
    requires TickPlans(before, after, cfg, now, added) && Once(before, n, tally, IsAwaiting())
    ensures Once(Take(after, MAX_PLANS), n + |after| - |before|, tally, IsAwaiting())
  {
    var d := |after| - |before|;
    var older := after[d..];
    forall k | 0 <= k < |older| && IsAwaiting()(older[k]) ensures IsAwaiting()(before[k]) {
      assert AfterTick(before[k], after[k + d], cfg, now, added);
    }
    OnceKept(before, older, n, tally, IsAwaiting());
    TickedPlansOnce(before, after, n, tally, IsAwaiting());
  }

  lemma TickedPlans(cfg: Config, s: State) returns (after: seq<Plan>, added: seq<Receipt>, m: int)
    requires CoordinatorMutator(s.ledger, cfg, s.now).Some?
    ensures TickPlans(s.ledger.acceptedPlans, after, cfg, s.now, added)
    ensures Take(after, MAX_PLANS) == DoCoordinate(s, cfg).ledger.acceptedPlans
    ensures m == |DoCoordinate(s, cfg).hist.accepted| == |s.hist.accepted| + |after| - |s.ledger.acceptedPlans|
  {
    var r := CoordinatorMutator(s.ledger, cfg, s.now).value;
    CoordinateState(cfg, s, r);
    CoordinatorPlans(s.ledger, cfg, s.now);
    after, added, m := r.acceptedPlans, NewReceipts(s.ledger, r), |DoCoordinate(s, cfg).hist.accepted|;
  }

  lemma CoordinateAwaiting(cfg: Config, s: State, tally: multiset<int>)
    ensures KeepsPlansOnce(s, DoCoordinate(s, cfg), tally, tally, IsAwaiting())
  {
    if PlansOnce(s, tally, IsAwaiting()) && CoordinatorMutator(s.ledger, cfg, s.now).Some? {
      var after, added, m := TickedPlans(cfg, s);
      TickedAwaiting(s.ledger.acceptedPlans, after, |s.hist.accepted|, cfg, s.now, added, tally);
    }
  }

  /** Rewriting one plan into one that is not awaiting. */
  lemma RewrittenAwaiting(before: seq<Plan>, k: nat, p: Plan, n: int, tally: multiset<int>)
    requires Once(before, n, tally, IsAwaiting()) && k < |before| && !p.status.Awaiting?
    ensures Once(Take(before[k := p], MAX_PLANS), n, tally, IsAwaiting())
    ensures before[k].status.Awaiting? ==>
      Once(Take(before[k := p], MAX_PLANS), n, tally + multiset{n - 1 - k}, IsAwaiting())
  {
    var after := before[k := p];
    OnceKept(before, Take(after, MAX_PLANS), n, tally, IsAwaiting());
    if before[k].status.Awaiting? {
      OnceSpent(before, after, n, k, tally, IsAwaiting());
      OnceKept(after, Take(after, MAX_PLANS), n, tally + multiset{n - 1 - k}, IsAwaiting());
    }
  }

  /** The plan list a claim leaves: as it was, or with plan `k` rewritten to `p`. */
  predicate Rewritten(before: seq<Plan>, after: seq<Plan>, k: nat, p: Plan) {
    k < |before| && after == Take(before[k := p], MAX_PLANS)
  }

  lemma ClaimShape(cfg: Config, s: State, at: int, actor: Actor, runId: string, planId: Option<string>)
    returns (p: Plan)
    ensures var t, k := DoClaim(s, cfg, at, actor, runId, planId), ClaimCandidate(s.ledger, cfg, at, planId);
      var before, after := s.ledger.acceptedPlans, t.ledger.acceptedPlans;
      var claiming := Claiming(cfg, s, Claim(at, actor, runId, planId));
      && t.hist.accepted == s.hist.accepted
      && (|| ((after == before || after == Take(before, MAX_PLANS)) && claiming == multiset{})
          || (Rewritten(before, after, k, p) && Claimable(before[k], cfg, at) && !p.status.Awaiting?
              && p.executionReceiptId == before[k].executionReceiptId
              && (claiming == multiset{} || claiming == multiset{|s.hist.accepted| - 1 - k})))
  {
    var k := ClaimCandidate(s.ledger, cfg, at, planId);
    p := if k < |s.ledger.acceptedPlans| then s.ledger.acceptedPlans[k] else NewPlan("", 0);
    if at <= s.now && k < |s.ledger.acceptedPlans| && Claimable(p, cfg, at) {
      p := if ClaimMutator(s.ledger, cfg, at, actor, runId, planId).claimed.Some?
           then ClaimedPlan(p, cfg, at, actor, runId) else p.(status := Failed);
    }
  }

  lemma ClaimAwaiting(
    cfg: Config, s: State, at: int, actor: Actor, runId: string, planId: Option<string>, tally: multiset<int>)
    requires !cfg.dryRun
    ensures KeepsPlansOnce(s, DoClaim(s, cfg, at, actor, runId, planId), tally,
                           tally + Claiming(cfg, s, Claim(at, actor, runId, planId)), IsAwaiting())
  {
    var before, n := s.ledger.acceptedPlans, |s.hist.accepted|;
    var k := ClaimCandidate(s.ledger, cfg, at, planId);
    var p := ClaimShape(cfg, s, at, actor, runId, planId);
    if PlansOnce(s, tally, IsAwaiting()) {
      assert tally + multiset{} == tally;
      OnceKept(before, Take(before, MAX_PLANS), n, tally, IsAwaiting());
      if k < |before| && !p.status.Awaiting? { RewrittenAwaiting(before, k, p, n, tally); }
    }
  }

  /** Blocking, finalising and the steps that leave the plans alone. */
  lemma OtherAwaiting(cfg: Config, s: State, step: Step, tally: multiset<int>)
    requires !step.Coordinate? && !step.Claim?
    ensures KeepsPlansOnce(s, Apply(cfg, s, step), tally, tally, IsAwaiting())
  {
    var t := Apply(cfg, s, step);
    if PlansOnce(s, tally, IsAwaiting()) {
      OtherPlans(cfg, s, step);
      OnceKept(s.ledger.acceptedPlans, t.ledger.acceptedPlans, |s.hist.accepted|, tally, IsAwaiting());
    }
  }

  lemma OtherPlans(cfg: Config, s: State, step: Step)
    requires !step.Coordinate? && !step.Claim?
    ensures Apply(cfg, s, step).hist.accepted == s.hist.accepted
    ensures NoneRestored(s.ledger.acceptedPlans, Apply(cfg, s, step).ledger.acceptedPlans, IsAwaiting())
  {
    match step
    case Block(k) => BlockShape(s, k);
    case Finalise(k, failed) =>
      if k < |s.attempts| && s.attempts[k].phase.Running? { FinalisedAwaiting(cfg, s, k, failed); }
    case _ =>
  }

  lemma FinalisedAwaiting(cfg: Config, s: State, k: nat, failed: bool)
    ensures NoneRestored(s.ledger.acceptedPlans, DoFinalise(s, cfg, k, failed).ledger.acceptedPlans, IsAwaiting())
  {
  }

  lemma StepAwaiting(cfg: Config, s: State, step: Step, tally: multiset<int>)
    requires !cfg.dryRun
    ensures KeepsPlansOnce(s, Apply(cfg, s, step), tally, tally + Claiming(cfg, s, step), IsAwaiting())
  {
    if !step.Claim? { assert tally + Claiming(cfg, s, step) == tally; }
    match step
    case Coordinate => CoordinateAwaiting(cfg, s, tally);
    case Claim(at, actor, runId, planId) => ClaimAwaiting(cfg, s, at, actor, runId, planId, tally);
    case _ => OtherAwaiting(cfg, s, step, tally);
  }

  lemma {:induction false} PlansOnceHolds(cfg: Config, steps: seq<Step>)
    requires !cfg.dryRun
    ensures PlansOnce(Run(cfg, steps), Tally(cfg, steps, Claiming), IsAwaiting())
    decreases |steps|
  {
    if steps != [] {
      var front := steps[..|steps| - 1];
      PlansOnceHolds(cfg, front);
      StepAwaiting(cfg, Run(cfg, front), steps[|steps| - 1], Tally(cfg, front, Claiming));
    }
  }

  // === Each claim enters once ===

  function UngatedOf(record: int): Attempt -> bool { (a: Attempt) => a.record == record && a.phase.Claimed? }

  /** Entries so far, plus claimants that have not come to the gate, never exceed claims. */
  predicate EntryLaw(s: State, entered: multiset<int>, claimed: multiset<int>, record: int) {
    entered[record] + Count(s.attempts, UngatedOf(record)) <= claimed[record]
  }

  predicate KeepsEntryLaw(
    cfg: Config, s: State, step: Step, entered: multiset<int>, claimed: multiset<int>, record: int)
  {
    EntryLaw(s, entered, claimed, record) ==>
      EntryLaw(Apply(cfg, s, step), entered + Entering(cfg, s, step), claimed + Claiming(cfg, s, step), record)
  }

  lemma AttemptsOnly(attempts: seq<Attempt>, k: nat, phase: Phase, record: int)
    requires k < |attempts|
    ensures Count(Without(attempts, k), UngatedOf(record)) + (if UngatedOf(record)(attempts[k]) then 1 else 0)
         == Count(attempts, UngatedOf(record))
    ensures !phase.Claimed? ==>
      Count(attempts[k := attempts[k].(phase := phase)], UngatedOf(record))
      + (if UngatedOf(record)(attempts[k]) then 1 else 0) == Count(attempts, UngatedOf(record))
  {
    CountRemove(attempts, k, UngatedOf(record));
    CountUpdate(attempts, k, attempts[k].(phase := phase), UngatedOf(record));
  }

  lemma GateEntry(cfg: Config, s: State, k: nat, entered: multiset<int>, claimed: multiset<int>, record: int)
    ensures KeepsEntryLaw(cfg, s, Gate(k), entered, claimed, record)
  {
    if k < |s.attempts| {
      AttemptsOnly(s.attempts, k, Blocked, record);
      AttemptsOnly(s.attempts, k, Running, record);
    }
  }

  lemma ClaimEntry(
    cfg: Config, s: State, at: int, actor: Actor, runId: string, planId: Option<string>,
    entered: multiset<int>, claimed: multiset<int>, record: int)
    ensures KeepsEntryLaw(cfg, s, Claim(at, actor, runId, planId), entered, claimed, record)
  {
    var t := DoClaim(s, cfg, at, actor, runId, planId);
    if t.attempts != s.attempts {
      var a := t.attempts[|s.attempts|];
      assert t.attempts == s.attempts + [a] && a.record == PlanRecord(s, ClaimCandidate(s.ledger, cfg, at, planId));
      AddedEntry(s.attempts, a, record);
    }
  }

  lemma AddedEntry(attempts: seq<Attempt>, a: Attempt, record: int)
    ensures Count(attempts + [a], UngatedOf(record))
         == Count(attempts, UngatedOf(record)) + if UngatedOf(record)(a) then 1 else 0
  {
    CountAppend(attempts, [a], UngatedOf(record));
    CountCons(a, [], UngatedOf(record));
  }

  lemma OtherEntry(cfg: Config, s: State, step: Step, entered: multiset<int>, claimed: multiset<int>, record: int)
    requires !step.Gate? && !step.Claim?
    ensures KeepsEntryLaw(cfg, s, step, entered, claimed, record)
  {
    var t := Apply(cfg, s, step);
    assert t.attempts == s.attempts
        || ((step.Block? || step.Finalise? || step.Crash?) && step.attempt < |s.attempts|
            && t.attempts == Without(s.attempts, step.attempt));
    if t.attempts != s.attempts { AttemptsOnly(s.attempts, step.attempt, Claimed, record); }
  }

  lemma StepEntry(cfg: Config, s: State, step: Step, entered: multiset<int>, claimed: multiset<int>, record: int)
    ensures KeepsEntryLaw(cfg, s, step, entered, claimed, record)
  {
    match step
    case Gate(k) => GateEntry(cfg, s, k, entered, claimed, record);
    case Claim(at, actor, runId, planId) => ClaimEntry(cfg, s, at, actor, runId, planId, entered, claimed, record);
    case _ => OtherEntry(cfg, s, step, entered, claimed, record);
  }

  lemma {:induction false} EntryLawHolds(cfg: Config, steps: seq<Step>, record: int)
    ensures EntryLaw(Run(cfg, steps), Tally(cfg, steps, Entering), Tally(cfg, steps, Claiming), record)
    decreases |steps|
  {
    if steps != [] {
      var front := steps[..|steps| - 1];
      EntryLawHolds(cfg, front, record);
      StepEntry(cfg, Run(cfg, front), steps[|steps| - 1], Tally(cfg, front, Entering), Tally(cfg, front, Claiming),
                record);
    }
  }

  /**
   * Live runs, any interleaving, any crashes, any clock, any repetition of ids: each plan record is claimed
   * at most once and enters the fund-moving section no more often than it was claimed.
   */
  lemma EachPlanMovesFundsOnce(cfg: Config, steps: seq<Step>, record: int)
    requires !cfg.dryRun
    ensures Tally(cfg, steps, Entering)[record] <= Tally(cfg, steps, Claiming)[record] <= 1
  {
    PlansOnceHolds(cfg, steps);
    EntryLawHolds(cfg, steps, record);
  }

  // === Receipts per record ===

  function NoReceipt(): Plan -> bool { (p: Plan) => p.executionReceiptId.None? }

  /** The number of every stored plan that carries a receipt is in the tally. */
  predicate Marked(plans: seq<Plan>, n: int, tally: multiset<int>) {
    forall k :: 0 <= k < |plans| && plans[k].executionReceiptId.Some? ==> tally[n - 1 - k] >= 1
  }

  ghost predicate ReceiptsOk(s: State, tally: multiset<int>, once: bool) {
    && Marked(s.ledger.acceptedPlans, |s.hist.accepted|, tally)
    && |s.ledger.acceptedPlans| <= |s.hist.accepted|
    && (once ==> PlansOnce(s, tally, NoReceipt()))
  }

  lemma {:induction false} ReconciledAt(before: seq<Plan>, after: seq<Plan>, n: int, k: nat, m: int)
    requires k <= |before| == |after|
    ensures var j := n - 1 - m;
      ReconciledRecords(before, after, n, k)[m] == if k <= j < |before| && Settles(before[j], after[j]) then 1 else 0
    decreases |before| - k
  {
    if k < |before| { ReconciledAt(before, after, n, k + 1, m); }
  }

  /** What a tick leaves of a plan, as far as its receipt goes. */
  predicate Ticked(p: Plan, q: Plan) {
    || q == p
    || (p.status.Executing? && p.executionReceiptId.None? &&
        (if q.status.Executed? then q.executionReceiptId.Some? else q.executionReceiptId.None?))
  }

  lemma TickedReceipts(before: seq<Plan>, after: seq<Plan>, n: int, tally: multiset<int>, once: bool)
    requires |before| == |after| <= n && forall k :: 0 <= k < |before| ==> Ticked(before[k], after[k])
    requires forall k :: 0 <= k < |before| && before[k].status.Executing? ==> before[k].executionReceiptId.None?
    requires Marked(before, n, tally) && (once ==> Once(before, n, tally, NoReceipt()))
    ensures var later := tally + ReconciledRecords(before, after, n, 0);
      Marked(after, n, later) && (once ==> Once(after, n, later, NoReceipt()))
  {
    var used := ReconciledRecords(before, after, n, 0);
    var later := tally + used;
    forall k | 0 <= k < |after| && after[k].executionReceiptId.Some? ensures later[n - 1 - k] >= 1 {
      ReconciledAt(before, after, n, 0, n - 1 - k);
      assert Ticked(before[k], after[k]);
    }
    if once {
      forall m ensures later[m] <= 1 && (m < 0 || m >= n ==> later[m] == 0) {
        ReconciledAt(before, after, n, 0, m);
        if used[m] == 1 { assert NoReceipt()(before[n - 1 - m]); }
      }
      forall k | 0 <= k < |after| && NoReceipt()(after[k]) ensures later[n - 1 - k] == 0 {
        ReconciledAt(before, after, n, 0, n - 1 - k);
        assert Ticked(before[k], after[k]) && NoReceipt()(before[k]);
      }
    }
  }

  lemma MarkedTake(plans: seq<Plan>, n: int, tally: multiset<int>)
    requires Marked(plans, n, tally)
    ensures Marked(Take(plans, MAX_PLANS), n, tally)
  {
    forall k | 0 <= k < |Take(plans, MAX_PLANS)| && Take(plans, MAX_PLANS)[k].executionReceiptId.Some?
      ensures tally[n - 1 - k] >= 1
    {
      assert plans[k].executionReceiptId.Some?;
    }
  }

  lemma MarkedGrown(before: seq<Plan>, after: seq<Plan>, n: int, tally: multiset<int>)
    requires |before| <= |after| <= |before| + 1
    requires |after| > |before| ==> after[0].executionReceiptId.None?
    requires Marked(after[|after| - |before|..], n, tally)
    ensures Marked(after, n + |after| - |before|, tally)
  {
    var d := |after| - |before|;
    forall k | 0 <= k < |after| && after[k].executionReceiptId.Some? ensures tally[n + d - 1 - k] >= 1 {
      assert after[d..][k - d] == after[k];
      assert n - 1 - (k - d) == n + d - 1 - k;
    }
  }

  ghost predicate KeepsReceiptsOk(s: State, t: State, before: multiset<int>, after: multiset<int>, once: bool) {
    ReceiptsOk(s, before, once) ==> ReceiptsOk(t, after, once)
  }

  lemma TickedPlain(before: seq<Plan>, plans: seq<Plan>, h: History, cfg: Config, now: int, added: seq<Receipt>)
    requires PlansOk(before, h) && TickPlans(before, plans, cfg, now, added)
    ensures |before| <= |plans| <= |before| + 1
    ensures |plans| > |before| ==> plans[0].executionReceiptId.None?
    ensures forall k :: 0 <= k < |before| ==> Ticked(before[k], plans[|plans| - |before|..][k])
    ensures forall k :: 0 <= k < |before| && before[k].status.Executing? ==> before[k].executionReceiptId.None?
  {
    var d := |plans| - |before|;
    forall k | 0 <= k < |before|
      ensures Ticked(before[k], plans[d..][k])
      ensures before[k].status.Executing? ==> before[k].executionReceiptId.None?
    {
      assert PlanOk(before[k], h);
      assert AfterTick(before[k], plans[k + d], cfg, now, added);
    }
  }

  lemma TickedAll(s: State, l: Ledger, cfg: Config)
    requires Basics(s) && CoordinatorMutator(s.ledger, cfg, s.now) == Some(l)
    ensures |s.ledger.acceptedPlans| <= |l.acceptedPlans| <= |s.ledger.acceptedPlans| + 1
    ensures |l.acceptedPlans| > |s.ledger.acceptedPlans| ==> l.acceptedPlans[0].executionReceiptId.None?
    ensures var before := s.ledger.acceptedPlans;
      var after := l.acceptedPlans[|l.acceptedPlans| - |before|..];
      forall k :: 0 <= k < |before| ==> Ticked(before[k], after[k])
    ensures forall k :: 0 <= k < |s.ledger.acceptedPlans| && s.ledger.acceptedPlans[k].status.Executing? ==>
      s.ledger.acceptedPlans[k].executionReceiptId.None?
  {
    CoordinatorPlans(s.ledger, cfg, s.now);
    TickedPlain(s.ledger.acceptedPlans, l.acceptedPlans, s.hist, cfg, s.now, NewReceipts(s.ledger, l));
  }

  /** `TickedReceipts` with a new plan perhaps in front and the tail pruned. */
  lemma TickedListReceipts(before: seq<Plan>, plans: seq<Plan>, n: int, tally: multiset<int>, once: bool)
    requires |before| <= |plans| <= |before| + 1 && |before| <= n
    requires |plans| > |before| ==> plans[0].executionReceiptId.None?
    requires forall k :: 0 <= k < |before| ==> Ticked(before[k], plans[|plans| - |before|..][k])
    requires forall k :: 0 <= k < |before| && before[k].status.Executing? ==> before[k].executionReceiptId.None?
    requires Marked(before, n, tally) && (once ==> Once(before, n, tally, NoReceipt()))
    ensures var later := tally + ReconciledRecords(before, plans[|plans| - |before|..], n, 0);
      && Marked(Take(plans, MAX_PLANS), n + |plans| - |before|, later)
      && (once ==> Once(Take(plans, MAX_PLANS), n + |plans| - |before|, later, NoReceipt()))
  {
    var after := plans[|plans| - |before|..];
    var later := tally + ReconciledRecords(before, after, n, 0);
    TickedReceipts(before, after, n, tally, once);
    MarkedGrown(before, plans, n, later);
    MarkedTake(plans, n + |plans| - |before|, later);
    if once { TickedPlansOnce(before, plans, n, later, NoReceipt()); }
  }

  lemma TickKeepsReceipts(s: State, t: State, plans: seq<Plan>, tally: multiset<int>, once: bool)
    requires var before := s.ledger.acceptedPlans;
      && |before| <= |plans| <= |before| + 1
      && (|plans| > |before| ==> plans[0].executionReceiptId.None?)
      && (forall k :: 0 <= k < |before| ==> Ticked(before[k], plans[|plans| - |before|..][k]))
      && (forall k :: 0 <= k < |before| && before[k].status.Executing? ==> before[k].executionReceiptId.None?)
      && t.ledger.acceptedPlans == Take(plans, MAX_PLANS)
      && |t.hist.accepted| == |s.hist.accepted| + |plans| - |before|
    ensures KeepsReceiptsOk(s, t, tally, tally + ReconciledRecords(
      s.ledger.acceptedPlans, plans[|plans| - |s.ledger.acceptedPlans|..], |s.hist.accepted|, 0), once)
  {
    if ReceiptsOk(s, tally, once) {
      TickedListReceipts(s.ledger.acceptedPlans, plans, |s.hist.accepted|, tally, once);
    }
  }

  lemma CoordinateReceiptRecords(cfg: Config, s: State, tally: multiset<int>, once: bool)
    requires Basics(s)
    ensures KeepsReceiptsOk(s, DoCoordinate(s, cfg), tally, tally + Receipting(cfg, s, Coordinate), once)
  {
    var out := CoordinatorMutator(s.ledger, cfg, s.now);
    if out.Some? {
      TickedAll(s, out.value, cfg);
      CoordinateState(cfg, s, out.value);
      TickKeepsReceipts(s, DoCoordinate(s, cfg), out.value.acceptedPlans, tally, once);
    } else {
      assert tally + Receipting(cfg, s, Coordinate) == tally;
    }
  }

  /** One plan gets its receipt. */
  lemma MarkedPlan(before: seq<Plan>, q: nat, p: Plan, n: int, tally: multiset<int>, once: bool)
    requires q < |before| <= n && p.executionReceiptId.Some?
    requires Marked(before, n, tally) && (once ==> Once(before, n, tally, NoReceipt()) && NoReceipt()(before[q]))
    ensures Marked(Take(before[q := p], MAX_PLANS), n, tally + multiset{n - 1 - q})
    ensures once ==> Once(Take(before[q := p], MAX_PLANS), n, tally + multiset{n - 1 - q}, NoReceipt())
  {
    var after, later := before[q := p], tally + multiset{n - 1 - q};
    assert Marked(after, n, later);
    MarkedTake(after, n, later);
    if once {
      OnceSpent(before, after, n, q, tally, NoReceipt());
      OnceKept(after, Take(after, MAX_PLANS), n, later, NoReceipt());
    }
  }

  /** The plans are as they were, or plan `q` was rewritten to `p` and gets its receipt. */
  predicate OneReceipt(s: State, t: State, used: multiset<int>, q: nat, p: Plan) {
    var before, after := s.ledger.acceptedPlans, t.ledger.acceptedPlans;
    && t.hist.accepted == s.hist.accepted
    && (|| ((after == before || after == Take(before, MAX_PLANS)) && used == multiset{})
        || (Rewritten(before, after, q, p) && p.executionReceiptId.Some?
            && used == multiset{|s.hist.accepted| - 1 - q}))
  }

  lemma FinalisedPlans(l: Ledger, a: Attempt, cfg: Config, now: int, failed: bool, q: nat)
    requires q == FindIndex(l.acceptedPlans, PlanWithId(a.plan.id)) && q < |l.acceptedPlans|
    requires HoldsClaim(l.acceptedPlans[q], a.actor, a.runId)
    ensures var after := FinaliseMutator(l, a.plan, a.proposal, a.actor, a.runId, cfg, now, failed).acceptedPlans;
      |after| == |l.acceptedPlans| && after == l.acceptedPlans[q := after[q]] && after[q].executionReceiptId.Some?
  {
  }

  /** The state after a finalisation that passes the fence, as far as plans and acceptances go. */
  lemma FinalisedState(cfg: Config, s: State, k: nat, failed: bool, q: nat) returns (after: seq<Plan>)
    requires k < |s.attempts| && s.attempts[k].phase.Running? && FencedPlan(s, k) == Some(q)
    ensures q < |s.ledger.acceptedPlans| == |after| && after == s.ledger.acceptedPlans[q := after[q]]
    ensures after[q].executionReceiptId.Some?
    ensures var t := DoFinalise(s, cfg, k, failed);
      t.ledger.acceptedPlans == Take(after, MAX_PLANS) && t.hist.accepted == s.hist.accepted
  {
    var a := s.attempts[k];
    FinalisedPlans(s.ledger, a, cfg, s.now, failed && !cfg.dryRun, q);
    after := FinaliseMutator(s.ledger, a.plan, a.proposal, a.actor, a.runId, cfg, s.now,
                             failed && !cfg.dryRun).acceptedPlans;
  }

  lemma FencedShape(cfg: Config, s: State, k: nat, failed: bool, q: nat) returns (p: Plan)
    requires k < |s.attempts| && s.attempts[k].phase.Running? && FencedPlan(s, k) == Some(q)
    ensures OneReceipt(s, DoFinalise(s, cfg, k, failed), Receipting(cfg, s, Finalise(k, failed)), q, p)
  {
    var after := FinalisedState(cfg, s, k, failed, q);
    p := after[q];
  }

  lemma UnfencedShape(cfg: Config, s: State, k: nat, failed: bool, q: nat, p: Plan)
    requires k >= |s.attempts| || !s.attempts[k].phase.Running? || FencedPlan(s, k).None?
    ensures OneReceipt(s, DoFinalise(s, cfg, k, failed), Receipting(cfg, s, Finalise(k, failed)), q, p)
  {
  }

  /** A finalisation that passes the fence gives one plan a receipt; any other changes no plan. */
  lemma FinaliseShape(cfg: Config, s: State, k: nat, failed: bool) returns (p: Plan)
    ensures var q := if k < |s.attempts| && FencedPlan(s, k).Some? then FencedPlan(s, k).value else 0;
      OneReceipt(s, DoFinalise(s, cfg, k, failed), Receipting(cfg, s, Finalise(k, failed)), q, p)
  {
    var q := if k < |s.attempts| && FencedPlan(s, k).Some? then FencedPlan(s, k).value else 0;
    if k < |s.attempts| && s.attempts[k].phase.Running? && FencedPlan(s, k).Some? {
      p := FencedShape(cfg, s, k, failed, q);
    } else {
      p := NewPlan("", 0);
      UnfencedShape(cfg, s, k, failed, q, p);
    }
  }

  lemma OneReceiptKept(s: State, t: State, tally: multiset<int>, used: multiset<int>, q: nat, p: Plan, once: bool)
    requires OneReceipt(s, t, used, q, p)
    requires once && used != multiset{} ==> q < |s.ledger.acceptedPlans| && NoReceipt()(s.ledger.acceptedPlans[q])
    ensures KeepsReceiptsOk(s, t, tally, tally + used, once)
  {
    var before, n := s.ledger.acceptedPlans, |s.hist.accepted|;
    if ReceiptsOk(s, tally, once) {
      if used == multiset{} {
        assert tally + used == tally;
        MarkedTake(before, n, tally);
        if once { OnceKept(before, Take(before, MAX_PLANS), n, tally, NoReceipt()); }
      } else {
        MarkedPlan(before, q, p, n, tally, once);
      }
    }
  }

  lemma FinaliseReceiptRecords(cfg: Config, s: State, k: nat, failed: bool, tally: multiset<int>, once: bool)
    requires once ==> !Stale(s, Finalise(k, failed))
    ensures KeepsReceiptsOk(s, DoFinalise(s, cfg, k, failed), tally,
                            tally + Receipting(cfg, s, Finalise(k, failed)), once)
  {
    var p := FinaliseShape(cfg, s, k, failed);
    var q := if k < |s.attempts| && FencedPlan(s, k).Some? then FencedPlan(s, k).value else 0;
    OneReceiptKept(s, DoFinalise(s, cfg, k, failed), tally, Receipting(cfg, s, Finalise(k, failed)), q, p, once);
  }

  /** The plans a step other than a tick or a finalisation leaves have the receipts they had. */
  lemma OtherReceiptRecords(cfg: Config, s: State, step: Step, tally: multiset<int>, once: bool)
    requires !step.Coordinate? && !step.Finalise?
    ensures KeepsReceiptsOk(s, Apply(cfg, s, step), tally, tally, once)
  {
    SameReceipts(cfg, s, step);
    if ReceiptsOk(s, tally, once) {
      CarriedReceipts(s.ledger.acceptedPlans, Apply(cfg, s, step).ledger.acceptedPlans, |s.hist.accepted|, tally, once);
    }
  }

  predicate Carried(before: seq<Plan>, after: seq<Plan>) {
    |after| <= |before|
    && forall k :: 0 <= k < |after| ==> after[k].executionReceiptId == before[k].executionReceiptId
  }

  lemma SameReceipts(cfg: Config, s: State, step: Step)
    requires !step.Coordinate? && !step.Finalise?
    ensures Carried(s.ledger.acceptedPlans, Apply(cfg, s, step).ledger.acceptedPlans)
    ensures Apply(cfg, s, step).hist.accepted == s.hist.accepted
  {
    match step
    case Claim(at, actor, runId, planId) => ClaimCarried(cfg, s, at, actor, runId, planId);
    case Block(k) => BlockShape(s, k);
    case _ =>
  }

  lemma ClaimCarried(cfg: Config, s: State, at: int, actor: Actor, runId: string, planId: Option<string>)
    ensures Carried(s.ledger.acceptedPlans, DoClaim(s, cfg, at, actor, runId, planId).ledger.acceptedPlans)
    ensures DoClaim(s, cfg, at, actor, runId, planId).hist.accepted == s.hist.accepted
  {
    var p := ClaimShape(cfg, s, at, actor, runId, planId);
  }

  lemma BlockShape(s: State, k: nat)
    ensures Carried(s.ledger.acceptedPlans, DoBlock(s, k).ledger.acceptedPlans)
    ensures NoneRestored(s.ledger.acceptedPlans, DoBlock(s, k).ledger.acceptedPlans, IsAwaiting())
  {
  }

  lemma CarriedReceipts(before: seq<Plan>, after: seq<Plan>, n: int, tally: multiset<int>, once: bool)
    requires Carried(before, after) && Marked(before, n, tally) && (once ==> Once(before, n, tally, NoReceipt()))
    ensures Marked(after, n, tally) && (once ==> Once(after, n, tally, NoReceipt()))
  {
    forall k | 0 <= k < |after| && after[k].executionReceiptId.Some? ensures tally[n - 1 - k] >= 1 {
      assert before[k].executionReceiptId.Some?;
    }
    if once { OnceKept(before, after, n, tally, NoReceipt()); }
  }

  lemma StepReceiptRecords(cfg: Config, s: State, step: Step, tally: multiset<int>, once: bool)
    requires Basics(s) && (once ==> !Stale(s, step))
    ensures KeepsReceiptsOk(s, Apply(cfg, s, step), tally, tally + Receipting(cfg, s, step), once)
  {
    if !step.Coordinate? && !step.Finalise? { assert tally + Receipting(cfg, s, step) == tally; }
    match step
    case Coordinate => CoordinateReceiptRecords(cfg, s, tally, once);
    case Finalise(k, failed) => FinaliseReceiptRecords(cfg, s, k, failed, tally, once);
    case _ => OtherReceiptRecords(cfg, s, step, tally, once);
  }

  lemma {:induction false} ReceiptsOkHolds(cfg: Config, steps: seq<Step>, once: bool)
    requires once ==> NoStale(cfg, steps)
    ensures ReceiptsOk(Run(cfg, steps), Tally(cfg, steps, Receipting), once)
    decreases |steps|
  {
    if steps != [] {
      var front := steps[..|steps| - 1];
      if once { NoStaleFront(cfg, steps); }
      ReceiptsOkHolds(cfg, front, once);
      BasicsHold(cfg, front);
      StepReceiptRecords(cfg, Run(cfg, front), steps[|steps| - 1], Tally(cfg, front, Receipting), once);
    }
  }

  lemma StaleReceipting(cfg: Config, s: State, step: Step, tally: multiset<int>) returns (record: int)
    requires Stale(s, step) && ReceiptsOk(s, tally, false)
    ensures tally[record] >= 1 && Receipting(cfg, s, step)[record] >= 1
  {
    record := PlanRecord(s, FencedPlan(s, step.attempt).value);
  }

  lemma StaleReceiptsTwice(cfg: Config, steps: seq<Step>, k: nat)
    requires k < |steps| && Stale(Before(cfg, steps, k), steps[k])
    ensures exists record :: Tally(cfg, steps, Receipting)[record] >= 2
  {
    ReceiptsOkHolds(cfg, steps[..k], false);
    var record := StaleReceipting(cfg, Before(cfg, steps, k), steps[k], Tally(cfg, steps[..k], Receipting));
    assert steps[..k + 1][..k] == steps[..k];
    TallyGrows(cfg, steps, k + 1, Receipting);
    assert Tally(cfg, steps, Receipting)[record] >= 2;
  }

  /**
   * Whatever the ids: every plan record gets at most one receipt if and only if no finalisation passes the
   * fence on a plan that already carries one.
   */
  lemma OneReceiptPerRecordIffNoStale(cfg: Config, steps: seq<Step>)
    ensures (forall record :: Tally(cfg, steps, Receipting)[record] <= 1) <==> NoStale(cfg, steps)
  {
    if NoStale(cfg, steps) {
      ReceiptsOkHolds(cfg, steps, true);
    } else {
      var k :| 0 <= k < |steps| && Stale(Before(cfg, steps, k), steps[k]);
      StaleReceiptsTwice(cfg, steps, k);
    }
  }
}
