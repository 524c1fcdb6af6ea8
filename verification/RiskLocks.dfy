/** Risk locks: what the unwind guard keeps true, and what an active lock forbids. */
module RiskLocks {
  import opened Prelude
  import opened StrategyLedger
  import opened Subagents
  import opened LedgerRuns
  import opened ActivePlan

  /** The active locks come first, are all critical, and name pairwise different protocols. */
  predicate ActivePrefix(locks: seq<RiskLock>) {
    && (forall i, j :: 0 <= i < j < |locks| && locks[j].active ==>
          locks[i].active && locks[i].protocol != locks[j].protocol)
    && (forall i :: 0 <= i < |locks| && locks[i].active ==> locks[i].critical && locks[i].protocol.Some?)
  }

  lemma FourProtocolsRepeat(a: Protocol, b: Protocol, c: Protocol, d: Protocol)
    ensures a == b || a == c || a == d || b == c || b == d || c == d
  {
  }

  /** There are three protocols, so an active lock is never further back than third. */
  lemma AtMostThree(locks: seq<RiskLock>, k: nat)
    requires ActivePrefix(locks) && k < |locks| && locks[k].active
    ensures k < 3
  {
    if k >= 3 {
      FourProtocolsRepeat(locks[0].protocol.value, locks[1].protocol.value,
                          locks[2].protocol.value, locks[k].protocol.value);
      assert false;
    }
  }

  /** Every way a step may change the lock list. */
  predicate KeepsLocks(before: seq<RiskLock>, after: seq<RiskLock>) {
    ActivePrefix(before) ==> ActivePrefix(after)
  }

  lemma ClearedPrefix(locks: seq<RiskLock>)
    requires ActivePrefix(locks)
    ensures forall i :: 0 <= i < |locks| ==> !ClearLocks(locks)[i].active
  {
    forall i | 0 <= i < |locks| ensures !ClearLocks(locks)[i].active {
      assert ClearLocks(locks)[i] == ClearLock(locks[i]);
    }
  }

  lemma AddedPrefix(locks: seq<RiskLock>, lock: RiskLock, p: Protocol)
    requires ActivePrefix(locks) && lock.active && lock.critical && lock.protocol == Some(p)
    requires FindIndex(locks, LockFor(p)) == |locks|
    ensures ActivePrefix([lock] + locks)
  {
    var after := [lock] + locks;
    assert forall i :: 0 <= i < |locks| ==> !LockFor(p)(locks[i]);
    forall i, j | 0 <= i < j < |after| && after[j].active
      ensures after[i].active && after[i].protocol != after[j].protocol
    {
      assert after[j] == locks[j - 1];
      if i > 0 { assert after[i] == locks[i - 1]; }
    }
  }

  lemma GuardKeepsLocks(l: Ledger, cfg: Config, now: int)
    ensures KeepsLocks(l.riskLocks, GuardMutator(l, cfg, now).riskLocks)
  {
    if ActivePrefix(l.riskLocks) && l.positionSnapshots != [] {
      var s := l.positionSnapshots[0];
      var c := FindIndex(s.protocols, (e: ProtocolPositions) => IsCritical(e, cfg));
      if c == |s.protocols| {
        ClearedPrefix(l.riskLocks);
      } else {
        var e := s.protocols[c];
        if FindIndex(l.riskLocks, LockFor(e.protocol)) == |l.riskLocks| {
          AddedPrefix(l.riskLocks, RiskLock(now, true, true, Some(e.protocol), e.healthFactor), e.protocol);
        }
      }
    }
  }

  lemma CoordinatorKeepsLocks(l: Ledger, cfg: Config, now: int)
    ensures var out := CoordinatorMutator(l, cfg, now);
            out.Some? ==> out.value.riskLocks == l.riskLocks && out.value.positionSnapshots == l.positionSnapshots
  {
    ReconcileKeepsPlans(l.(strategyProposals := ExpireProposals(l.strategyProposals, now)), now, 0);
  }

  lemma CoordinateStepLocks(cfg: Config, s: State)
    ensures KeepsLocks(s.ledger.riskLocks, DoCoordinate(s, cfg).ledger.riskLocks)
  {
    CoordinatorKeepsLocks(s.ledger, cfg, s.now);
  }

  lemma GuardStepLocks(cfg: Config, s: State)
    ensures KeepsLocks(s.ledger.riskLocks, DoGuard(s, cfg).ledger.riskLocks)
  {
    GuardKeepsLocks(s.ledger, cfg, s.now);
  }

  lemma OtherStepLocks(cfg: Config, s: State, step: Step)
    requires !step.Coordinate? && !step.Guard?
    ensures var locks := Apply(cfg, s, step).ledger.riskLocks;
      locks == s.ledger.riskLocks || locks == Take(s.ledger.riskLocks, MAX_LOCKS)
  {
  }

  lemma StepKeepsLocks(cfg: Config, s: State, step: Step)
    ensures KeepsLocks(s.ledger.riskLocks, Apply(cfg, s, step).ledger.riskLocks)
  {
    match step
    case Coordinate => CoordinateStepLocks(cfg, s);
    case Guard => GuardStepLocks(cfg, s);
    case _ => OtherStepLocks(cfg, s, step);
  }

  /**
   * In every reachable ledger the active locks are a prefix of the list, critical, one per protocol at
   * most, and within its first three entries, so pruning the list to a hundred never drops one.
   */
  lemma {:induction false} LocksInvariant(cfg: Config, steps: seq<Step>)
    ensures var locks := Run(cfg, steps).ledger.riskLocks;
            && ActivePrefix(locks)
            && (forall k :: 0 <= k < |locks| && locks[k].active ==> k < 3)
    decreases |steps|
  {
    if steps != [] {
      var front := steps[..|steps| - 1];
      LocksInvariant(cfg, front);
      StepKeepsLocks(cfg, Run(cfg, front), steps[|steps| - 1]);
    }
    var locks := Run(cfg, steps).ledger.riskLocks;
    forall k | 0 <= k < |locks| && locks[k].active ensures k < 3 { AtMostThree(locks, k); }
  }

  predicate IsFirstCritical(s: PositionSnapshot, cfg: Config, c: nat) {
    c < |s.protocols| && IsCritical(s.protocols[c], cfg) && forall b :: 0 <= b < c ==> !IsCritical(s.protocols[b], cfg)
  }

  /** Some lock is active exactly when the snapshot is critical, and the first critical protocol is locked. */
  ghost predicate Decided(s: PositionSnapshot, cfg: Config, locks: seq<RiskLock>) {
    && (HasActiveLock(locks) <==> HasCriticalPosition(s, cfg))
    && (forall c: nat :: IsFirstCritical(s, cfg, c) ==> IsLocked(locks, s.protocols[c].protocol))
  }

  lemma FirstDecides(s: PositionSnapshot, cfg: Config, locks: seq<RiskLock>, c: nat)
    requires IsFirstCritical(s, cfg, c) && IsLocked(locks, s.protocols[c].protocol)
    ensures Decided(s, cfg, locks)
  {
  }

  /** Without a critical position every lock is cleared. */
  lemma GuardClears(l: Ledger, cfg: Config, now: int)
    requires ActivePrefix(l.riskLocks) && l.positionSnapshots != []
    requires FindIndex(l.positionSnapshots[0].protocols, (e: ProtocolPositions) => IsCritical(e, cfg))
          == |l.positionSnapshots[0].protocols|
    ensures !HasActiveLock(GuardMutator(l, cfg, now).riskLocks) && !HasCriticalPosition(l.positionSnapshots[0], cfg)
  {
    var s := l.positionSnapshots[0];
    var isCritical := (e: ProtocolPositions) => IsCritical(e, cfg);
    var after := GuardMutator(l, cfg, now).riskLocks;
    forall k | 0 <= k < |s.protocols| ensures !IsCritical(s.protocols[k], cfg) {
      assert !isCritical(s.protocols[k]);
    }
    forall k | 0 <= k < |after| ensures !after[k].active {
      assert after[k] == ClearLock(l.riskLocks[k]);
    }
  }

  /** With one, the first such protocol is locked. */
  lemma GuardLocksFirst(l: Ledger, cfg: Config, now: int, c: nat)
    requires l.positionSnapshots != []
    requires c == FindIndex(l.positionSnapshots[0].protocols, (e: ProtocolPositions) => IsCritical(e, cfg))
    requires c < |l.positionSnapshots[0].protocols|
    ensures IsLocked(GuardMutator(l, cfg, now).riskLocks, l.positionSnapshots[0].protocols[c].protocol)
    ensures IsFirstCritical(l.positionSnapshots[0], cfg, c)
  {
    var s := l.positionSnapshots[0];
    var isCritical := (e: ProtocolPositions) => IsCritical(e, cfg);
    var after := GuardMutator(l, cfg, now).riskLocks;
    assert isCritical(s.protocols[c]);
    var k := FindIndex(l.riskLocks, LockFor(s.protocols[c].protocol));
    if k < |l.riskLocks| {
      assert LockFor(s.protocols[c].protocol)(l.riskLocks[k]);
      assert after[k].active;
    } else {
      assert after[0].active;
    }
    forall b | 0 <= b < c ensures !IsCritical(s.protocols[b], cfg) { assert !isCritical(s.protocols[b]); }
  }

  /** The guard's effect on a lock list that satisfies the invariant. */
  lemma GuardDecides(l: Ledger, cfg: Config, now: int)
    requires ActivePrefix(l.riskLocks) && l.positionSnapshots != []
    ensures Decided(l.positionSnapshots[0], cfg, GuardMutator(l, cfg, now).riskLocks)
  {
    var c := FindIndex(l.positionSnapshots[0].protocols, (e: ProtocolPositions) => IsCritical(e, cfg));
    if c == |l.positionSnapshots[0].protocols| {
      GuardClears(l, cfg, now);
    } else {
      GuardLocksFirst(l, cfg, now, c);
      FirstDecides(l.positionSnapshots[0], cfg, GuardMutator(l, cfg, now).riskLocks, c);
    }
  }

  /**
   * After every guard tick of every run that has a position snapshot, some lock is active exactly when the
   * latest snapshot holds a borrowed position with a finite health factor at or below the critical one,
   * and the first such protocol is locked.
   */
  lemma GuardTickIsExact(cfg: Config, steps: seq<Step>)
    requires Run(cfg, steps).ledger.positionSnapshots != []
    ensures Decided(Run(cfg, steps).ledger.positionSnapshots[0], cfg, Run(cfg, steps + [Guard]).ledger.riskLocks)
  {
    var s := Run(cfg, steps);
    assert (steps + [Guard])[..|steps|] == steps;
    LocksInvariant(cfg, steps);
    GuardDecides(s.ledger, cfg, s.now);
    GuardKeepsLocks(s.ledger, cfg, s.now);
    PruneKeepsActiveLocks(GuardMutator(s.ledger, cfg, s.now).riskLocks);
  }

  lemma PruneKeepsActiveLocks(locks: seq<RiskLock>)
    requires ActivePrefix(locks)
    ensures HasActiveLock(Take(locks, MAX_LOCKS)) <==> HasActiveLock(locks)
    ensures forall p :: IsLocked(Take(locks, MAX_LOCKS), p) <==> IsLocked(locks, p)
  {
    forall k | 0 <= k < |locks| && locks[k].active
      ensures k < |Take(locks, MAX_LOCKS)| && Take(locks, MAX_LOCKS)[k] == locks[k]
    {
      AtMostThree(locks, k);
    }
  }

  /** While any lock is active no plan is accepted and no claimed plan gets past the executor gate. */
  lemma ActiveLockBlocks(cfg: Config, s: State, step: Step)
    requires HasActiveLock(s.ledger.riskLocks)
    ensures FreshPlans(cfg, s, step) == 0
    ensures Apply(cfg, s, step).hist.entered == s.hist.entered
    ensures step.Gate? && step.attempt < |s.attempts| && s.attempts[step.attempt].phase.Claimed?
      ==> !ValidateExecutorGate(s.attempts[step.attempt].proposal, s.ledger, cfg, s.now).Allowed?
  {
    if step.Coordinate? {
      var expired := s.ledger.(strategyProposals := ExpireProposals(s.ledger.strategyProposals, s.now));
      ReconcileKeepsPlans(expired, s.now, 0);
    }
  }
}
