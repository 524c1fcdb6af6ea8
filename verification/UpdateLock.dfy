/**
 * Concurrent `StrategyLedgerStore.update` calls of one process, interleaved wherever the source awaits:
 * between tries for the lock file, between loading and saving, and between saving and removing the file.
 * The document type, the mutators and the pruning function are parameters.
 */
module UpdateLock {
  import opened Prelude

  datatype Phase<L> =
    | NotStarted
    | Waiting(started: int)
    | Holding(loaded: L)
    | Leaving(saved: bool)
    | Finished(saved: bool)
    | TimedOut

  datatype Store<L> = Store(
    disk: L, lockCreatedAt: Option<int>, tasks: seq<Phase<L>>, now: int, acquired: seq<nat>)

  datatype Options = Options(lockTimeoutMs: int, staleLockMs: int)

  datatype Step =
    | Advance(ms: nat)
    | Start(task: nat)
    | Try(task: nat)
    | Save(task: nat)
    | Abort(task: nat)
    | Release(task: nat)

  /** Whether `clearStaleLock` removes a lock file of this age. */
  function ClearsLock(createdAt: int, ownerIsAlive: bool, now: int, staleLockMs: int): bool {
    var age := now - createdAt;
    if ownerIsAlive && age < staleLockMs then false
    else if ownerIsAlive && age < staleLockMs * 5 then false
    else true
  }

  function Acquire<L>(s: Store<L>, t: nat): Store<L>
    requires t < |s.tasks|
  {
    s.(lockCreatedAt := Some(s.now), tasks := s.tasks[t := Holding(s.disk)], acquired := s.acquired + [t])
  }

  /** One try of the acquisition loop; the owner is this very process, hence alive. */
  function TryLock<L>(s: Store<L>, t: nat, o: Options): Store<L> {
    if t >= |s.tasks| || !s.tasks[t].Waiting? then s
    else
      match s.lockCreatedAt
      case None => Acquire(s, t)
      case Some(createdAt) =>
        if ClearsLock(createdAt, true, s.now, o.staleLockMs) then Acquire(s, t)
        else if s.now - s.tasks[t].started > o.lockTimeoutMs then s.(tasks := s.tasks[t := TimedOut])
        else s
  }

  function Apply<L>(jobs: seq<L -> L>, prune: L -> L, o: Options, s: Store<L>, step: Step): Store<L> {
    match step
    case Advance(ms) => s.(now := s.now + ms)
    case Start(t) => if t < |s.tasks| && s.tasks[t].NotStarted? then s.(tasks := s.tasks[t := Waiting(s.now)]) else s
    case Try(t) => TryLock(s, t, o)
    case Save(t) =>
      if t < |s.tasks| && t < |jobs| && s.tasks[t].Holding? then
        s.(disk := prune(jobs[t](s.tasks[t].loaded)), tasks := s.tasks[t := Leaving(true)])
      else s
    case Abort(t) =>
      if t < |s.tasks| && s.tasks[t].Holding? then s.(tasks := s.tasks[t := Leaving(false)]) else s
    case Release(t) =>
      if t < |s.tasks| && s.tasks[t].Leaving? then
        s.(lockCreatedAt := None, tasks := s.tasks[t := Finished(s.tasks[t].saved)])
      else s
  }

  function Initial<L>(disk: L, count: nat): Store<L> {
    Store(disk, None, seq(count, _ => NotStarted), 0, [])
  }

  function Run<L>(disk: L, jobs: seq<L -> L>, prune: L -> L, o: Options, steps: seq<Step>): Store<L> {
    if steps == [] then Initial(disk, |jobs|)
    else Apply(jobs, prune, o, Run(disk, jobs, prune, o, steps[..|steps| - 1]), steps[|steps| - 1])
  }

  predicate Inside<L>(p: Phase<L>) { p.Holding? || p.Leaving? }

  predicate AtMostOneInside<L>(s: Store<L>) {
    forall i, j :: 0 <= i < j < |s.tasks| ==> !(Inside(s.tasks[i]) && Inside(s.tasks[j]))
  }

  /** A try that finds the lock file at least five stale periods old, and so removes it. */
  predicate Steals<L>(s: Store<L>, step: Step, o: Options) {
    && step.Try? && step.task < |s.tasks| && s.tasks[step.task].Waiting?
    && s.lockCreatedAt.Some? && s.now - s.lockCreatedAt.value >= o.staleLockMs
    && s.now - s.lockCreatedAt.value >= o.staleLockMs * 5
  }

  predicate NeverSteals<L>(disk: L, jobs: seq<L -> L>, prune: L -> L, o: Options, steps: seq<Step>) {
    forall k :: 0 <= k < |steps| ==> !StealsAt(disk, jobs, prune, o, steps, k)
  }

  // === What the saved document must be ===

  predicate HasSaved<L>(p: Phase<L>) { (p.Leaving? || p.Finished?) && p.saved }

  /** The mutators of the saved updates, each followed by pruning, in the order the lock was acquired. */
  function Replay<L>(disk: L, jobs: seq<L -> L>, prune: L -> L, acquired: seq<nat>, tasks: seq<Phase<L>>): L {
    if acquired == [] then disk
    else
      var before := Replay(disk, jobs, prune, acquired[..|acquired| - 1], tasks);
      var t := acquired[|acquired| - 1];
      if t < |tasks| && t < |jobs| && HasSaved(tasks[t]) then prune(jobs[t](before)) else before
  }

  lemma {:induction false} ReplaySame<L>(
    disk: L, jobs: seq<L -> L>, prune: L -> L, acquired: seq<nat>, a: seq<Phase<L>>, b: seq<Phase<L>>)
    requires |a| == |b| && forall t :: t in acquired && t < |a| ==> (HasSaved(a[t]) <==> HasSaved(b[t]))
    ensures Replay(disk, jobs, prune, acquired, a) == Replay(disk, jobs, prune, acquired, b)
  {
    if acquired != [] {
      var front := acquired[..|acquired| - 1];
      assert forall t :: t in front ==> t in acquired;
      assert acquired[|acquired| - 1] in acquired;
      ReplaySame(disk, jobs, prune, front, a, b);
    }
  }

  /** Tasks that got the lock are recorded once each; the lock file is there exactly while one is inside. */
  predicate Ordered<L>(s: Store<L>) {
    && (forall t :: 0 <= t < |s.tasks| ==> (t in s.acquired <==> Inside(s.tasks[t]) || s.tasks[t].Finished?))
    && (forall t :: t in s.acquired ==> t < |s.tasks|)
    && (forall i, j :: 0 <= i < j < |s.acquired| ==> s.acquired[i] != s.acquired[j])
  }

  predicate Exclusive<L>(s: Store<L>) {
    && (s.lockCreatedAt.None? ==> forall t :: 0 <= t < |s.tasks| ==> !Inside(s.tasks[t]))
    && (s.lockCreatedAt.Some? ==>
          && s.acquired != [] && s.acquired[|s.acquired| - 1] < |s.tasks|
          && Inside(s.tasks[s.acquired[|s.acquired| - 1]])
          && forall t :: 0 <= t < |s.tasks| && t != s.acquired[|s.acquired| - 1] ==> !Inside(s.tasks[t]))
  }

  /** The disk holds the replay, and a holder loaded exactly what is still on disk. */
  ghost predicate Linear<L>(disk: L, jobs: seq<L -> L>, prune: L -> L, s: Store<L>) {
    && |s.tasks| == |jobs|
    && s.disk == Replay(disk, jobs, prune, s.acquired, s.tasks)
    && (forall t :: 0 <= t < |s.tasks| && s.tasks[t].Holding? ==> s.tasks[t].loaded == s.disk)
  }

  ghost predicate Good<L>(disk: L, jobs: seq<L -> L>, prune: L -> L, s: Store<L>) {
    Ordered(s) && Exclusive(s) && Linear(disk, jobs, prune, s)
  }

  lemma AcquireGood<L>(disk: L, jobs: seq<L -> L>, prune: L -> L, s: Store<L>, t: nat)
    requires Good(disk, jobs, prune, s) && s.lockCreatedAt.None?
    requires t < |s.tasks| && s.tasks[t].Waiting?
    ensures Good(disk, jobs, prune, Acquire(s, t))
  {
    var r := Acquire(s, t);
    assert r.acquired[..|r.acquired| - 1] == s.acquired;
    assert t !in s.acquired;
    ReplaySame(disk, jobs, prune, s.acquired, s.tasks, r.tasks);
  }

  /** A phase change of a task that is not inside the lock. */
  lemma OutsideGood<L>(disk: L, jobs: seq<L -> L>, prune: L -> L, s: Store<L>, t: nat, p: Phase<L>)
    requires Good(disk, jobs, prune, s) && t < |s.tasks|
    requires !Inside(s.tasks[t]) && !s.tasks[t].Finished? && !Inside(p) && !p.Finished?
    ensures Good(disk, jobs, prune, s.(tasks := s.tasks[t := p]))
  {
    ReplaySame(disk, jobs, prune, s.acquired, s.tasks, s.tasks[t := p]);
  }

  lemma SaveGood<L>(disk: L, jobs: seq<L -> L>, prune: L -> L, o: Options, s: Store<L>, t: nat)
    requires Good(disk, jobs, prune, s) && t < |s.tasks| && s.tasks[t].Holding?
    ensures Good(disk, jobs, prune, Apply(jobs, prune, o, s, Save(t)))
    ensures Good(disk, jobs, prune, Apply(jobs, prune, o, s, Abort(t)))
  {
    var n := |s.acquired| - 1;
    var front := s.acquired[..n];
    assert s.acquired[n] == t;
    assert t !in front;
    ReplaySame(disk, jobs, prune, front, s.tasks, s.tasks[t := Leaving(true)]);
    ReplaySame(disk, jobs, prune, s.acquired, s.tasks, s.tasks[t := Leaving(false)]);
  }

  lemma ReleaseGood<L>(disk: L, jobs: seq<L -> L>, prune: L -> L, o: Options, s: Store<L>, t: nat)
    requires Good(disk, jobs, prune, s) && t < |s.tasks| && s.tasks[t].Leaving?
    ensures Good(disk, jobs, prune, Apply(jobs, prune, o, s, Release(t)))
  {
    ReplaySame(disk, jobs, prune, s.acquired, s.tasks, s.tasks[t := Finished(s.tasks[t].saved)]);
  }

  lemma StepGood<L>(disk: L, jobs: seq<L -> L>, prune: L -> L, o: Options, s: Store<L>, step: Step)
    requires Good(disk, jobs, prune, s) && !Steals(s, step, o)
    ensures Good(disk, jobs, prune, Apply(jobs, prune, o, s, step))
  {
    match step
    case Advance(_) =>
    case Start(t) =>
      if t < |s.tasks| && s.tasks[t].NotStarted? { OutsideGood(disk, jobs, prune, s, t, Waiting(s.now)); }
    case Try(t) =>
      if t < |s.tasks| && s.tasks[t].Waiting? {
        if s.lockCreatedAt.None? { AcquireGood(disk, jobs, prune, s, t); }
        else { OutsideGood(disk, jobs, prune, s, t, TimedOut); }
      }
    case Save(t) => if t < |s.tasks| && s.tasks[t].Holding? { SaveGood(disk, jobs, prune, o, s, t); }
    case Abort(t) => if t < |s.tasks| && s.tasks[t].Holding? { SaveGood(disk, jobs, prune, o, s, t); }
    case Release(t) => if t < |s.tasks| && s.tasks[t].Leaving? { ReleaseGood(disk, jobs, prune, o, s, t); }
  }

  lemma {:induction false} GoodThroughout<L>(
    disk: L, jobs: seq<L -> L>, prune: L -> L, o: Options, steps: seq<Step>, k: nat)
    requires k <= |steps| && forall j :: 0 <= j < k ==> !StealsAt(disk, jobs, prune, o, steps, j)
    ensures Good(disk, jobs, prune, Run(disk, jobs, prune, o, steps[..k]))
    decreases k
  {
    if k > 0 {
      GoodThroughout(disk, jobs, prune, o, steps, k - 1);
      assert steps[..k][..k - 1] == steps[..k - 1];
      assert !StealsAt(disk, jobs, prune, o, steps, k - 1);
      StepGood(disk, jobs, prune, o, Run(disk, jobs, prune, o, steps[..k - 1]), steps[k - 1]);
    }
  }

  /**
   * Mutual exclusion holds at every point of a run if and only if no try ever finds the lock file
   * five stale periods old.
   */
  lemma MutualExclusionIffNeverSteals<L>(
    disk: L, jobs: seq<L -> L>, prune: L -> L, o: Options, steps: seq<Step>)
    ensures (forall k :: 0 <= k <= |steps| ==> AtMostOneInside(Run(disk, jobs, prune, o, steps[..k])))
       <==> NeverSteals(disk, jobs, prune, o, steps)
  {
    if NeverSteals(disk, jobs, prune, o, steps) {
      forall k | 0 <= k <= |steps| ensures AtMostOneInside(Run(disk, jobs, prune, o, steps[..k])) {
        GoodThroughout(disk, jobs, prune, o, steps, k);
      }
    } else {
      var n: nat :| n < |steps| && StealsAt(disk, jobs, prune, o, steps, n);
      var k := FirstSteal(disk, jobs, prune, o, steps, n);
      GoodThroughout(disk, jobs, prune, o, steps, k);
      var s := Run(disk, jobs, prune, o, steps[..k]);
      assert steps[..k + 1][..k] == steps[..k];
      var r := Run(disk, jobs, prune, o, steps[..k + 1]);
      assert r == Acquire(s, steps[k].task);
      var holder := s.acquired[|s.acquired| - 1];
      assert Inside(r.tasks[holder]) && Inside(r.tasks[steps[k].task]) && holder != steps[k].task;
      assert !AtMostOneInside(r);
    }
  }

  predicate StealsAt<L>(disk: L, jobs: seq<L -> L>, prune: L -> L, o: Options, steps: seq<Step>, k: nat) {
    k < |steps| && Steals(Run(disk, jobs, prune, o, steps[..k]), steps[k], o)
  }

  lemma {:induction false} FirstSteal<L>(
    disk: L, jobs: seq<L -> L>, prune: L -> L, o: Options, steps: seq<Step>, n: nat) returns (k: nat)
    requires StealsAt(disk, jobs, prune, o, steps, n)
    ensures StealsAt(disk, jobs, prune, o, steps, k)
    ensures forall j :: 0 <= j < k ==> !StealsAt(disk, jobs, prune, o, steps, j)
    decreases n
  {
    if j: nat :| j < n && StealsAt(disk, jobs, prune, o, steps, j) {
      k := FirstSteal(disk, jobs, prune, o, steps, j);
    } else {
      k := n;
    }
  }

  /**
   * No write is lost: the document on disk is the result of applying the saved updates one after the
   * other in the order they acquired the lock, each exactly once and each followed by pruning.
   */
  lemma UpdatesAreSequential<L>(disk: L, jobs: seq<L -> L>, prune: L -> L, o: Options, steps: seq<Step>)
    requires NeverSteals(disk, jobs, prune, o, steps)
    ensures var s := Run(disk, jobs, prune, o, steps);
      && s.disk == Replay(disk, jobs, prune, s.acquired, s.tasks)
      && (forall t :: 0 <= t < |s.tasks| && HasSaved(s.tasks[t]) ==> t in s.acquired)
      && (forall i, j :: 0 <= i < j < |s.acquired| ==> s.acquired[i] != s.acquired[j])
  {
    GoodThroughout(disk, jobs, prune, o, steps, |steps|);
    assert steps[..|steps|] == steps;
  }

  // === Short sections ===

  /** Step `j` gets the lock for its task. */
  predicate EntersAt<L>(disk: L, jobs: seq<L -> L>, prune: L -> L, o: Options, steps: seq<Step>, j: nat) {
    && j < |steps| && steps[j].Try?
    && Run(disk, jobs, prune, o, steps[..j + 1]).acquired
       == Run(disk, jobs, prune, o, steps[..j]).acquired + [steps[j].task]
  }

  /** A task that got the lock at step `j` and is still inside after `k` steps got it less than `limit` ago. */
  predicate ShortAt<L>(
    disk: L, jobs: seq<L -> L>, prune: L -> L, o: Options, steps: seq<Step>, limit: int, j: nat, k: nat)
    requires j < k <= |steps|
  {
    var s := Run(disk, jobs, prune, o, steps[..k]);
    EntersAt(disk, jobs, prune, o, steps, j) && steps[j].task < |s.tasks| && Inside(s.tasks[steps[j].task]) ==>
      s.now - Run(disk, jobs, prune, o, steps[..j]).now < limit
  }

  predicate ShortSections<L>(disk: L, jobs: seq<L -> L>, prune: L -> L, o: Options, steps: seq<Step>, limit: int) {
    forall j, k :: 0 <= j < k <= |steps| ==> ShortAt(disk, jobs, prune, o, steps, limit, j, k)
  }

  /** The lock file is as old as the section of its holder, which began at step `j`. */
  predicate HeldSince<L>(disk: L, jobs: seq<L -> L>, prune: L -> L, o: Options, steps: seq<Step>, k: nat, j: nat)
    requires k <= |steps|
  {
    var s := Run(disk, jobs, prune, o, steps[..k]);
    && j < k && EntersAt(disk, jobs, prune, o, steps, j) && s.acquired != []
    && s.acquired[|s.acquired| - 1] == steps[j].task
    && s.lockCreatedAt == Some(Run(disk, jobs, prune, o, steps[..j]).now)
  }

  /** A step leaves the lock file with its holder, removes the file, or creates it for a new holder. */
  predicate LockMoves<L>(s: Store<L>, r: Store<L>, step: Step) {
    || (r.lockCreatedAt == s.lockCreatedAt && r.acquired == s.acquired)
    || r.lockCreatedAt.None?
    || (r.lockCreatedAt == Some(s.now) && step.Try? && r.acquired == s.acquired + [step.task])
  }

  lemma StepMovesLock<L>(jobs: seq<L -> L>, prune: L -> L, o: Options, s: Store<L>, step: Step)
    ensures LockMoves(s, Apply(jobs, prune, o, s, step), step)
  {
  }

  lemma {:induction false} HolderFound<L>(
    disk: L, jobs: seq<L -> L>, prune: L -> L, o: Options, steps: seq<Step>, k: nat) returns (j: nat)
    requires k <= |steps| && Run(disk, jobs, prune, o, steps[..k]).lockCreatedAt.Some?
    ensures HeldSince(disk, jobs, prune, o, steps, k, j)
    decreases k
  {
    if k == 0 {
      assert false;
    } else {
      assert steps[..k][..k - 1] == steps[..k - 1];
      var s, r := Run(disk, jobs, prune, o, steps[..k - 1]), Run(disk, jobs, prune, o, steps[..k]);
      StepMovesLock(jobs, prune, o, s, steps[k - 1]);
      if r.lockCreatedAt == s.lockCreatedAt && r.acquired == s.acquired {
        j := HolderFound(disk, jobs, prune, o, steps, k - 1);
      } else {
        j := k - 1;
      }
    }
  }

  lemma LockIsYoung<L>(disk: L, jobs: seq<L -> L>, prune: L -> L, o: Options, steps: seq<Step>, k: nat)
    requires ShortSections(disk, jobs, prune, o, steps, o.staleLockMs * 5) && k <= |steps|
    requires Good(disk, jobs, prune, Run(disk, jobs, prune, o, steps[..k]))
    requires Run(disk, jobs, prune, o, steps[..k]).lockCreatedAt.Some?
    ensures var s := Run(disk, jobs, prune, o, steps[..k]); s.now - s.lockCreatedAt.value < o.staleLockMs * 5
  {
    var j := HolderFound(disk, jobs, prune, o, steps, k);
    assert ShortAt(disk, jobs, prune, o, steps, o.staleLockMs * 5, j, k);
  }

  /** If no section takes five stale periods, no lock file gets that old: there is one holder, at every point. */
  lemma ShortSectionsExclude<L>(disk: L, jobs: seq<L -> L>, prune: L -> L, o: Options, steps: seq<Step>)
    requires ShortSections(disk, jobs, prune, o, steps, o.staleLockMs * 5)
    ensures NeverSteals(disk, jobs, prune, o, steps)
    ensures forall k :: 0 <= k <= |steps| ==> AtMostOneInside(Run(disk, jobs, prune, o, steps[..k]))
  {
    if n: nat :| n < |steps| && StealsAt(disk, jobs, prune, o, steps, n) {
      var k := FirstSteal(disk, jobs, prune, o, steps, n);
      GoodThroughout(disk, jobs, prune, o, steps, k);
      LockIsYoung(disk, jobs, prune, o, steps, k);
      assert false;
    }
    MutualExclusionIffNeverSteals(disk, jobs, prune, o, steps);
  }

  // === What stealing costs ===

  function Increment(): int -> int { x => x + 1 }

  function Identity(): int -> int { x => x }

  const STOLEN: seq<Step> := [Start(0), Start(1), Try(0), Advance(500), Try(1), Save(0), Save(1)]

  lemma RunStep(o: Options, steps: seq<Step>, step: Step)
    ensures Run(0, [Increment(), Increment()], Identity(), o, steps + [step])
         == Apply([Increment(), Increment()], Identity(), o, Run(0, [Increment(), Increment()], Identity(), o, steps), step)
  {
    assert (steps + [step])[..|steps|] == steps;
  }

  /** With a stale period of 100 ms and one update 500 ms long, two saved increments leave the value at one. */
  lemma StealingLosesAnUpdate()
    ensures var s := Run(0, [Increment(), Increment()], Identity(), Options(5000, 100), STOLEN);
      s.tasks == [Leaving(true), Leaving(true)] && s.disk == 1
      && Replay(0, [Increment(), Increment()], Identity(), s.acquired, s.tasks) == 2
  {
    var o := Options(5000, 100);
    RunStep(o, [], Start(0));
    assert [] + [Start(0)] == [Start(0)];
    RunStep(o, [Start(0)], Start(1));
    RunStep(o, [Start(0)] + [Start(1)], Try(0));
    RunStep(o, [Start(0)] + [Start(1)] + [Try(0)], Advance(500));
    RunStep(o, [Start(0)] + [Start(1)] + [Try(0)] + [Advance(500)], Try(1));
    RunStep(o, [Start(0)] + [Start(1)] + [Try(0)] + [Advance(500)] + [Try(1)], Save(0));
    RunStep(o, [Start(0)] + [Start(1)] + [Try(0)] + [Advance(500)] + [Try(1)] + [Save(0)], Save(1));
    assert STOLEN == [Start(0)] + [Start(1)] + [Try(0)] + [Advance(500)] + [Try(1)] + [Save(0)] + [Save(1)];
    var s := Run(0, [Increment(), Increment()], Identity(), o, STOLEN);
    assert s.tasks == [Leaving(true), Leaving(true)] && s.acquired == [0, 1];
    var jobs := [Increment(), Increment()];
    assert [0 as nat][..0] == [] && [0 as nat, 1][..1] == [0];
    assert Replay(0, jobs, Identity(), [], s.tasks) == 0;
    assert Replay(0, jobs, Identity(), [0], s.tasks) == 1;
    assert Replay(0, jobs, Identity(), [0, 1], s.tasks) == 2;
  }
}
