/** From the treasury's state to its releases: budget, solver, decision, transaction and on-chain checks. */
module Pipeline {
  import opened Prelude
  import opened Solver
  import SolverLaws
  import opened Bcs
  import opened ActionIntent
  import opened Treasury
  import opened SupplyTx
  import opened Decide

  function Amounts(legs: seq<SignedLeg>): int {
    if legs == [] then 0 else legs[0].intent.amount + Amounts(legs[1..])
  }

  predicate NotNegative(legs: seq<SignedLeg>) { forall i :: 0 <= i < |legs| ==> legs[i].intent.amount >= 0 }

  predicate Ascending(legs: seq<SignedLeg>, above: int) {
    && (forall i :: 0 <= i < |legs| ==> legs[i].intent.nonce > above)
    && forall i, j :: 0 <= i < j < |legs| ==> legs[i].intent.nonce < legs[j].intent.nonce
  }

  // === Dropping legs ===

  lemma {:induction false} KeptAre(legs: seq<SignedLeg>, keep: SignedLeg -> bool)
    ensures forall leg :: leg in Filter(legs, keep) ==> leg in legs && keep(leg)
  {
    if legs != [] { KeptAre(legs[1..], keep); }
  }

  lemma {:induction false} KeptTotal(legs: seq<SignedLeg>, keep: SignedLeg -> bool)
    requires NotNegative(legs)
    ensures 0 <= Amounts(Filter(legs, keep)) <= Amounts(legs)
  {
    if legs != [] {
      KeptTotal(legs[1..], keep);
      var rest := Filter(legs[1..], keep);
      assert Filter(legs, keep) == if keep(legs[0]) then [legs[0]] + rest else rest;
      if keep(legs[0]) { assert ([legs[0]] + rest)[1..] == rest; }
    }
  }

  lemma {:induction false} KeptAscend(legs: seq<SignedLeg>, keep: SignedLeg -> bool, above: int)
    requires Ascending(legs, above)
    ensures Ascending(Filter(legs, keep), above)
  {
    if legs != [] {
      KeptAscend(legs[1..], keep, legs[0].intent.nonce);
      var rest := Filter(legs[1..], keep);
      assert Filter(legs, keep) == if keep(legs[0]) then [legs[0]] + rest else rest;
      assert legs[0].intent.nonce > above;
    }
  }

  lemma {:induction false} KeepAll(allocations: seq<AllocationLeg>)
    requires SolverLaws.AllPositive(allocations)
    ensures Filter(allocations, (leg: AllocationLeg) => leg.xRaw > 0) == allocations
  {
    if allocations != [] {
      KeepAll(allocations[1..]);
      assert allocations == [allocations[0]] + allocations[1..];
    }
  }

  // === What was decided ===

  /** The clamp never raises an amount, so the decided total is at most what the solver placed. */
  lemma {:induction false} ClampedTotal(legs: seq<SignedLeg>, allocations: seq<AllocationLeg>, cap: int)
    requires |legs| == |allocations| && cap >= 0 && SolverLaws.AllPositive(allocations)
    requires forall i :: 0 <= i < |legs| ==>
      legs[i].intent.amount == if allocations[i].xRaw < cap then allocations[i].xRaw else cap
    ensures Amounts(legs) <= LegsTotal(allocations)
    ensures (forall i :: 0 <= i < |legs| ==> allocations[i].xRaw <= cap) ==> Amounts(legs) == LegsTotal(allocations)
  {
    if legs != [] { ClampedTotal(legs[1..], allocations[1..], cap); }
  }

  /** The decided legs: as many as the allocation has, clamped, with nonces counting up. */
  predicate DecidedFrom(legs: seq<SignedLeg>, r: AllocationResult, base: int) {
    && |legs| == |r.allocations|
    && NotNegative(legs) && Ascending(legs, base - 1)
    && Amounts(legs) <= r.allocatedRaw
  }

  lemma LegsForAllocation(input: DecideInput, inputHash: seq<Byte>, sign: seq<Byte> -> string, r: AllocationResult)
    requires AddressesValid(input) && input.perTxCapRaw >= 0 && SolverLaws.Conserves(r, r.budgetRaw)
    ensures DecidedFrom(LegsFor(input, inputHash, sign, r.allocations), r, input.nonce)
  {
    ClampedTotal(LegsFor(input, inputHash, sign, r.allocations), r.allocations, input.perTxCapRaw);
  }

  lemma FundedIsEverything(input: DecideInput)
    ensures FundedLegs(input) == Solve(SolverInput(input)).allocations
  {
    SolverLaws.SolveConserves(SolverInput(input));
    KeepAll(Solve(SolverInput(input)).allocations);
  }

  lemma DecidedLegs(input: DecideInput, inputHash: seq<Byte>, sign: seq<Byte> -> string)
    requires Decide.Decide(input, inputHash, sign).Some? && input.perTxCapRaw >= 0
    ensures DecidedFrom(Decide.Decide(input, inputHash, sign).value, Solve(SolverInput(input)), input.nonce)
  {
    var r := Solve(SolverInput(input));
    SolverLaws.SolveConserves(SolverInput(input));
    FundedIsEverything(input);
    LegsForAllocation(input, inputHash, sign, r);
  }

  // === What the vault checks of each leg ===

  /** The request fits the widths of the wire format, `count` nonces included. */
  predicate Encodable(input: DecideInput, inputHash: seq<Byte>, count: nat) {
    && 0 <= input.timestampMs < U64 && 0 <= input.expiresAtMs < U64
    && 0 <= input.nonce && input.nonce + count <= U64
    && 0 <= input.perTxCapRaw < U64
    && |input.assetType| < U32 && |input.chainId| < U32 && |inputHash| < U32
  }

  lemma IntentInRange(input: DecideInput, inputHash: seq<Byte>, leg: AllocationLeg, i: nat, count: nat)
    requires Encodable(input, inputHash, count) && i < count && leg.xRaw > 0
    ensures InRange(IntentFor(input, inputHash, leg, i), input.timestampMs)
  {
    var a := IntentFor(input, inputHash, leg, i);
    forall k | 0 <= k < 15 ensures FieldInRange(a, k) {
    }
  }

  /** What the enclave signed is what the vault re-derives from the fields of the command. */
  lemma SignatureHolds(sign: seq<Byte> -> string, a: Intent, timestampMs: int, c: Command)
    requires Addressed(a) && InRange(a, timestampMs)
    requires c.intent == a && c.timestampMs == timestampMs && c.signature == sign(Envelope(a, timestampMs))
    ensures VerifierOf(sign)(c)
  {
    HandRolledMatchesSchema(a, timestampMs, Address32(a.treasuryId).value, Address32(a.agentCapId).value);
  }

  /** The request, the vault and the configured objects name the same treasury and the requested capability. */
  predicate Wired(input: DecideInput, refs: Refs, v: Vault) {
    && SameAddress(input.treasuryId, v.treasuryId)
    && input.perTxCapRaw == v.state.perTxCapRaw
    && forall id :: id in {0, 1, 2, 255} && HasRefFor(refs, id) ==>
         RefFor(refs, id).value == Objects(input.treasuryId, input.agentCapId) && id in v.adapters
  }

  /** The capability of the request is the one the vault has active. */
  predicate AgentMatches(input: DecideInput, v: Vault) {
    v.state.agentCapId.Some? && SameAddress(input.agentCapId, v.state.agentCapId.value)
  }

  predicate Connected(input: DecideInput, refs: Refs, v: Vault) { Wired(input, refs, v) && AgentMatches(input, v) }

  lemma LegAuthorised(
    input: DecideInput, inputHash: seq<Byte>, sign: seq<Byte> -> string, refs: Refs, v: Vault, laterMs: int,
    allocation: AllocationLeg, i: nat, count: nat, leg: SignedLeg)
    requires Connected(input, refs, v) && Encodable(input, inputHash, count) && AddressesValid(input)
    requires i < count && allocation.xRaw > 0 && laterMs <= input.expiresAtMs
    requires leg == Sign(sign, IntentFor(input, inputHash, allocation, i), input.timestampMs)
    requires HasRefFor(refs, leg.intent.protocolId)
    ensures Authorised(VerifierOf(sign), v, CommandFor(leg, refs, input.timestampMs), laterMs)
  {
    var a := IntentFor(input, inputHash, allocation, i);
    assert a.protocolId in {0, 1, 2, 255};
    IntentInRange(input, inputHash, allocation, i, count);
    SignatureHolds(sign, a, input.timestampMs, CommandFor(leg, refs, input.timestampMs));
  }

  /** The legs whose protocol has configured objects. */
  function Executable(legs: seq<SignedLeg>, refs: Refs): (r: seq<SignedLeg>)
    ensures forall i :: 0 <= i < |r| ==> r[i] in legs && HasRefFor(refs, r[i].intent.protocolId)
  {
    var keep := (leg: SignedLeg) => HasRefFor(refs, leg.intent.protocolId);
    KeptAre(legs, keep);
    Filter(legs, keep)
  }

  function Commands(input: DecideInput, legs: seq<SignedLeg>, refs: Refs): seq<Command> {
    CommandsFor(Executable(legs, refs), refs, input.timestampMs)
  }

  lemma AllLegsAuthorised(
    input: DecideInput, inputHash: seq<Byte>, sign: seq<Byte> -> string, refs: Refs, v: Vault, laterMs: int,
    allocations: seq<AllocationLeg>)
    requires Connected(input, refs, v) && Encodable(input, inputHash, |allocations|) && AddressesValid(input)
    requires SolverLaws.AllPositive(allocations) && laterMs <= input.expiresAtMs
    ensures var legs := LegsFor(input, inputHash, sign, allocations);
      AllAuthorised(VerifierOf(sign), v, Commands(input, legs, refs), laterMs)
  {
    var legs := LegsFor(input, inputHash, sign, allocations);
    var kept := Executable(legs, refs);
    forall k | 0 <= k < |kept| ensures Authorised(VerifierOf(sign), v, Commands(input, legs, refs)[k], laterMs) {
      var i :| 0 <= i < |legs| && legs[i] == kept[k];
      LegAuthorised(input, inputHash, sign, refs, v, laterMs, allocations[i], i, |allocations|, legs[i]);
    }
  }

  // === The order and the total of the commands ===

  lemma {:induction false} CommandTotal(legs: seq<SignedLeg>, refs: Refs, timestampMs: int)
    requires forall i :: 0 <= i < |legs| ==> HasRefFor(refs, legs[i].intent.protocolId)
    ensures TotalAmount(CommandsFor(legs, refs, timestampMs)) == Amounts(legs)
  {
    if legs != [] {
      CommandTotal(legs[1..], refs, timestampMs);
      assert CommandsFor(legs, refs, timestampMs)[1..] == CommandsFor(legs[1..], refs, timestampMs);
    }
  }

  lemma CommandsInOrder(input: DecideInput, legs: seq<SignedLeg>, refs: Refs, above: int)
    requires NotNegative(legs) && Ascending(legs, above)
    ensures AscendingNonces(Commands(input, legs, refs), above)
    ensures TotalAmount(Commands(input, legs, refs)) <= Amounts(legs)
  {
    var keep := (leg: SignedLeg) => HasRefFor(refs, leg.intent.protocolId);
    KeptTotal(legs, keep);
    KeptAscend(legs, keep, above);
    CommandTotal(Executable(legs, refs), refs, input.timestampMs);
  }

  // === End to end ===

  /** The request made of a budget the vault's state allows: deposit and cap are taken from it. */
  predicate Requested(input: DecideInput, v: Vault, nowMs: int) {
    && ComputeDeployable(v.state, nowMs).canSupply
    && input.depositRaw == ComputeDeployable(v.state, nowMs).deployableRaw
  }

  lemma DeployableIsHeadroom(state: TreasuryState, nowMs: int)
    requires ComputeDeployable(state, nowMs).canSupply
    ensures ComputeDeployable(state, nowMs).deployableRaw == Headroom(state, nowMs)
  {
  }

  lemma ExecutesWithinBudget(
    input: DecideInput, inputHash: seq<Byte>, sign: seq<Byte> -> string, refs: Refs, v: Vault, nowMs: int,
    laterMs: int, r: AllocationResult)
    requires Requested(input, v, nowMs) && Connected(input, refs, v) && AddressesValid(input) && Sane(v.state)
    requires Encodable(input, inputHash, |r.allocations|) && input.nonce > v.lastNonce
    requires nowMs <= laterMs <= input.expiresAtMs && laterMs < v.state.expiryMs
    requires SolverLaws.Conserves(r, input.depositRaw) && r.unallocatedRaw >= 0
    ensures var legs := LegsFor(input, inputHash, sign, r.allocations);
      ExecuteAll(VerifierOf(sign), v, Commands(input, legs, refs), laterMs).Some?
  {
    var legs := LegsFor(input, inputHash, sign, r.allocations);
    var cs := Commands(input, legs, refs);
    LegsForAllocation(input, inputHash, sign, r);
    AllLegsAuthorised(input, inputHash, sign, refs, v, laterMs, r.allocations);
    CommandsInOrder(input, legs, refs, input.nonce - 1);
    DeployableIsHeadroom(v.state, nowMs);
    HeadroomLater(v.state, nowMs, laterMs);
    if cs != [] { ExecutesIffWithinHeadroom(VerifierOf(sign), v, cs, laterMs); }
  }

  /** A capability other than the active one is refused at the first command. */
  lemma MismatchAborts(
    verify: Command -> bool, input: DecideInput, legs: seq<SignedLeg>, refs: Refs, v: Vault, laterMs: int)
    requires Wired(input, refs, v) && !AgentMatches(input, v) && Commands(input, legs, refs) != []
    ensures ExecuteAll(verify, v, Commands(input, legs, refs), laterMs).None?
  {
    var c, leg := Commands(input, legs, refs)[0], Executable(legs, refs)[0];
    assert c == CommandFor(leg, refs, input.timestampMs);
    assert leg.intent.protocolId in {0, 1, 2, 255};
    assert !Authorised(verify, v, c, laterMs);
  }

  /**
   * End to end. A budget computed from the vault's state, a decision on it whose floored amounts overshoot
   * by no more than the largest, a fresh base nonce: the commands for the legs that have configured objects
   * pass every check of the vault, in order, now or at any later time before expiry with unchanged state, if
   * and only if there are none or the configured capability is the active one. The budget is granted either way.
   */
  lemma DecidedLegsExecute(
    input: DecideInput, inputHash: seq<Byte>, sign: seq<Byte> -> string, refs: Refs, v: Vault, nowMs: int, laterMs: int)
    requires Requested(input, v, nowMs) && Wired(input, refs, v) && Sane(v.state)
    requires Decide.Decide(input, inputHash, sign).Some?
    requires Encodable(input, inputHash, |Decide.Decide(input, inputHash, sign).value|) && input.nonce > v.lastNonce
    requires nowMs <= laterMs <= input.expiresAtMs && laterMs < v.state.expiryMs
    requires NoOverspend(SolverInput(input))
    ensures var cs := Commands(input, Decide.Decide(input, inputHash, sign).value, refs);
      ExecuteAll(VerifierOf(sign), v, cs, laterMs).Some? <==> cs == [] || AgentMatches(input, v)
  {
    var r := Solve(SolverInput(input));
    SolverLaws.SolveConserves(SolverInput(input));
    FundedIsEverything(input);
    NoOverspendMeans(SolverInput(input));
    var legs := LegsFor(input, inputHash, sign, r.allocations);
    if AgentMatches(input, v) {
      ExecutesWithinBudget(input, inputHash, sign, refs, v, nowMs, laterMs, r);
    } else if Commands(input, legs, refs) != [] {
      MismatchAborts(VerifierOf(sign), input, legs, refs, v, laterMs);
    }
  }

  /** The floored amounts overshoot the budget by no more than the largest of them. */
  predicate NoOverspend(input: SolveInput) {
    SolverLaws.Funded(input) ==>
      var xs := SolverLaws.Floored(input);
      Overshoot(xs, input.budgetRaw) <= xs[LargestIndex(xs)]
  }

  lemma NoOverspendMeans(input: SolveInput)
    requires NoOverspend(input) && input.budgetRaw >= 0
    ensures Solve(input).unallocatedRaw >= 0
  {
    if SolverLaws.Funded(input) { SolverLaws.SolveWithinBudgetIff(input); }
  }

  /** A condition on the request alone: the caps of all curves but the largest fit the budget. */
  lemma FittingCapsExecute(
    input: DecideInput, inputHash: seq<Byte>, sign: seq<Byte> -> string, refs: Refs, v: Vault, nowMs: int, laterMs: int)
    requires Requested(input, v, nowMs) && Wired(input, refs, v) && Sane(v.state)
    requires Decide.Decide(input, inputHash, sign).Some? && SolverLaws.CapsFit(SolverInput(input))
    requires Encodable(input, inputHash, |Decide.Decide(input, inputHash, sign).value|) && input.nonce > v.lastNonce
    requires nowMs <= laterMs <= input.expiresAtMs && laterMs < v.state.expiryMs
    ensures var cs := Commands(input, Decide.Decide(input, inputHash, sign).value, refs);
      ExecuteAll(VerifierOf(sign), v, cs, laterMs).Some? <==> cs == [] || AgentMatches(input, v)
  {
    if SolverLaws.Funded(SolverInput(input)) {
      SolverLaws.FittingCapsNeverOverspend(SolverInput(input));
      SolverLaws.SolveWithinBudgetIff(SolverInput(input));
    }
    DecidedLegsExecute(input, inputHash, sign, refs, v, nowMs, laterMs);
  }

  /** With one or two candidate curves no hypothesis on the solver is needed. */
  lemma TwoCurvesExecute(
    input: DecideInput, inputHash: seq<Byte>, sign: seq<Byte> -> string, refs: Refs, v: Vault, nowMs: int, laterMs: int)
    requires Requested(input, v, nowMs) && Wired(input, refs, v) && Sane(v.state)
    requires Decide.Decide(input, inputHash, sign).Some? && |input.curves| <= 2
    requires Encodable(input, inputHash, |Decide.Decide(input, inputHash, sign).value|) && input.nonce > v.lastNonce
    requires nowMs <= laterMs <= input.expiresAtMs && laterMs < v.state.expiryMs
    ensures var cs := Commands(input, Decide.Decide(input, inputHash, sign).value, refs);
      ExecuteAll(VerifierOf(sign), v, cs, laterMs).Some? <==> cs == [] || AgentMatches(input, v)
  {
    SolverLaws.TwoCapsFit(SolverInput(input));
    FittingCapsExecute(input, inputHash, sign, refs, v, nowMs, laterMs);
  }

  // === Three equal flat pools ===

  lemma {:induction false} AllKept(legs: seq<SignedLeg>, keep: SignedLeg -> bool)
    requires forall i :: 0 <= i < |legs| ==> keep(legs[i])
    ensures Filter(legs, keep) == legs
  {
    if legs != [] {
      AllKept(legs[1..], keep);
      assert legs == [legs[0]] + legs[1..];
    }
  }

  /** When every leg has its objects the transaction asks for all that was decided. */
  lemma AllExecutableTotal(input: DecideInput, legs: seq<SignedLeg>, refs: Refs)
    requires forall i :: 0 <= i < |legs| ==> HasRefFor(refs, legs[i].intent.protocolId)
    ensures TotalAmount(Commands(input, legs, refs)) == Amounts(legs)
  {
    AllKept(legs, (leg: SignedLeg) => HasRefFor(refs, leg.intent.protocolId));
    CommandTotal(legs, refs, input.timestampMs);
  }

  predicate AllFit(allocations: seq<AllocationLeg>, cap: int, refs: Refs) {
    forall i :: 0 <= i < |allocations| ==>
      allocations[i].xRaw <= cap && HasRefFor(refs, ProtocolId(allocations[i].protocol))
  }

  lemma TooMuchAborts(
    input: DecideInput, inputHash: seq<Byte>, sign: seq<Byte> -> string, refs: Refs, v: Vault, nowMs: int,
    r: AllocationResult)
    requires Requested(input, v, nowMs) && Connected(input, refs, v) && AddressesValid(input) && Sane(v.state)
    requires Encodable(input, inputHash, |r.allocations|) && input.nonce > v.lastNonce
    requires nowMs <= input.expiresAtMs && nowMs < v.state.expiryMs && v.state.periodMs > 0
    requires SolverLaws.Conserves(r, input.depositRaw) && r.allocatedRaw > input.depositRaw
    requires AllFit(r.allocations, input.perTxCapRaw, refs)
    ensures var legs := LegsFor(input, inputHash, sign, r.allocations);
      ExecuteAll(VerifierOf(sign), v, Commands(input, legs, refs), nowMs).None?
  {
    var legs := LegsFor(input, inputHash, sign, r.allocations);
    var cs := Commands(input, legs, refs);
    LegsForAllocation(input, inputHash, sign, r);
    ClampedTotal(legs, r.allocations, input.perTxCapRaw);
    AllExecutableTotal(input, legs, refs);
    AllLegsAuthorised(input, inputHash, sign, refs, v, nowMs, r.allocations);
    CommandsInOrder(input, legs, refs, input.nonce - 1);
    DeployableIsHeadroom(v.state, nowMs);
    ExecutesIffWithinHeadroom(VerifierOf(sign), v, cs, nowMs);
  }

  lemma EqualPoolsAsk(input: DecideInput)
    requires SolverLaws.EqualRewardPools(SolverInput(input)) && |input.curves| >= 3
    ensures Solve(SolverInput(input)).allocatedRaw > input.depositRaw
    ensures Solve(SolverInput(input)).allocations != []
  {
    SolverLaws.EqualPoolsOverspend(SolverInput(input));
    SolverLaws.AllocatedIs(SolverInput(input));
    SolverLaws.SolveConserves(SolverInput(input));
    MoreThanOne(Solve(SolverInput(input)), |input.curves|);
  }

  lemma EqualPoolLegs(input: DecideInput, refs: Refs)
    requires SolverLaws.EqualRewardPools(SolverInput(input))
    requires forall i :: 0 <= i < |input.curves| ==> HasRefFor(refs, ProtocolId(input.curves[i].protocol))
    ensures AllFit(Solve(SolverInput(input)).allocations, input.perTxCapRaw, refs)
  {
    var legs := Solve(SolverInput(input)).allocations;
    SolverLaws.EqualPoolLegs(SolverInput(input));
    forall i | 0 <= i < |legs|
      ensures legs[i].xRaw <= input.perTxCapRaw && HasRefFor(refs, ProtocolId(legs[i].protocol))
    {
      assert SolverLaws.WholeBudgetLeg(SolverInput(input), legs[i]);
    }
  }

  lemma DecisionIs(input: DecideInput, inputHash: seq<Byte>, sign: seq<Byte> -> string)
    requires Solve(SolverInput(input)).allocations != [] && AddressesValid(input)
    ensures Decide.Decide(input, inputHash, sign)
         == Some(LegsFor(input, inputHash, sign, Solve(SolverInput(input)).allocations))
  {
    FundedIsEverything(input);
  }

  /** The hypothesis on the solver matters: from three equal reward-only pools on, the transaction aborts. */
  lemma EqualPoolsAbort(
    input: DecideInput, inputHash: seq<Byte>, sign: seq<Byte> -> string, refs: Refs, v: Vault, nowMs: int)
    requires Requested(input, v, nowMs) && Connected(input, refs, v) && Sane(v.state)
    requires SolverLaws.EqualRewardPools(SolverInput(input)) && |input.curves| >= 3
    requires forall i :: 0 <= i < |input.curves| ==> HasRefFor(refs, ProtocolId(input.curves[i].protocol))
    requires Encodable(input, inputHash, |Solve(SolverInput(input)).allocations|) && input.nonce > v.lastNonce
    requires nowMs <= input.expiresAtMs && v.state.periodMs > 0
    ensures Decide.Decide(input, inputHash, sign).Some?
    ensures var legs := Decide.Decide(input, inputHash, sign).value;
      ExecuteAll(VerifierOf(sign), v, Commands(input, legs, refs), nowMs).None?
  {
    EqualPoolsAsk(input);
    EqualPoolLegs(input, refs);
    SolverLaws.SolveConserves(SolverInput(input));
    DecisionIs(input, inputHash, sign);
    TooMuchAborts(input, inputHash, sign, refs, v, nowMs, Solve(SolverInput(input)));
  }

  lemma MoreThanOne(r: AllocationResult, n: int)
    requires SolverLaws.Overspends(r, n) && n >= 3 && r.budgetRaw > 0 && LegsTotal(r.allocations) == r.allocatedRaw
    ensures r.allocatedRaw > r.budgetRaw && r.allocations != []
  {
    assert (n - 1) * r.budgetRaw == r.budgetRaw + (n - 2) * r.budgetRaw;
    assert (n - 2) * r.budgetRaw >= r.budgetRaw by { assert (n - 3) * r.budgetRaw >= 0; }
  }
}
