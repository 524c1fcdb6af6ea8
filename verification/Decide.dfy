/** The enclave's decision (enclave/app/decide.ts): one signed intent per funded leg. */
module Decide {
  import opened Prelude
  import opened StrategyLedger
  import opened Curves
  import opened Solver
  import opened Bcs
  import opened ActionIntent
  import opened SupplyTx

  datatype DecideInput = DecideInput(
    curves: seq<ReserveCurve>, depositRaw: int, treasuryId: string, agentCapId: string, perTxCapRaw: int,
    nonce: int, expiresAtMs: int, assetType: seq<Byte>, chainId: seq<Byte>, timestampMs: int)

  function ProtocolId(p: Protocol): int {
    match p
    case Suilend => 0
    case Scallop => 1
    case Navi => 2
  }

  function Zeros(n: nat): (r: seq<Byte>)
    ensures |r| == n
  {
    seq(n, i => 0)
  }

  function SolverInput(input: DecideInput): SolveInput {
    SolveInput(input.curves, input.depositRaw, Some(input.perTxCapRaw), None)
  }

  /** The amount is capped per transaction and the nonce counts up from the base. */
  function IntentFor(input: DecideInput, inputHash: seq<Byte>, leg: AllocationLeg, i: nat): Intent {
    Intent(
      1, input.chainId, input.treasuryId, input.agentCapId, input.nonce + i, input.expiresAtMs, 0,
      ProtocolId(leg.protocol), input.assetType,
      if leg.xRaw < input.perTxCapRaw then leg.xRaw else input.perTxCapRaw, 0, 0, Zeros(32), inputHash, Zeros(32))
  }

  function Sign(sign: seq<Byte> -> string, a: Intent, timestampMs: int): SignedLeg
    requires Addressed(a)
  {
    SignedLeg(a, sign(Envelope(a, timestampMs)))
  }

  function FundedLegs(input: DecideInput): seq<AllocationLeg> {
    Filter(Solve(SolverInput(input)).allocations, (leg: AllocationLeg) => leg.xRaw > 0)
  }

  predicate AddressesValid(input: DecideInput) {
    Address32(input.treasuryId).Some? && Address32(input.agentCapId).Some?
  }

  function LegsFor(input: DecideInput, inputHash: seq<Byte>, sign: seq<Byte> -> string, funded: seq<AllocationLeg>)
    : (r: seq<SignedLeg>)
    requires AddressesValid(input)
    ensures |r| == |funded|
    ensures forall i :: 0 <= i < |r| ==>
      r[i] == Sign(sign, IntentFor(input, inputHash, funded[i], i), input.timestampMs)
  {
    seq(|funded|, i requires 0 <= i < |funded| =>
      Sign(sign, IntentFor(input, inputHash, funded[i], i), input.timestampMs))
  }

  /** `None` where the source throws: nothing funded, or an address the encoder refuses. */
  function Decide(input: DecideInput, inputHash: seq<Byte>, sign: seq<Byte> -> string): Option<seq<SignedLeg>> {
    var funded := FundedLegs(input);
    if funded == [] || !AddressesValid(input) then None else Some(LegsFor(input, inputHash, sign, funded))
  }
}
