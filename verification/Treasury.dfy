/**
 * The deployable budget of agent/src/clients/chain/treasuryClient.ts and an abstract treasury that makes the
 * checks its comments name, in the order of the on-chain release.
 */
module Treasury {
  import opened Prelude
  import opened Bcs
  import opened ActionIntent

  datatype TreasuryState = TreasuryState(
    fundsRaw: int, perTxCapRaw: int, periodCapRaw: int, spentInPeriodRaw: int, periodStartMs: int,
    periodMs: int, expiryMs: int, agentCapId: Option<string>)

  datatype DeployableBudget = DeployableBudget(deployableRaw: int, remainingPeriodRaw: int, canSupply: bool)

  function Spent(state: TreasuryState, nowMs: int): int {
    if nowMs >= state.periodStartMs + state.periodMs then 0 else state.spentInPeriodRaw
  }

  function ComputeDeployable(state: TreasuryState, nowMs: int): DeployableBudget {
    if state.agentCapId.None? || nowMs >= state.expiryMs then DeployableBudget(0, 0, false)
    else
      var spent := Spent(state, nowMs);
      var remaining := if state.periodCapRaw > spent then state.periodCapRaw - spent else 0;
      var deployable := if state.fundsRaw < remaining then state.fundsRaw else remaining;
      if deployable <= 0 then DeployableBudget(0, remaining, false)
      else DeployableBudget(deployable, remaining, true)
  }

  // === The abstract treasury ===

  /** The treasury with its replay guard: `lastNonce` is zero before the first release. */
  datatype Vault = Vault(treasuryId: string, state: TreasuryState, lastNonce: int, adapters: set<int>)

  /** A release the vault would grant on its bounds alone, the per-transaction cap aside. */
  predicate WithinBounds(state: TreasuryState, amount: int, nowMs: int) {
    && nowMs < state.expiryMs
    && Spent(state, nowMs) + amount <= state.periodCapRaw
    && amount <= state.fundsRaw
  }

  /** The state after a release: the window rolls when it has elapsed. */
  function Released(state: TreasuryState, amount: int, nowMs: int): TreasuryState {
    state.(
      periodStartMs := if nowMs >= state.periodStartMs + state.periodMs then nowMs else state.periodStartMs,
      spentInPeriodRaw := Spent(state, nowMs) + amount,
      fundsRaw := state.fundsRaw - amount)
  }

  /** `deployableRaw` is the greatest positive amount the bounds admit, and `canSupply` says there is one. */
  lemma DeployableIsGreatest(state: TreasuryState, nowMs: int, amount: int)
    requires state.agentCapId.Some? && amount > 0
    ensures WithinBounds(state, amount, nowMs)
       <==> ComputeDeployable(state, nowMs).canSupply && amount <= ComputeDeployable(state, nowMs).deployableRaw
  {
  }

  /** What is left for further releases at the same moment: funds and period cap, as the vault sees them. */
  function Headroom(state: TreasuryState, nowMs: int): int {
    var remaining := state.periodCapRaw - Spent(state, nowMs);
    if state.fundsRaw < remaining then state.fundsRaw else remaining
  }

  /** A release takes exactly its amount off the headroom (if a window has any length). */
  lemma ReleaseTakesItsAmount(state: TreasuryState, amount: int, nowMs: int)
    requires amount >= 0 && state.periodMs >= 0 && Spent(state, nowMs) >= 0
    ensures Headroom(Released(state, amount, nowMs), nowMs) >= Headroom(state, nowMs) - amount
    ensures state.periodMs > 0 ==> Headroom(Released(state, amount, nowMs), nowMs) == Headroom(state, nowMs) - amount
  {
  }

  /** Later, with the state unchanged, the headroom is no smaller. */
  lemma HeadroomLater(state: TreasuryState, nowMs: int, laterMs: int)
    requires nowMs <= laterMs && state.spentInPeriodRaw >= 0
    ensures Headroom(state, nowMs) <= Headroom(state, laterMs)
  {
  }

  // === One attested release ===

  /** What a command of the transaction passes on: the objects, the signed fields and the signature. */
  datatype Command = Command(
    entry: int, treasuryId: string, agentCapId: string, intent: Intent, timestampMs: int, signature: string)

  predicate SameAddress(a: string, b: string) { Address32(a).Some? && Address32(a) == Address32(b) }

  /** The signature is over the schema encoding of exactly these fields; out of range there is none. */
  predicate SignatureValid(sign: seq<Byte> -> string, c: Command) {
    && Addressed(c.intent)
    && var encoded := Serialize(EnvelopeSchema(), SentMessage(c.intent, c.timestampMs));
    encoded.Some? && c.signature == sign(encoded.value)
  }

  /** The verifier of the key that `sign` signs with. */
  function VerifierOf(sign: seq<Byte> -> string): Command -> bool { c => SignatureValid(sign, c) }

  /** The checks that do not depend on what earlier commands did, the bounds apart. */
  predicate Authorised(verify: Command -> bool, v: Vault, c: Command, nowMs: int) {
    && verify(c)
    && SameAddress(c.treasuryId, v.treasuryId) && SameAddress(c.intent.treasuryId, v.treasuryId)
    && SameAddress(c.intent.agentCapId, c.agentCapId)
    && c.intent.expiresAtMs >= nowMs && c.intent.actionKind == 0
    && c.entry == c.intent.protocolId && c.intent.protocolId in v.adapters
    && v.state.agentCapId.Some? && SameAddress(c.agentCapId, v.state.agentCapId.value)
    && 0 <= c.intent.amount <= v.state.perTxCapRaw
  }

  /** One command; `None` where the transaction aborts. */
  function Release(verify: Command -> bool, v: Vault, c: Command, nowMs: int): Option<Vault> {
    if !Authorised(verify, v, c, nowMs) then None
    else if c.intent.nonce <= v.lastNonce then None
    else if !WithinBounds(v.state, c.intent.amount, nowMs) then None
    else Some(v.(lastNonce := c.intent.nonce, state := Released(v.state, c.intent.amount, nowMs)))
  }

  /** A transaction is atomic: all of its commands in order, or nothing. */
  function ExecuteAll(verify: Command -> bool, v: Vault, cs: seq<Command>, nowMs: int): Option<Vault>
    decreases |cs|
  {
    if cs == [] then Some(v)
    else
      var next := Release(verify, v, cs[0], nowMs);
      if next.None? then None else ExecuteAll(verify, next.value, cs[1..], nowMs)
  }

  function TotalAmount(cs: seq<Command>): int {
    if cs == [] then 0 else cs[0].intent.amount + TotalAmount(cs[1..])
  }

  predicate AscendingNonces(cs: seq<Command>, above: int) {
    && (forall i :: 0 <= i < |cs| ==> cs[i].intent.nonce > above)
    && forall i, j :: 0 <= i < j < |cs| ==> cs[i].intent.nonce < cs[j].intent.nonce
  }

  predicate AllAuthorised(verify: Command -> bool, v: Vault, cs: seq<Command>, nowMs: int) {
    forall i :: 0 <= i < |cs| ==> Authorised(verify, v, cs[i], nowMs)
  }

  predicate Sane(state: TreasuryState) { state.periodMs >= 0 && state.spentInPeriodRaw >= 0 }

  /** Authorisation does not depend on what a release changes. */
  lemma StillAuthorised(verify: Command -> bool, v: Vault, w: Vault, cs: seq<Command>, nowMs: int)
    requires AllAuthorised(verify, v, cs, nowMs)
    requires w.treasuryId == v.treasuryId && w.adapters == v.adapters
    requires w.state.agentCapId == v.state.agentCapId && w.state.perTxCapRaw == v.state.perTxCapRaw
    ensures AllAuthorised(verify, w, cs, nowMs)
  {
    forall i | 0 <= i < |cs| ensures Authorised(verify, w, cs[i], nowMs) {
      assert Authorised(verify, v, cs[i], nowMs);
    }
  }

  /**
   * Authorised commands with ascending nonces go through when their total fits the headroom; and with a
   * window of positive length only then.
   */
  lemma {:induction false} ExecutesIffWithinHeadroom(
    verify: Command -> bool, v: Vault, cs: seq<Command>, nowMs: int)
    requires AllAuthorised(verify, v, cs, nowMs) && AscendingNonces(cs, v.lastNonce)
    requires Sane(v.state) && nowMs < v.state.expiryMs && cs != []
    ensures TotalAmount(cs) <= Headroom(v.state, nowMs) ==> ExecuteAll(verify, v, cs, nowMs).Some?
    ensures v.state.periodMs > 0 && ExecuteAll(verify, v, cs, nowMs).Some? ==>
      TotalAmount(cs) <= Headroom(v.state, nowMs)
    decreases |cs|
  {
    var c, rest := cs[0], cs[1..];
    var amount := c.intent.amount;
    assert Authorised(verify, v, c, nowMs);
    TotalNotNegative(verify, v, rest, nowMs);
    ReleaseTakesItsAmount(v.state, amount, nowMs);
    assert WithinBounds(v.state, amount, nowMs) <==> amount <= Headroom(v.state, nowMs);
    if WithinBounds(v.state, amount, nowMs) {
      var w := Release(verify, v, c, nowMs).value;
      if rest == [] {
        assert TotalAmount(rest) == 0;
      } else {
        StillAuthorised(verify, v, w, rest, nowMs);
        ExecutesIffWithinHeadroom(verify, w, rest, nowMs);
      }
    }
  }

  lemma {:induction false} TotalNotNegative(verify: Command -> bool, v: Vault, cs: seq<Command>, nowMs: int)
    requires AllAuthorised(verify, v, cs, nowMs)
    ensures TotalAmount(cs) >= 0
    decreases |cs|
  {
    if cs != [] {
      assert Authorised(verify, v, cs[0], nowMs);
      TotalNotNegative(verify, v, cs[1..], nowMs);
    }
  }

  lemma ReleaseLeaves(verify: Command -> bool, v: Vault, c: Command, nowMs: int)
    requires Release(verify, v, c, nowMs).Some?
    ensures var w := Release(verify, v, c, nowMs).value;
      w.state.fundsRaw == v.state.fundsRaw - c.intent.amount && w.lastNonce == c.intent.nonce
  {
  }

  /** What a transaction that goes through leaves: the funds less the total, and the last nonce. */
  predicate Leaves(v: Vault, w: Vault, cs: seq<Command>) {
    && w.state.fundsRaw == v.state.fundsRaw - TotalAmount(cs)
    && w.lastNonce == if cs == [] then v.lastNonce else cs[|cs| - 1].intent.nonce
  }

  lemma LeavesMore(v: Vault, next: Vault, w: Vault, cs: seq<Command>)
    requires cs != [] && Leaves(next, w, cs[1..])
    requires next.state.fundsRaw == v.state.fundsRaw - cs[0].intent.amount && next.lastNonce == cs[0].intent.nonce
    ensures Leaves(v, w, cs)
  {
  }

  lemma {:induction false} ExecutedState(verify: Command -> bool, v: Vault, cs: seq<Command>, nowMs: int)
    requires ExecuteAll(verify, v, cs, nowMs).Some?
    ensures Leaves(v, ExecuteAll(verify, v, cs, nowMs).value, cs)
    decreases |cs|
  {
    if cs != [] {
      ReleaseLeaves(verify, v, cs[0], nowMs);
      var next := Release(verify, v, cs[0], nowMs).value;
      ExecutedState(verify, next, cs[1..], nowMs);
      LeavesMore(v, next, ExecuteAll(verify, v, cs, nowMs).value, cs);
    }
  }
}
