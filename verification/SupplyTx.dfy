/** One transaction command per leg: `buildVerifiedAllocationTx` of agent/src/core/verifiedSupplyTx.ts. */
module SupplyTx {
  import opened Prelude
  import opened ActionIntent
  import opened Treasury

  datatype SignedLeg = SignedLeg(intent: Intent, signature: string)

  /** The shared objects of one protocol's entry point. */
  datatype Objects = Objects(treasuryId: string, agentCapId: string)

  datatype Refs = Refs(
    suilend: Option<Objects>, scallop: Option<Objects>, navi: Option<Objects>, mock: Option<Objects>)

  datatype BuildError = MissingRefs(missing: int) | UnsupportedProtocol(unsupported: int)

  function RefFor(refs: Refs, protocolId: int): Option<Objects> {
    if protocolId == 0 then refs.suilend
    else if protocolId == 1 then refs.scallop
    else if protocolId == 2 then refs.navi
    else if protocolId == 255 then refs.mock
    else None
  }

  /** `hasRefFor`: the filter applied to the decided legs before a transaction is built. */
  predicate HasRefFor(refs: Refs, protocolId: int) { RefFor(refs, protocolId).Some? }

  function CommandFor(leg: SignedLeg, refs: Refs, timestampMs: int): Command
    requires HasRefFor(refs, leg.intent.protocolId)
  {
    var objects := RefFor(refs, leg.intent.protocolId).value;
    Command(leg.intent.protocolId, objects.treasuryId, objects.agentCapId, leg.intent, timestampMs, leg.signature)
  }

  function CommandsFor(legs: seq<SignedLeg>, refs: Refs, timestampMs: int): (r: seq<Command>)
    requires forall i :: 0 <= i < |legs| ==> HasRefFor(refs, legs[i].intent.protocolId)
    ensures |r| == |legs|
    ensures forall i :: 0 <= i < |legs| ==> r[i] == CommandFor(legs[i], refs, timestampMs)
  {
    seq(|legs|, i requires 0 <= i < |legs| => CommandFor(legs[i], refs, timestampMs))
  }

  function ErrorFor(protocolId: int): BuildError {
    if protocolId in {0, 1, 2, 255} then MissingRefs(protocolId) else UnsupportedProtocol(protocolId)
  }

  class Transaction {
    var commands: seq<Command>

    constructor ()
      ensures commands == []
    {
      commands := [];
    }

    method MoveCall(entry: int, objects: Objects, leg: SignedLeg, timestampMs: int)
      modifies this
      ensures commands == old(commands)
        + [Command(entry, objects.treasuryId, objects.agentCapId, leg.intent, timestampMs, leg.signature)]
    {
      commands := commands
        + [Command(entry, objects.treasuryId, objects.agentCapId, leg.intent, timestampMs, leg.signature)];
    }
  }

  /** How many legs get their command: those before the first without refs. */
  function Routable(legs: seq<SignedLeg>, refs: Refs): nat {
    FindIndex(legs, (leg: SignedLeg) => !HasRefFor(refs, leg.intent.protocolId))
  }

  /**
   * Appends one command per leg, in order, to what the transaction already holds. It stops with an error at
   * the first leg without refs, whose predecessors have been appended by then.
   */
  method BuildVerifiedAllocationTx(legs: seq<SignedLeg>, refs: Refs, timestampMs: int, tx: Transaction)
    returns (error: Option<BuildError>)
    modifies tx
    ensures tx.commands == old(tx.commands) + CommandsFor(legs[..Routable(legs, refs)], refs, timestampMs)
    ensures error == if Routable(legs, refs) == |legs| then None
                     else Some(ErrorFor(legs[Routable(legs, refs)].intent.protocolId))
  {
    for i := 0 to |legs|
      invariant i <= Routable(legs, refs)
      invariant tx.commands == old(tx.commands) + CommandsFor(legs[..i], refs, timestampMs)
    {
      var leg := legs[i];
      var protocolId := leg.intent.protocolId;
      ghost var before := CommandsFor(legs[..i], refs, timestampMs);
      if protocolId == 0 {
        if refs.suilend.None? {
          return Some(MissingRefs(0));
        }
        tx.MoveCall(0, refs.suilend.value, leg, timestampMs);
      } else if protocolId == 1 {
        if refs.scallop.None? {
          return Some(MissingRefs(1));
        }
        tx.MoveCall(1, refs.scallop.value, leg, timestampMs);
      } else if protocolId == 2 {
        if refs.navi.None? {
          return Some(MissingRefs(2));
        }
        tx.MoveCall(2, refs.navi.value, leg, timestampMs);
      } else if protocolId == 255 {
        if refs.mock.None? {
          return Some(MissingRefs(255));
        }
        tx.MoveCall(255, refs.mock.value, leg, timestampMs);
      } else {
        return Some(UnsupportedProtocol(protocolId));
      }
      assert CommandsFor(legs[..i + 1], refs, timestampMs) == before + [CommandFor(leg, refs, timestampMs)];
    }
    assert legs[..|legs|] == legs;
    error := None;
  }
}
