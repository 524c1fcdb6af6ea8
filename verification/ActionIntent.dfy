/**
 * The signed action intent: the hand-rolled encoder of enclave/app/action_intent.ts and the declared schema
 * of agent/src/core/actionIntent.ts it has to agree with.
 */
module ActionIntent {
  import opened Prelude
  import opened Bcs

  const DECISION_INTENT: nat := 0
  const U64: int := 0x1_0000_0000_0000_0000

  datatype Intent = Intent(
    schemaVersion: int, chainId: seq<Byte>, treasuryId: string, agentCapId: string, nonce: int,
    expiresAtMs: int, actionKind: int, protocolId: int, assetType: seq<Byte>, amount: int,
    minHealthFactorBps: int, maxProtocolExposure: int, policyHash: seq<Byte>, inputHash: seq<Byte>,
    rationaleHash: seq<Byte>)

  // === Fixed-width integers ===

  /** `[v & 0xff, (v >> 8) & 0xff]` */
  function U16Le(v: int): seq<Byte> { [v % 256, v / 256 % 256] }

  lemma NextMultiple(d: int, q: int, k: int)
    requires d > 0 && q > k
    ensures d * q >= d * k + d
  {
    assert d * (q - k - 1) >= 0;
    assert d * (q - k - 1) == d * q - d * k - d;
  }

  lemma ModUnique(x: int, d: int, k: int, m: int)
    requires x == d * k + m && 0 <= m < d
    ensures x % d == m && x / d == k
  {
    SameQuotient(d, x / d, x % d, k, m);
  }

  lemma SameQuotient(d: int, q: int, r: int, k: int, m: int)
    requires 0 <= m < d && 0 <= r < d && d * q + r == d * k + m
    ensures q == k && r == m
  {
    if q > k {
      NextMultiple(d, q, k);
    } else if q < k {
      NextMultiple(d, k, q);
    }
  }

  /** Dropping the low byte commutes with wrapping. */
  lemma DropByte(x: int, p: nat)
    requires p >= 1
    ensures x % (256 * p) % 256 == x % 256 && x % (256 * p) / 256 == x / 256 % p
  {
    var q, r := x / 256, x % 256;
    var k, j := q / p, q % p;
    assert x == 256 * q + r && q == p * k + j;
    assert x == 256 * p * k + (256 * j + r) by { assert 256 * (p * k) == 256 * p * k; }
    assert 256 * j + r < 256 * p;
    ModUnique(x, 256 * p, k, 256 * j + r);
  }

  /** One turn of the loop of `u64le`: `k + 1` bytes were to be written, one is. */
  lemma ByteWritten(done: seq<Byte>, x: int, k: nat)
    ensures done + LittleEndian(x % Pow256(k + 1), k + 1)
         == (done + [x % 256]) + LittleEndian(x / 256 % Pow256(k), k)
  {
    DropByte(x, Pow256(k));
    var tail := LittleEndian(x / 256 % Pow256(k), k);
    assert LittleEndian(x % Pow256(k + 1), k + 1) == [x % 256] + tail;
    assert done + ([x % 256] + tail) == (done + [x % 256]) + tail;
  }

  /** The source masks and shifts a bigint eight times; what it writes is the value modulo 2^64. */
  method U64Le(v: int) returns (b: array<Byte>)
    ensures fresh(b) && b[..] == LittleEndian(v % U64, 8)
  {
    EightBytes();
    b := new Byte[8];
    var x := v;
    for i := 0 to 8
      invariant b[..i] + LittleEndian(x % Pow256(8 - i), 8 - i) == LittleEndian(v % Pow256(8), 8)
    {
      ByteWritten(b[..i], x, 7 - i);
      ghost var before := b[..i];
      b[i] := x % 256;
      assert b[..i + 1] == before + [x % 256];
      x := x / 256;
    }
    assert b[..8] == b[..];
  }

  lemma EightBytes()
    ensures Pow256(8) == U64 && Pow256(2) == 0x1_0000 && Pow256(1) == 0x100
  {
    assert Pow256(4) == 0x1_0000_0000;
    assert Pow256(8) == 256 * 256 * 256 * 256 * Pow256(4);
  }

  lemma U16LeIsLittleEndian(v: int)
    ensures U16Le(v) == LittleEndian(v % 0x1_0000, 2)
  {
    var w := v % 0x1_0000;
    assert LittleEndian(w / 256, 1) == [w / 256 % 256] + LittleEndian(w / 256 / 256, 0);
    DropByte(v, 256);
    assert LittleEndian(w, 2) == [w % 256] + LittleEndian(w / 256, 1);
  }

  // === Lengths ===

  lemma LowGroup(x: int)
    ensures x % U32 % 128 == x % 128
  {
    assert U32 == 128 * 0x200_0000;
    var q, r := x / U32, x % U32;
    assert x == 128 * (0x200_0000 * q) + r;
  }

  lemma UlebStep(n: nat)
    ensures Uleb(n) == if n / 128 == 0 then [n % 128] else [n % 128 + 128] + Uleb(n / 128)
  {
  }

  /** One turn of the loop: the group written, then the rest. */
  lemma Emitted(out: seq<Byte>, n: nat, b: Byte, rest: nat)
    requires rest == n / 128 && b == if rest == 0 then n % 128 else n % 128 + 128
    ensures out + [b] + (if rest != 0 then Uleb(rest) else []) == out + Uleb(n)
  {
    UlebStep(n);
  }

  /** A do-while over 32-bit unsigned shifts, so the length is taken modulo 2^32. */
  method Uleb128(n: int) returns (out: seq<Byte>)
    ensures out == Uleb(n % U32)
  {
    var x := n;
    out := [];
    var more := true;
    while more
      invariant out + (if more then Uleb(x % U32) else []) == Uleb(n % U32)
      decreases more, if out == [] then U32 else x
      invariant out == [] || 0 < x < U32 || !more
    {
      var b := x % 128;
      var rest := x % U32 / 128;
      LowGroup(x);
      if rest != 0 {
        b := b + 128;
      }
      Emitted(out, x % U32, b, rest);
      out := out + [b];
      x := rest;
      more := x != 0;
    }
  }

  function BytesVec(b: seq<Byte>): seq<Byte> { Uleb(|b| % U32) + b }

  // === Addresses ===

  function HexDigit(c: char): Option<nat> {
    if '0' <= c <= '9' then Some((c - '0') as nat)
    else if 'a' <= c <= 'f' then Some((c - 'a') as nat + 10)
    else if 'A' <= c <= 'F' then Some((c - 'A') as nat + 10)
    else None
  }

  function HexToBytes(s: string): Option<seq<Byte>> {
    if s == [] then Some([])
    else if |s| == 1 then None
    else
      var hi, lo, others := HexDigit(s[0]), HexDigit(s[1]), HexToBytes(s[2..]);
      if hi.None? || lo.None? || others.None? then None
      else if hi.value >= 16 || lo.value >= 16 then None
      else Some([hi.value * 16 + lo.value] + others.value)
  }

  function StripPrefix(s: string): string {
    if |s| >= 2 && s[0] == '0' && s[1] == 'x' then s[2..] else s
  }

  /** `None` where the source throws. */
  function Address32(hex: string): (r: Option<seq<Byte>>)
    ensures r.Some? ==> |r.value| == 32
  {
    var clean := PadStart(StripPrefix(hex), 64, '0');
    if |clean| != 64 then None
    else
      HexLength(clean);
      HexToBytes(clean)
  }

  lemma {:induction false} HexLength(s: string)
    ensures HexToBytes(s).Some? ==> 2 * |HexToBytes(s).value| == |s|
  {
    if |s| >= 2 { HexLength(s[2..]); }
  }

  function Nibble(n: nat): char
    requires n < 16
  {
    if n < 10 then '0' + n as char else 'a' + (n - 10) as char
  }

  function HexOf(b: seq<Byte>): string {
    if b == [] then [] else [Nibble(b[0] / 16), Nibble(b[0] % 16)] + HexOf(b[1..])
  }

  /** The normal form of an address: `0x` and 64 lower-case digits. */
  function AddressText(b: seq<Byte>): string { "0x" + HexOf(b) }

  lemma {:induction false} HexRoundTrip(b: seq<Byte>)
    ensures |HexOf(b)| == 2 * |b| && HexToBytes(HexOf(b)) == Some(b)
  {
    if b != [] {
      HexRoundTrip(b[1..]);
      assert HexOf(b)[2..] == HexOf(b[1..]);
      assert HexDigit(Nibble(b[0] / 16)) == Some(b[0] / 16) && HexDigit(Nibble(b[0] % 16)) == Some(b[0] % 16);
      assert b == [b[0]] + b[1..];
    }
  }

  lemma AddressRoundTrip(b: seq<Byte>)
    requires |b| == 32
    ensures Address32(AddressText(b)) == Some(b)
  {
    HexRoundTrip(b);
    assert StripPrefix(AddressText(b)) == HexOf(b);
  }

  // === The hand-rolled encoder ===

  function EncodePayload(a: Intent): Option<seq<Byte>> {
    var treasury, agentCap := Address32(a.treasuryId), Address32(a.agentCapId);
    if treasury.None? || agentCap.None? then None else Some(Flatten(PayloadParts(a, treasury.value, agentCap.value)))
  }

  function PayloadParts(a: Intent, treasury: seq<Byte>, agentCap: seq<Byte>): seq<seq<Byte>> {
    [ U16Le(a.schemaVersion), BytesVec(a.chainId), treasury, agentCap,
      LittleEndian(a.nonce % U64, 8), LittleEndian(a.expiresAtMs % U64, 8),
      [a.actionKind % 256], [a.protocolId % 256], BytesVec(a.assetType),
      LittleEndian(a.amount % U64, 8), LittleEndian(a.minHealthFactorBps % U64, 8),
      LittleEndian(a.maxProtocolExposure % U64, 8),
      BytesVec(a.policyHash), BytesVec(a.inputHash), BytesVec(a.rationaleHash) ]
  }

  function EnvelopeParts(timestampMs: int, payload: seq<Byte>): seq<seq<Byte>> {
    [[DECISION_INTENT], LittleEndian(timestampMs % U64, 8), payload]
  }

  function EncodeEnvelope(a: Intent, timestampMs: int): Option<seq<Byte>> {
    var payload := EncodePayload(a);
    if payload.None? then None
    else Some(Flatten(EnvelopeParts(timestampMs, payload.value)))
  }

  // === The declared schema ===

  function PayloadSchema(): seq<Schema> {
    [ UInt(2), ByteVector, FixedBytes(32), FixedBytes(32), UInt(8), UInt(8), UInt(1), UInt(1), ByteVector,
      UInt(8), UInt(8), UInt(8), ByteVector, ByteVector, ByteVector ]
  }

  function EnvelopeSchema(): Schema { Struct([UInt(1), UInt(8), Struct(PayloadSchema())]) }

  function ToBcs(a: Intent, treasury: seq<Byte>, agentCap: seq<Byte>): seq<Value> {
    [ Number(a.schemaVersion), Blob(a.chainId), Blob(treasury), Blob(agentCap), Number(a.nonce),
      Number(a.expiresAtMs), Number(a.actionKind), Number(a.protocolId), Blob(a.assetType), Number(a.amount),
      Number(a.minHealthFactorBps), Number(a.maxProtocolExposure), Blob(a.policyHash), Blob(a.inputHash),
      Blob(a.rationaleHash) ]
  }

  function Message(a: Intent, timestampMs: int, treasury: seq<Byte>, agentCap: seq<Byte>): Value {
    Fields([Number(DECISION_INTENT), Number(timestampMs), Fields(ToBcs(a, treasury, agentCap))])
  }

  /** One integer field: the hand-rolled bytes are the declared ones exactly when the number fits. */
  lemma UIntField(n: int, w: nat, wrapped: int)
    requires wrapped == n % Pow256(w)
    ensures Serialize(UInt(w), Number(n)) == if 0 <= n < Pow256(w) then Some(LittleEndian(wrapped, w)) else None
  {
    if 0 <= n < Pow256(w) { ModUnique(n, Pow256(w), 0, n); }
  }

  lemma UlebField(b: seq<Byte>)
    ensures Serialize(ByteVector, Blob(b)) == if |b| < U32 then Some(BytesVec(b)) else None
  {
  }

  lemma OneByte(n: int)
    ensures LittleEndian(n % 256, 1) == [n % 256]
  {
    assert LittleEndian(n % 256, 1) == [n % 256 % 256] + LittleEndian(n % 256 / 256, 0);
  }

  /** The fields of the payload one by one. */
  lemma PayloadFields(a: Intent, treasury: seq<Byte>, agentCap: seq<Byte>, i: nat)
    requires i < 15 && |treasury| == 32 && |agentCap| == 32
    ensures var field := Serialize(PayloadSchema()[i], ToBcs(a, treasury, agentCap)[i]);
      field == if FieldInRange(a, i) then Some(PayloadParts(a, treasury, agentCap)[i]) else None
  {
    EightBytes();
    match i
    case 0 => U16LeIsLittleEndian(a.schemaVersion); UIntField(a.schemaVersion, 2, a.schemaVersion % 0x1_0000);
    case 1 => UlebField(a.chainId);
    case 2 =>
    case 3 =>
    case 4 => UIntField(a.nonce, 8, a.nonce % U64);
    case 5 => UIntField(a.expiresAtMs, 8, a.expiresAtMs % U64);
    case 6 => OneByte(a.actionKind); UIntField(a.actionKind, 1, a.actionKind % 256);
    case 7 => OneByte(a.protocolId); UIntField(a.protocolId, 1, a.protocolId % 256);
    case 8 => UlebField(a.assetType);
    case 9 => UIntField(a.amount, 8, a.amount % U64);
    case 10 => UIntField(a.minHealthFactorBps, 8, a.minHealthFactorBps % U64);
    case 11 => UIntField(a.maxProtocolExposure, 8, a.maxProtocolExposure % U64);
    case 12 => UlebField(a.policyHash);
    case 13 => UlebField(a.inputHash);
    case 14 => UlebField(a.rationaleHash);
  }

  /** The range of the `i`-th field of the payload, in schema order. */
  predicate FieldInRange(a: Intent, i: nat)
    requires i < 15
  {
    match i
    case 0 => 0 <= a.schemaVersion < 0x1_0000
    case 1 => |a.chainId| < U32
    case 2 => true
    case 3 => true
    case 4 => 0 <= a.nonce < U64
    case 5 => 0 <= a.expiresAtMs < U64
    case 6 => 0 <= a.actionKind < 0x100
    case 7 => 0 <= a.protocolId < 0x100
    case 8 => |a.assetType| < U32
    case 9 => 0 <= a.amount < U64
    case 10 => 0 <= a.minHealthFactorBps < U64
    case 11 => 0 <= a.maxProtocolExposure < U64
    case 12 => |a.policyHash| < U32
    case 13 => |a.inputHash| < U32
    case 14 => |a.rationaleHash| < U32
  }

  /** Every number fits the width the schema declares for it and every byte vector its length prefix. */
  predicate InRange(a: Intent, timestampMs: int) {
    0 <= timestampMs < U64 && forall i :: 0 <= i < 15 ==> FieldInRange(a, i)
  }

  lemma PayloadMatches(a: Intent, treasury: seq<Byte>, agentCap: seq<Byte>)
    requires |treasury| == 32 && |agentCap| == 32
    ensures SerializeAll(PayloadSchema(), ToBcs(a, treasury, agentCap))
         == if forall i :: 0 <= i < 15 ==> FieldInRange(a, i)
            then Some(Flatten(PayloadParts(a, treasury, agentCap))) else None
  {
    var ts, vs, parts := PayloadSchema(), ToBcs(a, treasury, agentCap), PayloadParts(a, treasury, agentCap);
    forall i | 0 <= i < 15
      ensures Serialize(ts[i], vs[i]) == if FieldInRange(a, i) then Some(parts[i]) else None
    {
      PayloadFields(a, treasury, agentCap, i);
    }
    FieldsMatch(ts, vs, parts, i => 0 <= i < 15 && FieldInRange(a, i));
  }

  /** A struct serializes exactly when each of its fields does. */
  lemma FieldsMatch(ts: seq<Schema>, vs: seq<Value>, parts: seq<seq<Byte>>, fits: int -> bool)
    requires |ts| == |vs| == |parts|
    requires forall i :: 0 <= i < |ts| ==> Serialize(ts[i], vs[i]) == if fits(i) then Some(parts[i]) else None
    ensures SerializeAll(ts, vs)
         == if forall i :: 0 <= i < |ts| ==> fits(i) then Some(Flatten(parts)) else None
  {
    if forall i :: 0 <= i < |ts| ==> fits(i) {
      StructIsFlatten(ts, vs, parts);
    } else {
      var i :| 0 <= i < |ts| && !fits(i);
      StructNeedsEveryField(ts, vs, i);
    }
  }

  lemma EnvelopeFields(timestampMs: int, payload: seq<Byte>, message: Value, fits: bool)
    requires Serialize(Struct(PayloadSchema()), message) == if fits then Some(payload) else None
    ensures Serialize(EnvelopeSchema(), Fields([Number(DECISION_INTENT), Number(timestampMs), message]))
         == if 0 <= timestampMs < U64 && fits then Some(Flatten(EnvelopeParts(timestampMs, payload))) else None
  {
    var ts := [UInt(1), UInt(8), Struct(PayloadSchema())];
    var vs := [Number(DECISION_INTENT), Number(timestampMs), message];
    EightBytes();
    OneByte(DECISION_INTENT);
    UIntField(DECISION_INTENT, 1, 0);
    UIntField(timestampMs, 8, timestampMs % U64);
    var each := i => if i == 1 then 0 <= timestampMs < U64 else i != 2 || fits;
    FieldsMatch(ts, vs, EnvelopeParts(timestampMs, payload), each);
    assert each(1) == (0 <= timestampMs < U64) && each(2) == fits && each(0);
  }

  /**
   * The hand-rolled encoder against the declared schema: the same bytes when every field is in range, and
   * out of range the schema has no encoding at all.
   */
  lemma HandRolledMatchesSchema(a: Intent, timestampMs: int, treasury: seq<Byte>, agentCap: seq<Byte>)
    requires Address32(a.treasuryId) == Some(treasury) && Address32(a.agentCapId) == Some(agentCap)
    ensures Serialize(EnvelopeSchema(), Message(a, timestampMs, treasury, agentCap))
         == if InRange(a, timestampMs) then EncodeEnvelope(a, timestampMs) else None
  {
    PayloadMatches(a, treasury, agentCap);
    EnvelopeFields(timestampMs, Flatten(PayloadParts(a, treasury, agentCap)), Fields(ToBcs(a, treasury, agentCap)),
                   forall i :: 0 <= i < 15 ==> FieldInRange(a, i));
  }

  // === What the bytes determine ===

  /** Both addresses are well formed; otherwise the encoder throws. */
  predicate Addressed(a: Intent) { Address32(a.treasuryId).Some? && Address32(a.agentCapId).Some? }

  function Envelope(a: Intent, timestampMs: int): seq<Byte>
    requires Addressed(a)
  {
    EncodeEnvelope(a, timestampMs).value
  }

  function SentMessage(a: Intent, timestampMs: int): Value
    requires Addressed(a)
  {
    Message(a, timestampMs, Address32(a.treasuryId).value, Address32(a.agentCapId).value)
  }

  /** A schema decoder recovers the message and consumes exactly the envelope. */
  lemma EnvelopeRoundTrip(a: Intent, timestampMs: int, rest: seq<Byte>)
    requires Addressed(a) && InRange(a, timestampMs)
    ensures Deserialize(EnvelopeSchema(), Envelope(a, timestampMs) + rest) == Parsed(SentMessage(a, timestampMs), rest)
  {
    HandRolledMatchesSchema(a, timestampMs, Address32(a.treasuryId).value, Address32(a.agentCapId).value);
    DecodeAfterEncode(EnvelopeSchema(), SentMessage(a, timestampMs), rest);
  }

  /** The same intent up to the spelling of its addresses. */
  predicate SameIntent(a: Intent, b: Intent) {
    && b.(treasuryId := a.treasuryId, agentCapId := a.agentCapId) == a
    && Address32(a.treasuryId) == Address32(b.treasuryId) && Address32(a.agentCapId) == Address32(b.agentCapId)
  }

  lemma SentDetermines(a: Intent, t: int, b: Intent, u: int)
    requires Addressed(a) && Addressed(b) && SentMessage(a, t) == SentMessage(b, u)
    ensures t == u && SameIntent(a, b)
  {
    var x, y := Address32(a.treasuryId).value, Address32(a.agentCapId).value;
    var z, w := Address32(b.treasuryId).value, Address32(b.agentCapId).value;
    assert SentMessage(a, t).values[1] == SentMessage(b, u).values[1];
    assert SentMessage(a, t).values[2] == SentMessage(b, u).values[2];
    var p, q := ToBcs(a, x, y), ToBcs(b, z, w);
    assert p == q;
    assert forall i :: 0 <= i < 15 ==> p[i] == q[i];
    assert p[0] == q[0] && p[1] == q[1] && p[2] == q[2] && p[3] == q[3] && p[4] == q[4] && p[5] == q[5];
    assert p[6] == q[6] && p[7] == q[7] && p[8] == q[8] && p[9] == q[9] && p[10] == q[10] && p[11] == q[11];
    assert p[12] == q[12] && p[13] == q[13] && p[14] == q[14];
  }

  /** Injective and prefix-free on the declared range, up to the spelling of addresses. */
  lemma EnvelopeIsInjective(a: Intent, t: int, r: seq<Byte>, b: Intent, u: int, s: seq<Byte>)
    requires Addressed(a) && Addressed(b) && InRange(a, t) && InRange(b, u)
    requires Envelope(a, t) + r == Envelope(b, u) + s
    ensures t == u && SameIntent(a, b) && r == s
  {
    EnvelopeRoundTrip(a, t, r);
    EnvelopeRoundTrip(b, u, s);
    SentDetermines(a, t, b, u);
  }

  /** The intent with every number reduced to its width. */
  function Wrapped(a: Intent): Intent {
    a.(schemaVersion := a.schemaVersion % 0x1_0000, nonce := a.nonce % U64, expiresAtMs := a.expiresAtMs % U64,
       actionKind := a.actionKind % 256, protocolId := a.protocolId % 256, amount := a.amount % U64,
       minHealthFactorBps := a.minHealthFactorBps % U64, maxProtocolExposure := a.maxProtocolExposure % U64)
  }

  lemma ModTwice(n: int, p: int)
    requires p > 0
    ensures n % p % p == n % p
  {
    ModUnique(n % p, p, 0, n % p);
  }

  /**
   * Numbers out of range are reduced, not refused: the bytes are those of the wrapped intent. With the two
   * lemmas above, the bytes determine a number exactly when it is in range.
   */
  lemma OutOfRangeWraps(a: Intent, timestampMs: int)
    requires Addressed(a)
    ensures Addressed(Wrapped(a)) && Envelope(a, timestampMs) == Envelope(Wrapped(a), timestampMs % U64)
  {
    ModTwice(timestampMs, U64);
    ModTwice(a.nonce, U64);
    ModTwice(a.expiresAtMs, U64);
    ModTwice(a.actionKind, 256);
    ModTwice(a.protocolId, 256);
    ModTwice(a.amount, U64);
    ModTwice(a.minHealthFactorBps, U64);
    ModTwice(a.maxProtocolExposure, U64);
    U16LeIsLittleEndian(a.schemaVersion);
    ModTwice(a.schemaVersion, 0x1_0000);
    U16LeIsLittleEndian(a.schemaVersion % 0x1_0000);
  }
}
