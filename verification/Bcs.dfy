/**
 * Binary Canonical Serialization of the few types an action intent is made of: fixed-width little-endian
 * unsigned integers, byte vectors with a ULEB128 length (section 7.6 of DWARF 5), fixed-length byte arrays
 * and structs, with a decoder that accepts canonical encodings only.
 */
module Bcs {
  import opened Prelude

  type Byte = b: int | 0 <= b < 256

  const U32: int := 0x1_0000_0000

  /** A value read from the front of a byte string and what is left of it. */
  datatype Parsed<+T> = Malformed | Parsed(value: T, rest: seq<Byte>)

  // === Little-endian integers ===

  function Pow256(w: nat): (p: nat)
    ensures p >= 1
  {
    if w == 0 then 1 else 256 * Pow256(w - 1)
  }

  function LittleEndian(n: nat, w: nat): (r: seq<Byte>)
    ensures |r| == w
    decreases w, n
  {
    if w == 0 then [] else [n % 256] + LittleEndian(n / 256, w - 1)
  }

  function ValueOf(s: seq<Byte>): nat {
    if s == [] then 0 else s[0] + 256 * ValueOf(s[1..])
  }

  lemma {:induction false} ValueOfLittleEndian(n: nat, w: nat)
    requires n < Pow256(w)
    ensures ValueOf(LittleEndian(n, w)) == n
    decreases w
  {
    if w > 0 {
      ValueOfLittleEndian(n / 256, w - 1);
      assert LittleEndian(n, w)[1..] == LittleEndian(n / 256, w - 1);
    }
  }

  lemma LowByte(low: nat, high: nat, bound: nat)
    requires low < 256 && high < bound
    ensures (low + 256 * high) % 256 == low && (low + 256 * high) / 256 == high && low + 256 * high < 256 * bound
  {
  }

  lemma {:induction false} LittleEndianOfValue(s: seq<Byte>)
    ensures ValueOf(s) < Pow256(|s|) && LittleEndian(ValueOf(s), |s|) == s
  {
    if s != [] {
      LittleEndianOfValue(s[1..]);
      LowByte(s[0], ValueOf(s[1..]), Pow256(|s| - 1));
      assert s == [s[0]] + s[1..];
    }
  }

  // === ULEB128 ===

  function Uleb(n: nat): (r: seq<Byte>)
    ensures r != []
  {
    if n < 128 then [n] else [n % 128 + 128] + Uleb(n / 128)
  }

  /** Refuses a zero last group, so only the shortest form of a number is read. */
  function ReadUleb(s: seq<Byte>): Parsed<nat> {
    if s == [] then Malformed
    else if s[0] < 128 then Parsed(s[0], s[1..])
    else
      var more := ReadUleb(s[1..]);
      if more.Malformed? || more.value == 0 then Malformed
      else Parsed(s[0] - 128 + 128 * more.value, more.rest)
  }

  lemma {:induction false} ReadUlebOfUleb(n: nat, rest: seq<Byte>)
    ensures ReadUleb(Uleb(n) + rest) == Parsed(n, rest)
  {
    if n < 128 {
      assert ([n] + rest)[1..] == rest;
    } else {
      var s, m := Uleb(n) + rest, n / 128;
      ReadUlebOfUleb(m, rest);
      assert s[0] == n % 128 + 128 && s[1..] == Uleb(m) + rest;
      ContinuedUleb(s, Parsed(m, rest));
    }
  }

  lemma ContinuedUleb(s: seq<Byte>, more: Parsed<nat>)
    requires s != [] && s[0] >= 128 && more.Parsed? && more.value > 0 && ReadUleb(s[1..]) == more
    ensures ReadUleb(s) == Parsed(s[0] - 128 + 128 * more.value, more.rest)
  {
  }

  lemma {:induction false} UlebOfReadUleb(s: seq<Byte>)
    requires ReadUleb(s).Parsed?
    ensures s == Uleb(ReadUleb(s).value) + ReadUleb(s).rest
  {
    if s[0] < 128 {
      assert s == [s[0]] + s[1..];
    } else {
      UlebOfReadUleb(s[1..]);
      var more := ReadUleb(s[1..]);
      var n := s[0] - 128 + 128 * more.value;
      assert n / 128 == more.value && n % 128 == s[0] - 128;
      assert s == [s[0]] + s[1..];
      assert Uleb(n) == [s[0]] + Uleb(more.value);
    }
  }

  /** Any group sequence, shortest or not: all but the last byte carry the continuation bit. */
  predicate IsGroups(s: seq<Byte>) {
    s != [] && s[|s| - 1] < 128 && forall i :: 0 <= i < |s| - 1 ==> s[i] >= 128
  }

  function GroupsValue(s: seq<Byte>): nat {
    if s == [] then 0 else s[0] % 128 + 128 * GroupsValue(s[1..])
  }

  lemma {:induction false} GroupsOfUleb(n: nat)
    ensures IsGroups(Uleb(n)) && GroupsValue(Uleb(n)) == n
  {
    if n >= 128 {
      GroupsOfUleb(n / 128);
      assert Uleb(n)[1..] == Uleb(n / 128);
    }
  }

  /** `Uleb` writes a sequence of groups with the value, and no such sequence is shorter. */
  lemma {:induction false} UlebIsMinimal(s: seq<Byte>)
    requires IsGroups(s)
    ensures var n := GroupsValue(s); IsGroups(Uleb(n)) && GroupsValue(Uleb(n)) == n && |Uleb(n)| <= |s|
  {
    GroupsOfUleb(GroupsValue(s));
    if |s| > 1 {
      UlebIsMinimal(s[1..]);
      var n, m := GroupsValue(s), GroupsValue(s[1..]);
      assert n / 128 == m;
    } else {
      assert GroupsValue(s[1..]) == 0;
    }
  }

  // === Schemas ===

  datatype Schema = UInt(width: nat) | ByteVector | FixedBytes(length: nat) | Struct(fields: seq<Schema>)

  datatype Value = Number(n: int) | Blob(bytes: seq<Byte>) | Fields(values: seq<Value>)

  /** `None` when the value is not one of the type. */
  function Serialize(t: Schema, v: Value): Option<seq<Byte>>
    decreases t
  {
    match t
    case UInt(w) => if v.Number? && 0 <= v.n < Pow256(w) then Some(LittleEndian(v.n, w)) else None
    case ByteVector => if v.Blob? && |v.bytes| < U32 then Some(Uleb(|v.bytes|) + v.bytes) else None
    case FixedBytes(n) => if v.Blob? && |v.bytes| == n then Some(v.bytes) else None
    case Struct(ts) => if v.Fields? then SerializeAll(ts, v.values) else None
  }

  function SerializeAll(ts: seq<Schema>, vs: seq<Value>): Option<seq<Byte>>
    decreases ts
  {
    if |ts| != |vs| then None
    else if ts == [] then Some([])
    else
      var first := Serialize(ts[0], vs[0]);
      var others := SerializeAll(ts[1..], vs[1..]);
      if first.None? || others.None? then None else Some(first.value + others.value)
  }

  function Deserialize(t: Schema, s: seq<Byte>): Parsed<Value>
    decreases t
  {
    match t
    case UInt(w) => if |s| < w then Malformed else Parsed(Number(ValueOf(s[..w])), s[w..])
    case ByteVector =>
      var len := ReadUleb(s);
      if len.Malformed? || len.value >= U32 || |len.rest| < len.value then Malformed
      else Parsed(Blob(len.rest[..len.value]), len.rest[len.value..])
    case FixedBytes(n) => if |s| < n then Malformed else Parsed(Blob(s[..n]), s[n..])
    case Struct(ts) =>
      var vs := DeserializeAll(ts, s);
      if vs.Malformed? then Malformed else Parsed(Fields(vs.value), vs.rest)
  }

  function DeserializeAll(ts: seq<Schema>, s: seq<Byte>): Parsed<seq<Value>>
    decreases ts
  {
    if ts == [] then Parsed([], s)
    else
      var first := Deserialize(ts[0], s);
      if first.Malformed? then Malformed
      else
        var others := DeserializeAll(ts[1..], first.rest);
        if others.Malformed? then Malformed else Parsed([first.value] + others.value, others.rest)
  }

  /** Decoding undoes encoding and leaves exactly what follows. */
  lemma {:induction false} DecodeAfterEncode(t: Schema, v: Value, rest: seq<Byte>)
    requires Serialize(t, v).Some?
    ensures Deserialize(t, Serialize(t, v).value + rest) == Parsed(v, rest)
    decreases t
  {
    var b := Serialize(t, v).value;
    match t
    case UInt(w) =>
      ValueOfLittleEndian(v.n, w);
      assert (b + rest)[..w] == b && (b + rest)[w..] == rest;
    case ByteVector =>
      ReadUlebOfUleb(|v.bytes|, v.bytes + rest);
      assert b + rest == Uleb(|v.bytes|) + (v.bytes + rest);
      assert (v.bytes + rest)[..|v.bytes|] == v.bytes && (v.bytes + rest)[|v.bytes|..] == rest;
    case FixedBytes(n) =>
      assert (b + rest)[..n] == b && (b + rest)[n..] == rest;
    case Struct(ts) =>
      DecodeAllAfterEncodeAll(ts, v.values, rest);
  }

  lemma {:induction false} DecodeAllAfterEncodeAll(ts: seq<Schema>, vs: seq<Value>, rest: seq<Byte>)
    requires SerializeAll(ts, vs).Some?
    ensures DeserializeAll(ts, SerializeAll(ts, vs).value + rest) == Parsed(vs, rest)
    decreases ts
  {
    var b := SerializeAll(ts, vs).value;
    if ts == [] {
      assert b + rest == rest;
    } else {
      var first, others := Serialize(ts[0], vs[0]).value, SerializeAll(ts[1..], vs[1..]).value;
      assert b + rest == first + (others + rest);
      DecodeAfterEncode(ts[0], vs[0], others + rest);
      DecodeAllAfterEncodeAll(ts[1..], vs[1..], rest);
      assert vs == [vs[0]] + vs[1..];
    }
  }

  lemma BytesAfterRead(s: seq<Byte>)
    requires Deserialize(ByteVector, s).Parsed?
    ensures Serialize(ByteVector, Deserialize(ByteVector, s).value).Some?
    ensures s == Serialize(ByteVector, Deserialize(ByteVector, s).value).value + Deserialize(ByteVector, s).rest
  {
    UlebOfReadUleb(s);
    var len := ReadUleb(s);
    var blob := len.rest[..len.value];
    assert s == Uleb(|blob|) + (blob + len.rest[len.value..]);
    assert s == (Uleb(|blob|) + blob) + len.rest[len.value..];
  }

  /** The decoder accepts nothing but encodings: what it reads, encoded again, is what it consumed. */
  lemma {:induction false} EncodeAfterDecode(t: Schema, s: seq<Byte>)
    requires Deserialize(t, s).Parsed?
    ensures Serialize(t, Deserialize(t, s).value).Some?
    ensures s == Serialize(t, Deserialize(t, s).value).value + Deserialize(t, s).rest
    decreases t
  {
    match t
    case UInt(w) =>
      LittleEndianOfValue(s[..w]);
    case ByteVector => BytesAfterRead(s);
    case FixedBytes(n) =>
    case Struct(ts) => EncodeAllAfterDecodeAll(ts, s);
  }

  lemma {:induction false} EncodeAllAfterDecodeAll(ts: seq<Schema>, s: seq<Byte>)
    requires DeserializeAll(ts, s).Parsed?
    ensures SerializeAll(ts, DeserializeAll(ts, s).value).Some?
    ensures s == SerializeAll(ts, DeserializeAll(ts, s).value).value + DeserializeAll(ts, s).rest
    decreases ts
  {
    if ts != [] {
      var first := Deserialize(ts[0], s);
      var others := DeserializeAll(ts[1..], first.rest);
      EncodeAfterDecode(ts[0], s);
      EncodeAllAfterDecodeAll(ts[1..], first.rest);
      assert ([first.value] + others.value)[1..] == others.value;
      var f, o := Serialize(ts[0], first.value).value, SerializeAll(ts[1..], others.value).value;
      assert s == f + (o + others.rest);
      assert s == (f + o) + others.rest;
    }
  }

  /** Encodings of different values differ, even with more bytes behind them. */
  lemma EncodingIsPrefixFree(t: Schema, v: Value, w: Value, r: seq<Byte>, s: seq<Byte>)
    requires Serialize(t, v).Some? && Serialize(t, w).Some?
    requires Serialize(t, v).value + r == Serialize(t, w).value + s
    ensures v == w && r == s
  {
    DecodeAfterEncode(t, v, r);
    DecodeAfterEncode(t, w, s);
  }

  // === Structs field by field ===

  /** The parts joined: array spread in the source. */
  function Flatten(parts: seq<seq<Byte>>): seq<Byte> {
    if parts == [] then [] else parts[0] + Flatten(parts[1..])
  }

  lemma {:induction false} StructIsFlatten(ts: seq<Schema>, vs: seq<Value>, parts: seq<seq<Byte>>)
    requires |ts| == |vs| == |parts|
    requires forall i :: 0 <= i < |ts| ==> Serialize(ts[i], vs[i]) == Some(parts[i])
    ensures SerializeAll(ts, vs) == Some(Flatten(parts))
    decreases |ts|
  {
    if ts != [] {
      forall i | 0 <= i < |ts[1..]| ensures Serialize(ts[1..][i], vs[1..][i]) == Some(parts[1..][i]) {
        assert Serialize(ts[i + 1], vs[i + 1]) == Some(parts[i + 1]);
      }
      StructIsFlatten(ts[1..], vs[1..], parts[1..]);
    }
  }

  lemma {:induction false} StructNeedsEveryField(ts: seq<Schema>, vs: seq<Value>, i: nat)
    requires |ts| == |vs| && i < |ts| && Serialize(ts[i], vs[i]).None?
    ensures SerializeAll(ts, vs).None?
    decreases i
  {
    if i > 0 { StructNeedsEveryField(ts[1..], vs[1..], i - 1); }
  }
}
