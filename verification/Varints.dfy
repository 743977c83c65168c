/** Base-128 varints, zigzag numbers and protobuf fields as the synthetic map fixture writes them
    (varint, zigzag, numberField, bytesField in apps/game-api/src/demand-map-fixture.ts), with readers
    that invert them. */
module Varints {
  import opened Outcomes
  import opened Utf8

  const MAX_SAFE := 9007199254740991

  datatype Read<+T> = Read(value: T, rest: seq<Byte>)

  function VarintBytes(n: nat): (bytes: seq<Byte>)
    ensures bytes != []
  {
    if n < 128 then [n] else [n % 128 + 128] + VarintBytes(n / 128)
  }

  predicate Safe(value: int) {
    0 <= value <= MAX_SAFE
  }

  /** The loop of the source; None where it throws. */
  method Varint(value: int) returns (r: Option<seq<Byte>>)
    ensures r == if Safe(value) then Some(VarintBytes(value)) else None
  {
    if !Safe(value) {
      return None;
    }
    var n: nat, bytes: seq<Byte> := value, [];
    while 128 <= n
      invariant VarintBytes(value) == bytes + VarintBytes(n)
      decreases n
    {
      bytes := bytes + [n % 128 + 128];
      n := n / 128;
    }
    r := Some(bytes + [n]);
  }

  /** The varint at the front of `bytes` (section 4 of the PMTiles version 3 specification). */
  function ReadVarint(bytes: seq<Byte>): (r: Option<Read<nat>>)
    ensures r.Some? ==> |r.value.rest| < |bytes|
    decreases |bytes|
  {
    if bytes == [] then None
    else if bytes[0] < 128 then Some(Read(bytes[0], bytes[1..]))
    else
      var high := ReadVarint(bytes[1..]);
      if high.None? then None else Some(Read(bytes[0] - 128 + 128 * high.value.value, high.value.rest))
  }

  lemma {:induction false} ReadVarintInverts(n: nat, rest: seq<Byte>)
    ensures ReadVarint(VarintBytes(n) + rest) == Some(Read(n, rest))
  {
    var bytes := VarintBytes(n) + rest;
    if n < 128 {
      assert bytes[1..] == rest;
    } else {
      ReadVarintInverts(n / 128, rest);
      assert bytes[0] == n % 128 + 128;
      assert bytes[1..] == VarintBytes(n / 128) + rest;
    }
  }

  // ------------------------------------------------------------------ zigzag

  function Zigzag(value: int): nat {
    if value < 0 then -value * 2 - 1 else value * 2
  }

  function Unzigzag(n: nat): int {
    if n % 2 == 0 then n / 2 else -(n / 2) - 1
  }

  /** Zigzag is a bijection between the integers and the naturals (section 4.3.2 of the Mapbox Vector
      Tile Specification 2.1). */
  lemma ZigzagIsBijective(i: int, n: nat)
    ensures Unzigzag(Zigzag(i)) == i && Zigzag(Unzigzag(n)) == n
  {
    if i < 0 {
      assert Zigzag(i) == 2 * (-i - 1) + 1;
    }
  }

  // ------------------------------------------------------------------ lists of varints

  function PackedBytes(numbers: seq<nat>): seq<Byte> {
    if numbers == [] then [] else VarintBytes(numbers[0]) + PackedBytes(numbers[1..])
  }

  /** `count` varints. */
  function ReadCount(bytes: seq<Byte>, count: nat): (r: Option<Read<seq<nat>>>)
    ensures r.Some? ==> |r.value.value| == count
    decreases count
  {
    if count == 0 then Some(Read([], bytes))
    else
      var first := ReadVarint(bytes);
      if first.None? then None
      else
        var more := ReadCount(first.value.rest, count - 1);
        if more.None? then None else Some(Read([first.value.value] + more.value.value, more.value.rest))
  }

  lemma {:induction false} ReadCountInverts(numbers: seq<nat>, rest: seq<Byte>)
    ensures ReadCount(PackedBytes(numbers) + rest, |numbers|) == Some(Read(numbers, rest))
  {
    if numbers == [] {
      assert PackedBytes(numbers) + rest == rest;
    } else {
      ReadCountInverts(numbers[1..], rest);
      ReadVarintInverts(numbers[0], PackedBytes(numbers[1..]) + rest);
      assert PackedBytes(numbers) + rest == VarintBytes(numbers[0]) + (PackedBytes(numbers[1..]) + rest);
      assert numbers == [numbers[0]] + numbers[1..];
    }
  }

  /** All varints up to the end of the bytes, as in a packed field. */
  function ReadPacked(bytes: seq<Byte>): Option<seq<nat>>
    decreases |bytes|
  {
    if bytes == [] then Some([])
    else
      var first := ReadVarint(bytes);
      if first.None? then None
      else
        var more := ReadPacked(first.value.rest);
        if more.None? then None else Some([first.value.value] + more.value)
  }

  lemma {:induction false} ReadPackedInverts(numbers: seq<nat>)
    ensures ReadPacked(PackedBytes(numbers)) == Some(numbers)
  {
    if numbers != [] {
      ReadPackedInverts(numbers[1..]);
      ReadVarintInverts(numbers[0], PackedBytes(numbers[1..]));
      assert numbers == [numbers[0]] + numbers[1..];
    }
  }

  // ------------------------------------------------------------------ protobuf fields

  datatype Field = NumberField(field: nat, value: nat) | BytesField(field: nat, bytes: seq<Byte>)

  function FieldBytes(f: Field): seq<Byte> {
    match f
    case NumberField(field, value) => VarintBytes(field * 8) + VarintBytes(value)
    case BytesField(field, bytes) => VarintBytes(field * 8 + 2) + VarintBytes(|bytes|) + bytes
  }

  function MessageBytes(fields: seq<Field>): seq<Byte> {
    if fields == [] then [] else FieldBytes(fields[0]) + MessageBytes(fields[1..])
  }

  function ReadField(bytes: seq<Byte>): (r: Option<Read<Field>>)
    ensures r.Some? ==> |r.value.rest| < |bytes|
  {
    var tag := ReadVarint(bytes);
    if tag.None? then None
    else
      var n := ReadVarint(tag.value.rest);
      if n.None? then None
      else if tag.value.value % 8 == 0 then Some(Read(NumberField(tag.value.value / 8, n.value.value), n.value.rest))
      else if tag.value.value % 8 == 2 && n.value.value <= |n.value.rest| then
        Some(Read(BytesField(tag.value.value / 8, n.value.rest[..n.value.value]), n.value.rest[n.value.value..]))
      else None
  }

  function ReadMessage(bytes: seq<Byte>): Option<seq<Field>>
    decreases |bytes|
  {
    if bytes == [] then Some([])
    else
      var first := ReadField(bytes);
      if first.None? then None
      else
        var more := ReadMessage(first.value.rest);
        if more.None? then None else Some([first.value.value] + more.value)
  }

  lemma ReadFieldInverts(f: Field, rest: seq<Byte>)
    ensures ReadField(FieldBytes(f) + rest) == Some(Read(f, rest)) && FieldBytes(f) != []
  {
    match f
    case NumberField(field, value) =>
      assert FieldBytes(f) + rest == VarintBytes(field * 8) + (VarintBytes(value) + rest);
      ReadVarintInverts(field * 8, VarintBytes(value) + rest);
      ReadVarintInverts(value, rest);
    case BytesField(field, bytes) =>
      assert FieldBytes(f) + rest == VarintBytes(field * 8 + 2) + (VarintBytes(|bytes|) + (bytes + rest));
      ReadVarintInverts(field * 8 + 2, VarintBytes(|bytes|) + (bytes + rest));
      ReadVarintInverts(|bytes|, bytes + rest);
      assert (bytes + rest)[..|bytes|] == bytes && (bytes + rest)[|bytes|..] == rest;
  }

  /** Reading back a message gives its fields, in order. */
  lemma {:induction false} ReadMessageInverts(fields: seq<Field>)
    ensures ReadMessage(MessageBytes(fields)) == Some(fields)
  {
    if fields != [] {
      ReadMessageInverts(fields[1..]);
      ReadFieldInverts(fields[0], MessageBytes(fields[1..]));
      assert fields == [fields[0]] + fields[1..];
    }
  }
}
