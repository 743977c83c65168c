/** The restricted CBOR reader for C2PA metadata (cbor in tools/art-atlas/prepare.py) against the
    definite-length items of section 3 of RFC 8949. */
module Cbor {
  import opened Outcomes
  import TextOrder
  import opened Utf8

  /** What the reader returns: Python integers, strings, lists, dictionaries, booleans and None. */
  datatype Value = Int(i: int) | Text(s: seq<nat>) | List(items: seq<Value>) | Dict(pairs: seq<Pair>) | Bool(b: bool)
      | Nothing

  datatype Pair = Pair(key: Value, value: Value)

  datatype Found = Found(value: Value, end: nat)

  // ------------------------------------------------------------------ dictionaries

  predicate Hashable(v: Value) {
    !v.List? && !v.Dict?
  }

  /** Python's `==` on hashable values: True and 1 are the same key, so are False and 0. */
  predicate SameKey(a: Value, b: Value) {
    a == b || (Numeric(a) && Numeric(b) && NumberOf(a) == NumberOf(b))
  }

  predicate Numeric(v: Value) {
    v.Int? || v.Bool?
  }

  function NumberOf(v: Value): int
    requires Numeric(v)
  {
    if v.Int? then v.i else if v.b then 1 else 0
  }

  /** `dict[key] = value`: an equal key keeps its place and gets the new value. */
  function Assign(dict: seq<Pair>, key: Value, value: Value): seq<Pair> {
    if dict == [] then [Pair(key, value)]
    else if SameKey(dict[0].key, key) then [Pair(dict[0].key, value)] + dict[1..]
    else [dict[0]] + Assign(dict[1..], key, value)
  }

  function Hex(raw: seq<Byte>): seq<nat> {
    if raw == [] then [] else [TextOrder.HexDigit(raw[0] / 16), TextOrder.HexDigit(raw[0] % 16)] + Hex(raw[1..])
  }

  // ------------------------------------------------------------------ the reader

  /** `int.from_bytes(raw, "big")` */
  function BigEndian(raw: seq<Byte>): nat {
    if raw == [] then 0 else BigEndian(raw[..|raw| - 1]) * 256 + raw[|raw| - 1]
  }

  /** `data[from:from + length]`, which Python cuts off at the end of the data. */
  function Slice(data: seq<Byte>, from: nat, length: nat): seq<Byte> {
    var low := if from < |data| then from else |data|;
    var high := if from + length < |data| then from + length else |data|;
    data[low..high]
  }

  function WidthOf(extra: nat): nat {
    if extra < 24 then 0 else if extra == 24 then 1 else if extra == 25 then 2 else if extra == 26 then 4 else 8
  }

  function Argument(data: seq<Byte>, next: nat, extra: nat): nat {
    if extra < 24 then extra else BigEndian(Slice(data, next, WidthOf(extra)))
  }

  function Left(data: seq<Byte>, offset: nat): nat {
    if offset < |data| then |data| - offset else 0
  }

  /** The item at `offset` and the offset behind it; None where the reader raises. */
  function Read(data: seq<Byte>, offset: nat): (r: Option<Found>)
    ensures r.Some? ==> offset < |data| && offset < r.value.end
    decreases Left(data, offset), 0, 0
  {
    if |data| <= offset || 28 <= data[offset] % 32 then None
    else
      var extra := data[offset] % 32;
      ReadBody(data, offset + 1 + WidthOf(extra), data[offset] / 32, extra, Argument(data, offset + 1, extra))
  }

  /** What follows a head of the given major type, additional information and argument. */
  function ReadBody(data: seq<Byte>, next: nat, major: nat, extra: nat, n: nat): (r: Option<Found>)
    ensures r.Some? ==> next <= r.value.end
    decreases Left(data, next), 2, 0
  {
    match major
    case 0 => Some(Found(Int(n), next))
    case 1 => Some(Found(Int(-1 - n), next))
    case 2 => Some(Found(Text(Hex(Slice(data, next, n))), next + n))
    case 3 =>
      var text := Decode(Slice(data, next, n));
      if text.None? then None else Some(Found(Text(text.value), next + n))
    case 4 => ReadItems(data, next, n, [])
    case 5 => ReadPairs(data, next, n, [])
    case 6 => Read(data, next)
    case _ => ReadSimple(next, extra)
  }

  function ReadSimple(next: nat, extra: nat): Option<Found> {
    if extra == 20 then Some(Found(Bool(false), next))
    else if extra == 21 then Some(Found(Bool(true), next))
    else if extra == 22 then Some(Found(Nothing, next))
    else None
  }

  function ReadItems(data: seq<Byte>, offset: nat, count: nat, items: seq<Value>): (r: Option<Found>)
    ensures r.Some? ==> offset <= r.value.end
    decreases Left(data, offset), 1, count
  {
    if count == 0 then Some(Found(List(items), offset))
    else
      var item := Read(data, offset);
      if item.None? then None
      else ReadItems(data, item.value.end, count - 1, items + [item.value.value])
  }

  function ReadPairs(data: seq<Byte>, offset: nat, count: nat, dict: seq<Pair>): (r: Option<Found>)
    ensures r.Some? ==> offset <= r.value.end
    decreases Left(data, offset), 1, count
  {
    if count == 0 then Some(Found(Dict(dict), offset))
    else
      var pair := ReadPair(data, offset);
      if pair.None? then None
      else ReadPairs(data, pair.value.end, count - 1, Assign(dict, pair.value.key, pair.value.value))
  }

  datatype FoundPair = FoundPair(key: Value, value: Value, end: nat)

  /** A key and its value; an unhashable key makes the assignment to the dictionary raise. */
  function ReadPair(data: seq<Byte>, offset: nat): (r: Option<FoundPair>)
    ensures r.Some? ==> offset < |data| && offset < r.value.end
    decreases Left(data, offset), 0, 1
  {
    var key := Read(data, offset);
    if key.None? then None
    else
      var value := Read(data, key.value.end);
      if value.None? || !Hashable(key.value.value) then None
      else Some(FoundPair(key.value.value, value.value.value, value.value.end))
  }

  /** The reader as the source writes it: recursive, with loops over the items of a container. */
  method ReadCbor(data: seq<Byte>, offset: nat) returns (r: Option<Found>)
    ensures r == Read(data, offset)
    decreases Left(data, offset)
  {
    if |data| <= offset {
      return None;
    }
    var major, extra := data[offset] / 32, data[offset] % 32;
    if 28 <= extra {
      return None;
    }
    var n := Argument(data, offset + 1, extra);
    var next := offset + 1 + WidthOf(extra);
    ghost var whole := ReadBody(data, next, major, extra, n);
    match major {
      case 0 => r := Some(Found(Int(n), next));
      case 1 => r := Some(Found(Int(-1 - n), next));
      case 2 => r := Some(Found(Text(Hex(Slice(data, next, n))), next + n));
      case 3 =>
        var text := Decode(Slice(data, next, n));
        r := if text.None? then None else Some(Found(Text(text.value), next + n));
      case 4 =>
        var items: seq<Value>, at := [], next;
        for i := 0 to n
          invariant next <= at
          invariant whole == ReadItems(data, at, n - i, items)
        {
          var item := ReadCbor(data, at);
          if item.None? {
            return None;
          }
          items, at := items + [item.value.value], item.value.end;
        }
        r := Some(Found(List(items), at));
      case 5 =>
        var dict: seq<Pair>, at := [], next;
        for i := 0 to n
          invariant next <= at
          invariant whole == ReadPairs(data, at, n - i, dict)
        {
          var key := ReadCbor(data, at);
          if key.None? {
            return None;
          }
          var value := ReadCbor(data, key.value.end);
          if value.None? || !Hashable(key.value.value) {
            return None;
          }
          dict, at := Assign(dict, key.value.value, value.value.value), value.value.end;
        }
        r := Some(Found(Dict(dict), at));
      case 6 => r := ReadCbor(data, next);
      case _ =>
        r := ReadSimple(next, extra);
    }
  }

  // ------------------------------------------------------------------ items and their encoding

  /** How a head carries its argument: in the first byte, or in 1, 2, 4 or 8 bytes after it. */
  datatype Width = Immediate | One | Two | Four | Eight

  datatype Item =
    | Unsigned(w: Width, n: nat)
    | Negative(w: Width, n: nat)
    | Bytes(w: Width, raw: seq<Byte>)
    | Str(w: Width, text: seq<Scalar>)
    | Array(w: Width, items: seq<Item>)
    | Map(w: Width, entries: Entries)
    | Tag(w: Width, number: nat, item: Item)
    | False | True | Null

  datatype Entries = End | More(key: Item, value: Item, rest: Entries)

  function Count(entries: Entries): nat {
    match entries case End => 0 case More(_, _, rest) => 1 + Count(rest)
  }

  function ByteCount(w: Width): nat {
    match w case Immediate => 0 case One => 1 case Two => 2 case Four => 4 case Eight => 8
  }

  function ExtraOf(w: Width, n: nat): nat {
    match w case Immediate => n case One => 24 case Two => 25 case Four => 26 case Eight => 27
  }

  function Limit(w: Width): nat {
    match w case Immediate => 24 case One => 0x100 case Two => 0x1_0000 case Four => 0x1_0000_0000
    case Eight => 0x1_0000_0000_0000_0000
  }

  function BigEndianBytes(n: nat, width: nat): seq<Byte> {
    if width == 0 then [] else BigEndianBytes(n / 256, width - 1) + [n % 256]
  }

  function Head(major: nat, w: Width, n: nat): seq<Byte>
    requires major < 8 && n < Limit(w)
  {
    [major * 32 + ExtraOf(w, n)] + BigEndianBytes(n, ByteCount(w))
  }

  /** Every argument fits the head that carries it. */
  predicate Fits(item: Item) {
    match item
    case Unsigned(w, n) => n < Limit(w)
    case Negative(w, n) => n < Limit(w)
    case Bytes(w, raw) => |raw| < Limit(w)
    case Str(w, text) => |Encode(text)| < Limit(w)
    case Array(w, items) => |items| < Limit(w) && forall x | x in items :: Fits(x)
    case Map(w, entries) => Count(entries) < Limit(w) && EntriesFit(entries)
    case Tag(w, number, inner) => number < Limit(w) && Fits(inner)
    case _ => true
  }

  predicate EntriesFit(entries: Entries) {
    match entries case End => true case More(key, value, rest) => Fits(key) && Fits(value) && EntriesFit(rest)
  }

  /** The definite-length encoding of an item. */
  function Encoding(item: Item): seq<Byte>
    requires Fits(item)
    decreases item, 0
  {
    match item
    case Unsigned(w, n) => Head(0, w, n)
    case Negative(w, n) => Head(1, w, n)
    case Bytes(w, raw) => Head(2, w, |raw|) + raw
    case Str(w, text) => Head(3, w, |Encode(text)|) + Encode(text)
    case Array(w, items) => Head(4, w, |items|) + EncodingOfItems(items)
    case Map(w, entries) => Head(5, w, Count(entries)) + EncodingOfEntries(entries)
    case Tag(w, number, inner) => Head(6, w, number) + Encoding(inner)
    case False => [0xF4]
    case True => [0xF5]
    case Null => [0xF6]
  }

  function EncodingOfItems(items: seq<Item>): seq<Byte>
    requires forall x :: x in items ==> Fits(x)
    decreases items, 1
  {
    if items == [] then [] else Encoding(items[0]) + EncodingOfItems(items[1..])
  }

  function EncodingOfEntries(entries: Entries): seq<Byte>
    requires EntriesFit(entries)
    decreases entries, 1
  {
    match entries
    case End => []
    case More(key, value, rest) => Encoding(key) + Encoding(value) + EncodingOfEntries(rest)
  }

  /** The Python value an item stands for, tags stripped and byte strings in hexadecimal; None if a
      list or a dictionary would have to be a key. */
  function Meaning(item: Item): Option<Value>
    decreases item, 0
  {
    match item
    case Unsigned(_, n) => Some(Int(n))
    case Negative(_, n) => Some(Int(-1 - n))
    case Bytes(_, raw) => Some(Text(Hex(raw)))
    case Str(_, text) => Some(Text(text))
    case Array(_, items) => MeaningOfItems(items, [])
    case Map(_, entries) => MeaningOfEntries(entries, [])
    case Tag(_, _, inner) => Meaning(inner)
    case False => Some(Bool(false))
    case True => Some(Bool(true))
    case Null => Some(Nothing)
  }

  function MeaningOfItems(items: seq<Item>, done: seq<Value>): Option<Value>
    decreases items, 1
  {
    if items == [] then Some(List(done))
    else
      var first := Meaning(items[0]);
      if first.None? then None else MeaningOfItems(items[1..], done + [first.value])
  }

  function MeaningOfEntries(entries: Entries, done: seq<Pair>): Option<Value>
    decreases entries, 1
  {
    match entries
    case End => Some(Dict(done))
    case More(key, value, rest) =>
      var pair := MeaningOfEntry(Meaning(key), Meaning(value));
      if pair.None? then None else MeaningOfEntries(rest, Assign(done, pair.value.key, pair.value.value))
  }

  function MeaningOfEntry(key: Option<Value>, value: Option<Value>): Option<Pair> {
    if key.None? || value.None? || !Hashable(key.value) then None else Some(Pair(key.value, value.value))
  }
}
