/** The CBOR reader accepts exactly the definite-length encodings, and reads from each the value it
    stands for. */
module CborRoundTrip {
  import opened Outcomes
  import opened Utf8
  import opened Cbor

  /** `piece` stands in `data` at `offset`. */
  ghost predicate At(data: seq<Byte>, offset: nat, piece: seq<Byte>) {
    offset + |piece| <= |data| && forall i :: 0 <= i < |piece| ==> data[offset + i] == piece[i]
  }

  lemma AtParts(data: seq<Byte>, offset: nat, a: seq<Byte>, b: seq<Byte>)
    ensures At(data, offset, a + b) <==> At(data, offset, a) && At(data, offset + |a|, b)
  {
    var whole := a + b;
    assert forall i :: 0 <= i < |a| ==> a[i] == whole[i];
    assert forall i :: 0 <= i < |b| ==> b[i] == whole[|a| + i];
    if At(data, offset, whole) {
      forall i | 0 <= i < |b|
        ensures data[offset + |a| + i] == b[i]
      {
        assert data[offset + (|a| + i)] == whole[|a| + i];
      }
    }
  }

  lemma SliceAt(data: seq<Byte>, offset: nat, piece: seq<Byte>)
    requires At(data, offset, piece)
    ensures Slice(data, offset, |piece|) == piece
  {
  }

  lemma AtSlice(data: seq<Byte>, offset: nat, length: nat)
    requires offset + length <= |data|
    ensures At(data, offset, Slice(data, offset, length)) && |Slice(data, offset, length)| == length
  {
  }

  // ------------------------------------------------------------------ heads

  function Power256(k: nat): nat {
    if k == 0 then 1 else 256 * Power256(k - 1)
  }

  lemma {:induction false} BigEndianOfBytes(n: nat, width: nat)
    ensures |BigEndianBytes(n, width)| == width
    ensures n < Power256(width) ==> BigEndian(BigEndianBytes(n, width)) == n
  {
    if width != 0 {
      BigEndianOfBytes(n / 256, width - 1);
      assert BigEndianBytes(n, width)[..width - 1] == BigEndianBytes(n / 256, width - 1);
    }
  }

  lemma {:induction false} BytesOfBigEndian(raw: seq<Byte>)
    ensures BigEndian(raw) < Power256(|raw|)
    ensures BigEndianBytes(BigEndian(raw), |raw|) == raw
  {
    if raw != [] {
      BytesOfBigEndian(raw[..|raw| - 1]);
      assert BigEndian(raw) / 256 == BigEndian(raw[..|raw| - 1]);
      assert raw == raw[..|raw| - 1] + [raw[|raw| - 1]];
    }
  }

  lemma LimitIsPower(w: Width)
    ensures !w.Immediate? ==> Limit(w) == Power256(ByteCount(w))
  {
    assert Power256(1) == 256;
    assert Power256(2) == 0x1_0000;
    assert Power256(4) == 256 * Power256(3) == 0x1_0000_0000;
    assert Power256(6) == 256 * Power256(5) == 0x1_0000_0000_0000;
    assert Power256(8) == 256 * Power256(7) == 0x1_0000_0000_0000_0000;
  }

  lemma HeadIsRead(data: seq<Byte>, offset: nat, major: nat, w: Width, n: nat)
    requires major < 8 && n < Limit(w) && At(data, offset, Head(major, w, n))
    ensures offset < |data| && data[offset] / 32 == major && data[offset] % 32 == ExtraOf(w, n) < 28
    ensures Argument(data, offset + 1, ExtraOf(w, n)) == n
    ensures WidthOf(ExtraOf(w, n)) + 1 == |Head(major, w, n)|
  {
    var tail := BigEndianBytes(n, ByteCount(w));
    AtParts(data, offset, [major * 32 + ExtraOf(w, n)], tail);
    assert data[offset + 0] == [major * 32 + ExtraOf(w, n)][0];
    BigEndianOfBytes(n, ByteCount(w));
    LimitIsPower(w);
    SliceAt(data, offset + 1, tail);
  }

  function WidthFor(extra: nat): Width {
    if extra < 24 then Immediate else if extra == 24 then One else if extra == 25 then Two else if extra == 26 then Four
    else Eight
  }

  /** Whatever head the reader takes in completely is the head of its argument. */
  lemma ReadIsHead(data: seq<Byte>, offset: nat)
    requires offset < |data| && data[offset] % 32 < 28
    requires offset + 1 + WidthOf(data[offset] % 32) <= |data|
    ensures var extra := data[offset] % 32;
            var n := Argument(data, offset + 1, extra);
            && n < Limit(WidthFor(extra)) && data[offset] / 32 < 8
            && At(data, offset, Head(data[offset] / 32, WidthFor(extra), n))
            && |Head(data[offset] / 32, WidthFor(extra), n)| == 1 + WidthOf(extra)
  {
    var extra := data[offset] % 32;
    var w, n := WidthFor(extra), Argument(data, offset + 1, extra);
    ArgumentIsBytes(data, offset + 1, extra);
    assert ExtraOf(w, n) == extra;
    AtParts(data, offset, [data[offset]], BigEndianBytes(n, ByteCount(w)));
    assert At(data, offset, [data[offset]]);
  }

  lemma ArgumentIsBytes(data: seq<Byte>, next: nat, extra: nat)
    requires extra < 28 && next + WidthOf(extra) <= |data|
    ensures var n := Argument(data, next, extra);
            && n < Limit(WidthFor(extra)) && ByteCount(WidthFor(extra)) == WidthOf(extra)
            && |BigEndianBytes(n, WidthOf(extra))| == WidthOf(extra)
            && At(data, next, BigEndianBytes(n, WidthOf(extra)))
  {
    var raw := Slice(data, next, WidthOf(extra));
    AtSlice(data, next, WidthOf(extra));
    BytesOfBigEndian(raw);
    BigEndianOfBytes(Argument(data, next, extra), WidthOf(extra));
    LimitIsPower(WidthFor(extra));
  }

  /** A head followed by its body: the reader takes in the head and finds the body behind it. */
  lemma HeadAndBody(data: seq<Byte>, offset: nat, major: nat, w: Width, n: nat, body: seq<Byte>)
    requires major < 8 && n < Limit(w) && At(data, offset, Head(major, w, n) + body)
    ensures var next := offset + |Head(major, w, n)|;
            && offset < next && Read(data, offset) == ReadBody(data, next, major, ExtraOf(w, n), n)
            && At(data, next, body)
            && offset + |Head(major, w, n) + body| == next + |body|
  {
    AtParts(data, offset, Head(major, w, n), body);
    HeadIsRead(data, offset, major, w, n);
  }

  // ------------------------------------------------------------------ reading encodings

  /** What a reader that finds `meaning` encoded up to `end` reports. */
  function Report(meaning: Option<Value>, end: nat): Option<Found> {
    if meaning.None? then None else Some(Found(meaning.value, end))
  }

  /** Reading an encoding, whatever surrounds it, gives its meaning and the offset behind it; items with
      no meaning (a list or dictionary as a key) make the reader raise. */
  lemma {:induction false} ReadInvertsEncoding(data: seq<Byte>, offset: nat, item: Item)
    requires Fits(item) && At(data, offset, Encoding(item))
    ensures Read(data, offset) == Report(Meaning(item), offset + |Encoding(item)|)
    decreases item, 0
  {
    match item
    case Array(w, items) => ReadArrayInverts(data, offset, w, items);
    case Map(w, entries) => ReadMapInverts(data, offset, w, entries);
    case Tag(w, number, inner) => ReadTagInverts(data, offset, w, number, inner);
    case _ => ReadLeafInverts(data, offset, item);
  }

  lemma ReadLeafInverts(data: seq<Byte>, offset: nat, item: Item)
    requires !item.Array? && !item.Map? && !item.Tag?
    requires Fits(item) && At(data, offset, Encoding(item))
    ensures Read(data, offset) == Report(Meaning(item), offset + |Encoding(item)|)
  {
    match item
    case Unsigned(w, n) => ReadNumberInverts(data, offset, 0, w, n);
    case Negative(w, n) => ReadNumberInverts(data, offset, 1, w, n);
    case Bytes(w, raw) => ReadBytesInverts(data, offset, w, raw);
    case Str(w, text) =>
      DecodeInvertsEncode(text);
      ReadStrInverts(data, offset, w, Encode(text), text);
    case False => ReadSimpleInverts(data, offset, 0xF4);
    case True => ReadSimpleInverts(data, offset, 0xF5);
    case Null => ReadSimpleInverts(data, offset, 0xF6);
  }

  lemma ReadNumberInverts(data: seq<Byte>, offset: nat, major: nat, w: Width, n: nat)
    requires major < 2 && n < Limit(w) && At(data, offset, Head(major, w, n))
    ensures Read(data, offset) == Some(Found(Int(if major == 0 then n else -1 - n), offset + |Head(major, w, n)|))
  {
    HeadIsRead(data, offset, major, w, n);
  }

  lemma ReadSimpleInverts(data: seq<Byte>, offset: nat, b: Byte)
    requires At(data, offset, [b]) && 0xF4 <= b <= 0xF6
    ensures Read(data, offset)
            == Some(Found(if b == 0xF4 then Bool(false) else if b == 0xF5 then Bool(true) else Nothing, offset + 1))
  {
    assert data[offset + 0] == [b][0];
  }

  lemma ReadBytesInverts(data: seq<Byte>, offset: nat, w: Width, raw: seq<Byte>)
    requires |raw| < Limit(w) && At(data, offset, Head(2, w, |raw|) + raw)
    ensures Read(data, offset) == Some(Found(Text(Hex(raw)), offset + |Head(2, w, |raw|) + raw|))
  {
    var next := offset + |Head(2, w, |raw|)|;
    AtParts(data, offset, Head(2, w, |raw|), raw);
    BytesAreRead(data, next, ExtraOf(w, |raw|), raw);
    ReadThroughHead(data, offset, 2, w, |raw|, raw, Found(Text(Hex(raw)), next + |raw|));
  }

  /** What is found behind the head is what the reader reports. */
  lemma ReadThroughHead(data: seq<Byte>, offset: nat, major: nat, w: Width, n: nat, raw: seq<Byte>, found: Found)
    requires major < 8 && n < Limit(w) && At(data, offset, Head(major, w, n) + raw)
    requires ReadBody(data, offset + |Head(major, w, n)|, major, ExtraOf(w, n), n) == Some(found)
    ensures Read(data, offset) == Some(found)
  {
    HeadAndBody(data, offset, major, w, n, raw);
  }

  lemma BytesAreRead(data: seq<Byte>, next: nat, extra: nat, raw: seq<Byte>)
    requires At(data, next, raw)
    ensures ReadBody(data, next, 2, extra, |raw|) == Some(Found(Text(Hex(raw)), next + |raw|))
  {
    SliceAt(data, next, raw);
  }

  lemma ReadStrInverts(data: seq<Byte>, offset: nat, w: Width, raw: seq<Byte>, text: seq<Scalar>)
    requires |raw| < Limit(w) && At(data, offset, Head(3, w, |raw|) + raw) && Decode(raw) == Some(text)
    ensures Read(data, offset) == Some(Found(Text(text), offset + |Head(3, w, |raw|) + raw|))
  {
    var next := offset + |Head(3, w, |raw|)|;
    AtParts(data, offset, Head(3, w, |raw|), raw);
    TextIsRead(data, next, ExtraOf(w, |raw|), raw, text);
    ReadThroughHead(data, offset, 3, w, |raw|, raw, Found(Text(text), next + |raw|));
  }

  lemma TextIsRead(data: seq<Byte>, next: nat, extra: nat, raw: seq<Byte>, text: seq<Scalar>)
    requires At(data, next, raw) && Decode(raw) == Some(text)
    ensures ReadBody(data, next, 3, extra, |raw|) == Some(Found(Text(text), next + |raw|))
  {
    SliceAt(data, next, raw);
  }

  lemma {:induction false} ReadArrayInverts(data: seq<Byte>, offset: nat, w: Width, items: seq<Item>)
    requires |items| < Limit(w) && (forall x :: x in items ==> Fits(x))
    requires At(data, offset, Head(4, w, |items|) + EncodingOfItems(items))
    ensures Read(data, offset)
            == Report(MeaningOfItems(items, []), offset + |Head(4, w, |items|) + EncodingOfItems(items)|)
    decreases items, 2
  {
    var next := offset + |Head(4, w, |items|)|;
    HeadAndBody(data, offset, 4, w, |items|, EncodingOfItems(items));
    ReadItemsInverts(data, next, items, []);
  }

  lemma {:induction false} ReadMapInverts(data: seq<Byte>, offset: nat, w: Width, entries: Entries)
    requires Count(entries) < Limit(w) && EntriesFit(entries)
    requires At(data, offset, Head(5, w, Count(entries)) + EncodingOfEntries(entries))
    ensures Read(data, offset) ==
            Report(MeaningOfEntries(entries, []), offset + |Head(5, w, Count(entries)) + EncodingOfEntries(entries)|)
    decreases entries, 2
  {
    var next := offset + |Head(5, w, Count(entries))|;
    HeadAndBody(data, offset, 5, w, Count(entries), EncodingOfEntries(entries));
    ReadPairsInverts(data, next, entries, []);
  }

  lemma {:induction false} ReadTagInverts(data: seq<Byte>, offset: nat, w: Width, number: nat, inner: Item)
    requires number < Limit(w) && Fits(inner) && At(data, offset, Head(6, w, number) + Encoding(inner))
    ensures Read(data, offset) == Report(Meaning(inner), offset + |Head(6, w, number) + Encoding(inner)|)
    decreases inner, 2
  {
    HeadAndBody(data, offset, 6, w, number, Encoding(inner));
    ReadInvertsEncoding(data, offset + |Head(6, w, number)|, inner);
  }

  lemma {:induction false} ReadItemsInverts(data: seq<Byte>, offset: nat, items: seq<Item>, done: seq<Value>)
    requires (forall x :: x in items ==> Fits(x)) && At(data, offset, EncodingOfItems(items))
    ensures ReadItems(data, offset, |items|, done)
            == Report(MeaningOfItems(items, done), offset + |EncodingOfItems(items)|)
    decreases items, 1
  {
    if items != [] {
      AtParts(data, offset, Encoding(items[0]), EncodingOfItems(items[1..]));
      ReadInvertsEncoding(data, offset, items[0]);
      var first := Meaning(items[0]);
      if first.Some? {
        ReadItemsInverts(data, offset + |Encoding(items[0])|, items[1..], done + [first.value]);
      }
    }
  }

  lemma {:induction false} ReadPairsInverts(data: seq<Byte>, offset: nat, entries: Entries, done: seq<Pair>)
    requires EntriesFit(entries) && At(data, offset, EncodingOfEntries(entries))
    ensures ReadPairs(data, offset, Count(entries), done) ==
            Report(MeaningOfEntries(entries, done), offset + |EncodingOfEntries(entries)|)
    decreases entries, 1
  {
    if entries.More? {
      var behind := offset + |Encoding(entries.key)| + |Encoding(entries.value)|;
      var pair := MeaningOfEntry(Meaning(entries.key), Meaning(entries.value));
      ReadEntryInverts(data, offset, entries);
      PairsFollow(data, offset, behind, pair, Count(entries.rest), done);
      MeaningFollows(entries.key, entries.value, entries.rest, done);
      if pair.Some? {
        ReadPairsInverts(data, behind, entries.rest, Assign(done, pair.value.key, pair.value.value));
      }
    }
  }

  lemma {:induction false} ReadEntryInverts(data: seq<Byte>, offset: nat, entries: Entries)
    requires entries.More? && EntriesFit(entries) && At(data, offset, EncodingOfEntries(entries))
    ensures var behind := offset + |Encoding(entries.key)| + |Encoding(entries.value)|;
            && ReadPair(data, offset)
               == ReportPair(MeaningOfEntry(Meaning(entries.key), Meaning(entries.value)), behind)
            && At(data, behind, EncodingOfEntries(entries.rest))
            && offset + |EncodingOfEntries(entries)| == behind + |EncodingOfEntries(entries.rest)|
    decreases entries, 0
  {
    var behindKey := offset + |Encoding(entries.key)|;
    EntryParts(data, offset, entries.key, entries.value, entries.rest);
    assert Read(data, offset) == Report(Meaning(entries.key), behindKey) by {
      ReadInvertsEncoding(data, offset, entries.key);
    }
    assert Read(data, behindKey) == Report(Meaning(entries.value), behindKey + |Encoding(entries.value)|) by {
      ReadInvertsEncoding(data, behindKey, entries.value);
    }
    ReadPairReports(data, offset, behindKey, behindKey + |Encoding(entries.value)|, Meaning(entries.key),
                    Meaning(entries.value));
  }

  lemma ReadPairReports(data: seq<Byte>, offset: nat, behindKey: nat, behind: nat, key: Option<Value>,
                        value: Option<Value>)
    requires Read(data, offset) == Report(key, behindKey) && Read(data, behindKey) == Report(value, behind)
    ensures ReadPair(data, offset) == ReportPair(MeaningOfEntry(key, value), behind)
  {
  }

  function ReportPair(pair: Option<Pair>, end: nat): Option<FoundPair> {
    if pair.None? then None else Some(FoundPair(pair.value.key, pair.value.value, end))
  }

  lemma PairsFollow(data: seq<Byte>, offset: nat, behind: nat, pair: Option<Pair>, count: nat, done: seq<Pair>)
    requires ReadPair(data, offset) == ReportPair(pair, behind)
    ensures ReadPairs(data, offset, count + 1, done) ==
            if pair.None? then None else ReadPairs(data, behind, count, Assign(done, pair.value.key, pair.value.value))
  {
  }

  lemma MeaningFollows(key: Item, value: Item, rest: Entries, done: seq<Pair>)
    ensures var pair := MeaningOfEntry(Meaning(key), Meaning(value));
            MeaningOfEntries(More(key, value, rest), done) ==
            if pair.None? then None else MeaningOfEntries(rest, Assign(done, pair.value.key, pair.value.value))
  {
  }

  lemma EntryParts(data: seq<Byte>, offset: nat, key: Item, value: Item, rest: Entries)
    requires EntriesFit(More(key, value, rest))
    ensures var behindKey := offset + |Encoding(key)|;
            var behind := behindKey + |Encoding(value)|;
            && (At(data, offset, EncodingOfEntries(More(key, value, rest))) <==>
                At(data, offset, Encoding(key)) && At(data, behindKey, Encoding(value))
                && At(data, behind, EncodingOfEntries(rest)))
            && offset + |EncodingOfEntries(More(key, value, rest))| == behind + |EncodingOfEntries(rest)|
  {
    var k, v, r := Encoding(key), Encoding(value), EncodingOfEntries(rest);
    assert EncodingOfEntries(More(key, value, rest)) == (k + v) + r;
    AtParts(data, offset, k + v, r);
    AtParts(data, offset, k, v);
  }

  /** Reading encode(v) followed by any bytes yields v and exactly the end offset. */
  lemma RoundTrip(before: seq<Byte>, item: Item, after: seq<Byte>)
    requires Fits(item)
    ensures Read(before + Encoding(item) + after, |before|) == Report(Meaning(item), |before| + |Encoding(item)|)
  {
    var data := before + Encoding(item) + after;
    assert data[|before|..|before| + |Encoding(item)|] == Encoding(item);
    ReadInvertsEncoding(data, |before|, item);
  }

  // ------------------------------------------------------------------ only encodings are read

  /** `item` is encoded at `offset` and means what was found there. */
  ghost predicate Explains(data: seq<Byte>, offset: nat, item: Item, found: Found) {
    && Fits(item) && At(data, offset, Encoding(item))
    && Meaning(item) == Some(found.value)
    && offset + |Encoding(item)| == found.end
  }

  lemma HeadOfRead(data: seq<Byte>, offset: nat, body: seq<Byte>)
    requires offset < |data| && data[offset] % 32 < 28
    requires At(data, offset + 1 + WidthOf(data[offset] % 32), body)
    ensures var extra := data[offset] % 32;
            var n := Argument(data, offset + 1, extra);
            var w := WidthFor(extra);
            && n < Limit(w) && data[offset] / 32 < 8
            && At(data, offset, Head(data[offset] / 32, w, n) + body)
            && offset + |Head(data[offset] / 32, w, n) + body| == offset + 1 + WidthOf(extra) + |body|
  {
    ReadIsHead(data, offset);
    var extra := data[offset] % 32;
    AtParts(data, offset, Head(data[offset] / 32, WidthFor(extra), Argument(data, offset + 1, extra)), body);
  }

  /** Whatever the reader accepts without running past the end of the data is the encoding of an item
      that means what it returned. */
  lemma {:induction false} OnlyEncodingsAreRead(data: seq<Byte>, offset: nat) returns (item: Item)
    requires Read(data, offset).Some? && Read(data, offset).value.end <= |data|
    ensures Explains(data, offset, item, Read(data, offset).value)
    decreases Left(data, offset), 0, 0
  {
    var major, extra := data[offset] / 32, data[offset] % 32;
    var n := Argument(data, offset + 1, extra);
    var next := offset + 1 + WidthOf(extra);
    match major {
      case 4 =>
        var items := OnlyItemsAreRead(data, next, n, []);
        item := ArrayExplains(data, offset, items);
      case 5 =>
        var entries := OnlyPairsAreRead(data, next, n, []);
        item := MapExplains(data, offset, entries);
      case 6 =>
        var inner := OnlyEncodingsAreRead(data, next);
        item := TagExplains(data, offset, inner);
      case _ =>
        item := LeafExplains(data, offset);
    }
  }

  lemma LeafExplains(data: seq<Byte>, offset: nat) returns (item: Item)
    requires Read(data, offset).Some? && Read(data, offset).value.end <= |data|
    requires !(4 <= data[offset] / 32 <= 6)
    ensures Explains(data, offset, item, Read(data, offset).value)
  {
    var major := data[offset] / 32;
    if major < 2 {
      item := NumberExplains(data, offset);
    } else if major == 2 {
      item := BytesExplains(data, offset);
    } else if major == 3 {
      item := StrExplains(data, offset);
    } else {
      item := SimpleExplains(data, offset);
    }
  }

  lemma SimpleExplains(data: seq<Byte>, offset: nat) returns (item: Item)
    requires Read(data, offset).Some? && data[offset] / 32 == 7
    ensures Explains(data, offset, item, Read(data, offset).value)
  {
    var extra := data[offset] % 32;
    item := if extra == 20 then False else if extra == 21 then True else Null;
  }

  lemma NumberExplains(data: seq<Byte>, offset: nat) returns (item: Item)
    requires Read(data, offset).Some? && Read(data, offset).value.end <= |data| && data[offset] / 32 < 2
    ensures Explains(data, offset, item, Read(data, offset).value)
  {
    var extra := data[offset] % 32;
    var w, n := WidthFor(extra), Argument(data, offset + 1, extra);
    ReadIsHead(data, offset);
    item := if data[offset] / 32 == 0 then Unsigned(w, n) else Negative(w, n);
  }

  lemma BytesExplains(data: seq<Byte>, offset: nat) returns (item: Item)
    requires Read(data, offset).Some? && Read(data, offset).value.end <= |data| && data[offset] / 32 == 2
    ensures Explains(data, offset, item, Read(data, offset).value)
  {
    var extra := data[offset] % 32;
    var n := Argument(data, offset + 1, extra);
    var raw := Slice(data, offset + 1 + WidthOf(extra), n);
    AtSlice(data, offset + 1 + WidthOf(extra), n);
    HeadOfRead(data, offset, raw);
    item := Bytes(WidthFor(extra), raw);
  }

  lemma StrExplains(data: seq<Byte>, offset: nat) returns (item: Item)
    requires Read(data, offset).Some? && Read(data, offset).value.end <= |data| && data[offset] / 32 == 3
    ensures Explains(data, offset, item, Read(data, offset).value)
  {
    var extra := data[offset] % 32;
    var n := Argument(data, offset + 1, extra);
    var raw := Slice(data, offset + 1 + WidthOf(extra), n);
    AtSlice(data, offset + 1 + WidthOf(extra), n);
    HeadOfRead(data, offset, raw);
    OnlyEncodingsDecode(raw);
    item := Str(WidthFor(extra), Decode(raw).value);
  }

  lemma ArrayExplains(data: seq<Byte>, offset: nat, items: seq<Item>) returns (item: Item)
    requires Read(data, offset).Some? && data[offset] / 32 == 4
    requires var extra := data[offset] % 32;
             ItemsExplain(data, offset + 1 + WidthOf(extra), items, Argument(data, offset + 1, extra), [],
                          Read(data, offset).value)
    ensures Explains(data, offset, item, Read(data, offset).value)
  {
    var extra := data[offset] % 32;
    HeadOfRead(data, offset, EncodingOfItems(items));
    item := Array(WidthFor(extra), items);
  }

  lemma MapExplains(data: seq<Byte>, offset: nat, entries: Entries) returns (item: Item)
    requires Read(data, offset).Some? && data[offset] / 32 == 5
    requires var extra := data[offset] % 32;
             EntriesExplain(data, offset + 1 + WidthOf(extra), entries, Argument(data, offset + 1, extra), [],
                            Read(data, offset).value)
    ensures Explains(data, offset, item, Read(data, offset).value)
  {
    var extra := data[offset] % 32;
    HeadOfRead(data, offset, EncodingOfEntries(entries));
    item := Map(WidthFor(extra), entries);
  }

  lemma TagExplains(data: seq<Byte>, offset: nat, inner: Item) returns (item: Item)
    requires Read(data, offset).Some? && data[offset] / 32 == 6
    requires Explains(data, offset + 1 + WidthOf(data[offset] % 32), inner, Read(data, offset).value)
    ensures Explains(data, offset, item, Read(data, offset).value)
  {
    var extra := data[offset] % 32;
    HeadOfRead(data, offset, Encoding(inner));
    item := Tag(WidthFor(extra), Argument(data, offset + 1, extra), inner);
  }

  ghost predicate ItemsExplain(data: seq<Byte>, offset: nat, items: seq<Item>, count: nat, done: seq<Value>,
                               found: Found) {
    && |items| == count && (forall x :: x in items ==> Fits(x))
    && At(data, offset, EncodingOfItems(items))
    && MeaningOfItems(items, done) == Some(found.value)
    && offset + |EncodingOfItems(items)| == found.end
  }

  ghost predicate EntriesExplain(data: seq<Byte>, offset: nat, entries: Entries, count: nat, done: seq<Pair>,
                                 found: Found) {
    && Count(entries) == count && EntriesFit(entries)
    && At(data, offset, EncodingOfEntries(entries))
    && MeaningOfEntries(entries, done) == Some(found.value)
    && offset + |EncodingOfEntries(entries)| == found.end
  }

  lemma {:induction false} OnlyItemsAreRead(data: seq<Byte>, offset: nat, count: nat, done: seq<Value>)
    returns (items: seq<Item>)
    requires ReadItems(data, offset, count, done).Some? && ReadItems(data, offset, count, done).value.end <= |data|
    ensures ItemsExplain(data, offset, items, count, done, ReadItems(data, offset, count, done).value)
    decreases Left(data, offset), 1, count
  {
    items := [];
    if count != 0 {
      var found := Read(data, offset).value;
      var rest := OnlyItemsAreRead(data, found.end, count - 1, done + [found.value]);
      var item := OnlyEncodingsAreRead(data, offset);
      items := [item] + rest;
      AtParts(data, offset, Encoding(item), EncodingOfItems(rest));
    }
  }

  lemma {:induction false} OnlyPairsAreRead(data: seq<Byte>, offset: nat, count: nat, done: seq<Pair>)
    returns (entries: Entries)
    requires ReadPairs(data, offset, count, done).Some? && ReadPairs(data, offset, count, done).value.end <= |data|
    ensures EntriesExplain(data, offset, entries, count, done, ReadPairs(data, offset, count, done).value)
    decreases Left(data, offset), 1, count
  {
    entries := End;
    if count != 0 {
      var key := Read(data, offset).value;
      var value := Read(data, key.end).value;
      var dict := Assign(done, key.value, value.value);
      var rest := OnlyPairsAreRead(data, value.end, count - 1, dict);
      var v := OnlyEncodingsAreRead(data, key.end);
      var k := OnlyEncodingsAreRead(data, offset);
      entries := EntryExplains(data, offset, k, key, v, value, rest, count - 1, done,
                               ReadPairs(data, offset, count, done).value);
    }
  }

  lemma EntryExplains(data: seq<Byte>, offset: nat, k: Item, key: Found, v: Item, value: Found, rest: Entries,
                      count: nat,
                      done: seq<Pair>, found: Found) returns (entries: Entries)
    requires Explains(data, offset, k, key) && Explains(data, key.end, v, value) && Hashable(key.value)
    requires EntriesExplain(data, value.end, rest, count, Assign(done, key.value, value.value), found)
    ensures EntriesExplain(data, offset, entries, count + 1, done, found)
  {
    entries := More(k, v, rest);
    EntryParts(data, offset, k, v, rest);
  }
}
