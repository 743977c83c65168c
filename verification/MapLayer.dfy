/** One vector-tile layer of the synthetic map fixture, with its table of interned property values
    (encodeLayer in apps/game-api/src/demand-map-fixture.ts), and a reader of such layers. */
module MapLayer {
  import opened Outcomes
  import opened TextOrder
  import opened Utf8
  import opened Varints

  type Words = seq<Scalar>

  datatype Feature = Feature(stationId: Words, title: Words, featureNumber: nat, x: int, y: int, endX: int, endY: int)

  const EXTENT := 4096

  function KEYS(): (keys: seq<Words>)
    ensures |keys| == 7
  {
    [Ascii("feature_id"), Ascii("feature_type"), Ascii("object_id"), Ascii("quality_class"), Ascii("name"),
     Ascii("route_number"), Ascii("route_name")]
  }

  function PropertiesOf(station: bool, f: Feature): (properties: seq<Words>)
    ensures |properties| == |KEYS()|
  {
    var id := if station then f.stationId else Ascii("synthetic-track-") + Decimal(f.featureNumber);
    [id, Ascii(if station then "station" else "track"), id, Ascii("B"), f.title,
     Ascii("S") + Decimal(f.featureNumber / 100), Ascii("Synthetischer Testkorridor")]
  }

  // ------------------------------------------------------------------ interning

  function Interned(values: seq<Words>, value: Words): (r: seq<Words>)
    ensures value in r && values <= r
  {
    if value in values then values else values + [value]
  }

  function InternedAll(values: seq<Words>, properties: seq<Words>): (r: seq<Words>)
    ensures values <= r
    decreases |properties|
  {
    if properties == [] then values else InternedAll(Interned(values, properties[0]), properties[1..])
  }

  /** The table after interning the properties of all features, in order. */
  function TableOf(values: seq<Words>, station: bool, features: seq<Feature>): (r: seq<Words>)
    ensures values <= r
    decreases |features|
  {
    if features == [] then values
    else TableOf(InternedAll(values, PropertiesOf(station, features[0])), station, features[1..])
  }

  function IndexOf(values: seq<Words>, value: Words): (i: nat)
    requires value in values
    ensures i < |values| && values[i] == value
  {
    if values[0] == value then 0 else 1 + IndexOf(values[1..], value)
  }

  ghost predicate NoDuplicates(values: seq<Words>) {
    forall i, j :: 0 <= i < j < |values| ==> values[i] != values[j]
  }

  lemma {:induction false} IndexIsStable(values: seq<Words>, more: seq<Words>, value: Words)
    requires value in values && values <= more
    ensures value in more && IndexOf(more, value) == IndexOf(values, value)
  {
    assert more[..|values|] == values;
    assert value in more[..|values|];
    assert more[0] == values[0];
    if values[0] != value {
      assert more[1..][..|values| - 1] == values[1..];
      IndexIsStable(values[1..], more[1..], value);
    }
  }

  lemma {:induction false} InternedAllHolds(values: seq<Words>, properties: seq<Words>)
    ensures forall p :: p in properties ==> p in InternedAll(values, properties)
    ensures NoDuplicates(values) ==> NoDuplicates(InternedAll(values, properties))
    ensures forall v :: v in InternedAll(values, properties) ==> v in values || v in properties
    decreases |properties|
  {
    if properties != [] {
      var next := Interned(values, properties[0]);
      InternedAllHolds(next, properties[1..]);
      assert properties[0] in next;
      assert forall v :: v in next ==> v in InternedAll(next, properties[1..]);
      assert forall p :: p in properties ==> p == properties[0] || p in properties[1..];
    }
  }

  lemma {:induction false} TableHolds(values: seq<Words>, station: bool, features: seq<Feature>)
    ensures forall f, p :: f in features && p in PropertiesOf(station, f) ==> p in TableOf(values, station, features)
    ensures NoDuplicates(values) ==> NoDuplicates(TableOf(values, station, features))
    decreases |features|
  {
    if features != [] {
      var next := InternedAll(values, PropertiesOf(station, features[0]));
      InternedAllHolds(values, PropertiesOf(station, features[0]));
      TableHolds(next, station, features[1..]);
      assert forall v :: v in next ==> v in TableOf(next, station, features[1..]);
      assert forall f :: f in features ==> f == features[0] || f in features[1..];
    }
  }

  /** The mutable table of the source: the list of values and where each value stands in it. */
  class ValueTable {
    var values: seq<Words>
    var indices: map<Words, nat>

    ghost predicate Valid()
      reads this
    {
      && NoDuplicates(values)
      && (forall v :: v in values <==> v in indices)
      && (forall v :: v in indices ==> indices[v] < |values| && values[indices[v]] == v)
    }

    constructor ()
      ensures Valid() && values == []
    {
      values, indices := [], map[];
    }

    method Index(value: Words) returns (index: nat)
      requires Valid()
      modifies this
      ensures Valid() && values == Interned(old(values), value)
      ensures index == IndexOf(values, value)
    {
      if value in indices {
        index := indices[value];
      } else {
        index := |values|;
        values := values + [value];
        indices := indices[value := index];
      }
      var first := IndexOf(values, value);
      assert first == index;
    }
  }

  // ------------------------------------------------------------------ the layer

  predicate Holds(values: seq<Words>, properties: seq<Words>) {
    forall p :: p in properties ==> p in values
  }

  ghost predicate AllHeld(values: seq<Words>, station: bool, features: seq<Feature>) {
    forall f, p :: f in features && p in PropertiesOf(station, f) ==> p in values
  }

  /** The tags of a feature: the index of each key followed by the index of its value. */
  function TagsOf(values: seq<Words>, properties: seq<Words>, k: nat): seq<nat>
    requires Holds(values, properties)
  {
    if properties == [] then [] else [k, IndexOf(values, properties[0])] + TagsOf(values, properties[1..], k + 1)
  }

  function GeometryOf(station: bool, f: Feature): seq<nat> {
    [9, Zigzag(f.x), Zigzag(f.y)] + if station then [] else [10, Zigzag(f.endX - f.x), Zigzag(f.endY - f.y)]
  }

  function FeatureFields(station: bool, f: Feature, tags: seq<nat>): seq<Field> {
    [NumberField(1, f.featureNumber + 1), BytesField(2, PackedBytes(tags)), NumberField(3, if station then 1 else 2),
     BytesField(4, PackedBytes(GeometryOf(station, f)))]
  }

  function FeaturePart(values: seq<Words>, station: bool, f: Feature): Field
    requires Holds(values, PropertiesOf(station, f))
  {
    BytesField(2, MessageBytes(FeatureFields(station, f, TagsOf(values, PropertiesOf(station, f), 0))))
  }

  function FeatureParts(values: seq<Words>, station: bool, features: seq<Feature>): seq<Field>
    requires AllHeld(values, station, features)
  {
    if features == [] then []
    else [FeaturePart(values, station, features[0])] + FeatureParts(values, station, features[1..])
  }

  function KeyParts(keys: seq<Words>): seq<Field> {
    if keys == [] then [] else [BytesField(3, Encode(keys[0]))] + KeyParts(keys[1..])
  }

  function ValueParts(values: seq<Words>): seq<Field> {
    if values == [] then []
    else [BytesField(4, MessageBytes([BytesField(1, Encode(values[0]))]))] + ValueParts(values[1..])
  }

  /** The fields of a layer, in the order in which they are written. */
  function LayerFields(name: Words, features: seq<Feature>): seq<Field> {
    var station := name == Ascii("stations");
    var table := TableOf([], station, features);
    TableHolds([], station, features);
    [BytesField(1, Encode(name))] + FeatureParts(table, station, features) + KeyParts(KEYS()) + ValueParts(table)
    + [NumberField(5, EXTENT), NumberField(15, 2)]
  }

  /** Parts of the features so far use the table as it stands; growing it later does not change them. */
  lemma {:induction false} TagsAreStable(values: seq<Words>, more: seq<Words>, properties: seq<Words>, k: nat)
    requires values <= more && Holds(values, properties)
    ensures Holds(more, properties) && TagsOf(more, properties, k) == TagsOf(values, properties, k)
  {
    forall p | p in properties
      ensures p in more
    {
      IndexIsStable(values, more, p);
    }
    if properties != [] {
      IndexIsStable(values, more, properties[0]);
      TagsAreStable(values, more, properties[1..], k + 1);
    }
  }

  method TagsFor(table: ValueTable, properties: seq<Words>) returns (tags: seq<nat>)
    requires table.Valid()
    modifies table
    ensures table.Valid() && table.values == InternedAll(old(table.values), properties)
    ensures Holds(table.values, properties)
    ensures tags == TagsOf(table.values, properties, 0)
  {
    ghost var before := table.values;
    tags := [];
    assert properties[0..] == properties;
    for k := 0 to |properties|
      invariant table.Valid()
      invariant InternedAll(before, properties) == InternedAll(table.values, properties[k..])
      invariant Holds(table.values, properties[..k])
      invariant tags == TagsOf(table.values, properties[..k], 0)
    {
      ghost var was := table.values;
      InternNext(was, properties, k);
      var index := table.Index(properties[k]);
      NextTag(was, properties, k);
      tags := tags + [k, index];
    }
    assert properties[..|properties|] == properties;
  }

  lemma InternNext(values: seq<Words>, properties: seq<Words>, k: nat)
    requires k < |properties|
    ensures InternedAll(values, properties[k..]) == InternedAll(Interned(values, properties[k]), properties[k + 1..])
  {
    assert properties[k..][0] == properties[k] && properties[k..][1..] == properties[k + 1..];
  }

  lemma NextTag(was: seq<Words>, properties: seq<Words>, k: nat)
    requires k < |properties| && Holds(was, properties[..k])
    ensures var values := Interned(was, properties[k]);
            && Holds(values, properties[..k + 1])
            && TagsOf(values, properties[..k + 1], 0)
               == TagsOf(was, properties[..k], 0) + [k, IndexOf(values, properties[k])]
  {
    var values := Interned(was, properties[k]);
    TagsAreStable(was, values, properties[..k], 0);
    TagsAppend(values, properties[..k], properties[k], 0);
    assert properties[..k + 1] == properties[..k] + [properties[k]];
  }

  lemma {:induction false} TagsAppend(values: seq<Words>, properties: seq<Words>, p: Words, k: nat)
    requires Holds(values, properties) && p in values
    ensures Holds(values, properties + [p])
    ensures TagsOf(values, properties + [p], k)
            == TagsOf(values, properties, k) + [k + |properties|, IndexOf(values, p)]
  {
    if properties == [] {
      assert (properties + [p])[1..] == [];
    } else {
      TagsAppend(values, properties[1..], p, k + 1);
      assert (properties + [p])[1..] == properties[1..] + [p];
    }
  }

  lemma {:induction false} PartsAreStable(values: seq<Words>, more: seq<Words>, station: bool, features: seq<Feature>)
    requires values <= more && AllHeld(values, station, features)
    ensures AllHeld(more, station, features)
    ensures FeatureParts(more, station, features) == FeatureParts(values, station, features)
  {
    forall f, p | f in features && p in PropertiesOf(station, f)
      ensures p in more
    {
      IndexIsStable(values, more, p);
    }
    if features != [] {
      TagsAreStable(values, more, PropertiesOf(station, features[0]), 0);
      PartsAreStable(values, more, station, features[1..]);
    }
  }

  lemma {:induction false} PartsAppend(values: seq<Words>, station: bool, features: seq<Feature>, f: Feature)
    requires AllHeld(values, station, features + [f])
    ensures Holds(values, PropertiesOf(station, f))
    ensures FeatureParts(values, station, features + [f])
            == FeatureParts(values, station, features) + [FeaturePart(values, station, f)]
  {
    assert f in features + [f];
    if features == [] {
      assert (features + [f])[1..] == [];
    } else {
      assert (features + [f])[1..] == features[1..] + [f];
      PartsAppend(values, station, features[1..], f);
    }
  }

  lemma NextPart(was: seq<Words>, values: seq<Words>, station: bool, features: seq<Feature>, i: nat)
    requires i < |features| && was <= values && AllHeld(was, station, features[..i])
    requires Holds(values, PropertiesOf(station, features[i]))
    ensures AllHeld(values, station, features[..i + 1])
    ensures FeatureParts(values, station, features[..i + 1]) ==
            FeatureParts(was, station, features[..i]) + [FeaturePart(values, station, features[i])]
  {
    PartsAreStable(was, values, station, features[..i]);
    assert features[..i + 1] == features[..i] + [features[i]];
    PartsAppend(values, station, features[..i], features[i]);
  }

  /** The layer as the source builds it, feature by feature with a growing table. */
  method EncodeLayer(name: Words, features: seq<Feature>) returns (bytes: seq<Byte>)
    ensures bytes == FieldBytes(BytesField(3, MessageBytes(LayerFields(name, features))))
  {
    var station := name == Ascii("stations");
    var table := new ValueTable();
    var parts: seq<Field> := [];
    assert features[0..] == features;
    for i := 0 to |features|
      invariant fresh(table) && table.Valid()
      invariant TableOf([], station, features) == TableOf(table.values, station, features[i..])
      invariant AllHeld(table.values, station, features[..i])
      invariant parts == FeatureParts(table.values, station, features[..i])
    {
      var f := features[i];
      ghost var was := table.values;
      assert features[i..][0] == f && features[i..][1..] == features[i + 1..];
      var tags := TagsFor(table, PropertiesOf(station, f));
      NextPart(was, table.values, station, features, i);
      parts := parts + [BytesField(2, MessageBytes(FeatureFields(station, f, tags)))];
    }
    assert features[..|features|] == features;
    var fields := [BytesField(1, Encode(name))] + parts + KeyParts(KEYS()) + ValueParts(table.values)
    + [NumberField(5, EXTENT), NumberField(15, 2)];
    bytes := FieldBytes(BytesField(3, MessageBytes(fields)));
  }

  // ------------------------------------------------------------------ reading a layer back

  datatype Property = Property(key: Words, value: Words)

  datatype SeenFeature = SeenFeature(id: nat, properties: seq<Property>, kind: nat, geometry: seq<nat>)

  datatype SeenLayer = SeenLayer(name: Words, features: seq<SeenFeature>, values: seq<Words>, extent: nat, version: nat)

  function Blob(f: Field, number: nat): seq<seq<Byte>> {
    if f.BytesField? && f.field == number then [f.bytes] else []
  }

  function Value(f: Field, number: nat): seq<nat> {
    if f.NumberField? && f.field == number then [f.value] else []
  }

  /** The contents of all byte fields with this number, in order. */
  function Blobs(fields: seq<Field>, number: nat): seq<seq<Byte>> {
    if fields == [] then [] else Blob(fields[0], number) + Blobs(fields[1..], number)
  }

  function Numbers(fields: seq<Field>, number: nat): seq<nat> {
    if fields == [] then [] else Value(fields[0], number) + Numbers(fields[1..], number)
  }

  function ReadTexts(blobs: seq<seq<Byte>>): Option<seq<Words>> {
    if blobs == [] then Some([])
    else
      var first, rest := Decode(blobs[0]), ReadTexts(blobs[1..]);
      if first.None? || rest.None? then None else Some([first.value] + rest.value)
  }

  /** Values are messages of their own, with the text in field 1. */
  function ReadValues(blobs: seq<seq<Byte>>): Option<seq<Words>> {
    if blobs == [] then Some([])
    else
      var message := ReadMessage(blobs[0]);
      if message.None? || |Blobs(message.value, 1)| != 1 then None
      else
        var first, rest := Decode(Blobs(message.value, 1)[0]), ReadValues(blobs[1..]);
        if first.None? || rest.None? then None else Some([first.value] + rest.value)
  }

  /** Look up the key and the value of every pair of tags. */
  function Dereference(tags: seq<nat>, keys: seq<Words>, values: seq<Words>): Option<seq<Property>> {
    if tags == [] then Some([])
    else if |tags| == 1 || |keys| <= tags[0] || |values| <= tags[1] then None
    else
      var rest := Dereference(tags[2..], keys, values);
      if rest.None? then None else Some([Property(keys[tags[0]], values[tags[1]])] + rest.value)
  }

  function ReadFeature(blob: seq<Byte>, keys: seq<Words>, values: seq<Words>): Option<SeenFeature> {
    var message := ReadMessage(blob);
    if message.None? then None
    else
      var fields := message.value;
      if |Numbers(fields, 1)| != 1 || |Numbers(fields, 3)| != 1 || |Blobs(fields, 2)| != 1
          || |Blobs(fields, 4)| != 1 then None
      else
        var tags, geometry := ReadPacked(Blobs(fields, 2)[0]), ReadPacked(Blobs(fields, 4)[0]);
        if tags.None? || geometry.None? then None
        else
          var properties := Dereference(tags.value, keys, values);
          if properties.None? then None
          else Some(SeenFeature(Numbers(fields, 1)[0], properties.value, Numbers(fields, 3)[0], geometry.value))
  }

  function ReadFeatures(blobs: seq<seq<Byte>>, keys: seq<Words>, values: seq<Words>): Option<seq<SeenFeature>> {
    if blobs == [] then Some([])
    else
      var first, rest := ReadFeature(blobs[0], keys, values), ReadFeatures(blobs[1..], keys, values);
      if first.None? || rest.None? then None else Some([first.value] + rest.value)
  }

  function ReadLayer(blob: seq<Byte>): Option<SeenLayer> {
    var message := ReadMessage(blob);
    if message.None? then None else ReadLayerFields(message.value)
  }

  function ReadLayerFields(fields: seq<Field>): Option<SeenLayer> {
    var names, keys, values := ReadTexts(Blobs(fields, 1)), ReadTexts(Blobs(fields, 3)), ReadValues(Blobs(fields, 4));
    var extents, versions := Numbers(fields, 5), Numbers(fields, 15);
    if names.None? || keys.None? || values.None? || |names.value| != 1 || |extents| != 1 || |versions| != 1 then None
    else
      var features := ReadFeatures(Blobs(fields, 2), keys.value, values.value);
      if features.None? then None
      else Some(SeenLayer(names.value[0], features.value, values.value, extents[0], versions[0]))
  }

  /** What a reader should see of a feature: its own properties under their keys. */
  function Seen(station: bool, f: Feature): SeenFeature {
    SeenFeature(f.featureNumber + 1, Zip(KEYS(), PropertiesOf(station, f)), if station then 1
                else 2, GeometryOf(station, f))
  }

  function Zip(keys: seq<Words>, values: seq<Words>): seq<Property>
    requires |keys| == |values|
  {
    if keys == [] then [] else [Property(keys[0], values[0])] + Zip(keys[1..], values[1..])
  }

  function SeenAll(station: bool, features: seq<Feature>): seq<SeenFeature> {
    if features == [] then [] else [Seen(station, features[0])] + SeenAll(station, features[1..])
  }

  lemma {:induction false} BlobsAppend(s: seq<Field>, t: seq<Field>, number: nat)
    ensures Blobs(s + t, number) == Blobs(s, number) + Blobs(t, number)
  {
    if s == [] {
      assert s + t == t;
    } else {
      BlobsAppend(s[1..], t, number);
      assert (s + t)[1..] == s[1..] + t;
      assert Blob(s[0], number) + (Blobs(s[1..], number) + Blobs(t, number)) == Blobs(s, number) + Blobs(t, number);
    }
  }

  lemma {:induction false} NumbersAppend(s: seq<Field>, t: seq<Field>, number: nat)
    ensures Numbers(s + t, number) == Numbers(s, number) + Numbers(t, number)
  {
    if s == [] {
      assert s + t == t;
    } else {
      NumbersAppend(s[1..], t, number);
      assert (s + t)[1..] == s[1..] + t;
      assert Value(s[0], number) + (Numbers(s[1..], number) + Numbers(t, number))
             == Numbers(s, number) + Numbers(t, number);
    }
  }

  lemma OneField(f: Field, number: nat)
    ensures Blobs([f], number) == Blob(f, number) && Numbers([f], number) == Value(f, number)
  {
    assert [f][1..] == [];
  }

  lemma TwoFields(a: Field, b: Field, number: nat)
    ensures Blobs([a, b], number) == Blob(a, number) + Blob(b, number)
    ensures Numbers([a, b], number) == Value(a, number) + Value(b, number)
  {
    OneField(b, number);
    assert [a, b][1..] == [b];
  }

  lemma FourFields(a: Field, b: Field, c: Field, d: Field, number: nat)
    ensures Blobs([a, b, c, d], number) == Blob(a, number) + Blob(b, number) + Blob(c, number) + Blob(d, number)
    ensures Numbers([a, b, c, d], number) == Value(a, number) + Value(b, number) + Value(c, number) + Value(d, number)
  {
    assert [a, b, c, d] == [a, b] + [c, d];
    BlobsAppend([a, b], [c, d], number);
    NumbersAppend([a, b], [c, d], number);
    TwoFields(a, b, number);
    TwoFields(c, d, number);
    FourJoined(Blob(a, number), Blob(b, number), Blob(c, number), Blob(d, number));
    FourJoined(Value(a, number), Value(b, number), Value(c, number), Value(d, number));
  }

  lemma FourJoined<T>(a: seq<T>, b: seq<T>, c: seq<T>, d: seq<T>)
    ensures (a + b) + (c + d) == a + b + c + d
  {
  }

  lemma {:induction false} KeyPartsAre(keys: seq<Words>)
    ensures Blobs(KeyParts(keys), 1) == [] && Blobs(KeyParts(keys), 2) == [] && Blobs(KeyParts(keys), 4) == []
    ensures Numbers(KeyParts(keys), 5) == [] && Numbers(KeyParts(keys), 15) == []
    ensures ReadTexts(Blobs(KeyParts(keys), 3)) == Some(keys)
  {
    if keys != [] {
      KeyPartsAre(keys[1..]);
      DecodeInvertsEncode(keys[0]);
      var blobs := Blobs(KeyParts(keys), 3);
      assert blobs[0] == Encode(keys[0]) && blobs[1..] == Blobs(KeyParts(keys[1..]), 3);
      assert keys == [keys[0]] + keys[1..];
    }
  }

  lemma {:induction false} ValuePartsAre(values: seq<Words>)
    ensures Blobs(ValueParts(values), 1) == [] && Blobs(ValueParts(values), 2) == []
            && Blobs(ValueParts(values), 3) == []
    ensures Numbers(ValueParts(values), 5) == [] && Numbers(ValueParts(values), 15) == []
    ensures ReadValues(Blobs(ValueParts(values), 4)) == Some(values)
  {
    if values != [] {
      ValuePartsAre(values[1..]);
      var fields := [BytesField(1, Encode(values[0]))];
      ReadMessageInverts(fields);
      DecodeInvertsEncode(values[0]);
      OneField(fields[0], 1);
      var blobs := Blobs(ValueParts(values), 4);
      assert blobs[0] == MessageBytes(fields) && blobs[1..] == Blobs(ValueParts(values[1..]), 4);
      assert values == [values[0]] + values[1..];
    }
  }

  lemma {:induction false} TagsDereference(values: seq<Words>, keys: seq<Words>, properties: seq<Words>, k: nat)
    requires Holds(values, properties) && k + |properties| == |keys|
    ensures Dereference(TagsOf(values, properties, k), keys, values) == Some(Zip(keys[k..], properties))
  {
    if properties != [] {
      TagsDereference(values, keys, properties[1..], k + 1);
      var tags := TagsOf(values, properties, k);
      assert tags[2..] == TagsOf(values, properties[1..], k + 1);
      assert keys[k..][1..] == keys[k + 1..];
    }
  }

  lemma FeatureIsSeen(values: seq<Words>, station: bool, f: Feature)
    requires Holds(values, PropertiesOf(station, f))
    ensures ReadFeature(FeaturePart(values, station, f).bytes, KEYS(), values) == Some(Seen(station, f))
  {
    var tags := TagsOf(values, PropertiesOf(station, f), 0);
    var fields := FeatureFields(station, f, tags);
    ReadMessageInverts(fields);
    ReadPackedInverts(tags);
    ReadPackedInverts(GeometryOf(station, f));
    TagsDereference(values, KEYS(), PropertiesOf(station, f), 0);
    assert KEYS()[0..] == KEYS();
    FeatureFieldsAre(station, f, tags);
  }

  lemma FeatureFieldsAre(station: bool, f: Feature, tags: seq<nat>)
    ensures var fields := FeatureFields(station, f, tags);
            && Numbers(fields, 1) == [f.featureNumber + 1] && Numbers(fields, 3) == [if station then 1 else 2]
            && Blobs(fields, 2) == [PackedBytes(tags)] && Blobs(fields, 4) == [PackedBytes(GeometryOf(station, f))]
  {
    var fields := FeatureFields(station, f, tags);
    FourFields(fields[0], fields[1], fields[2], fields[3], 1);
    FourFields(fields[0], fields[1], fields[2], fields[3], 2);
    FourFields(fields[0], fields[1], fields[2], fields[3], 3);
    FourFields(fields[0], fields[1], fields[2], fields[3], 4);
  }

  lemma {:induction false} FeaturePartsAre(values: seq<Words>, station: bool, features: seq<Feature>)
    requires AllHeld(values, station, features)
    ensures ReadFeatures(Blobs(FeatureParts(values, station, features), 2), KEYS(), values)
            == Some(SeenAll(station, features))
  {
    if features != [] {
      FeaturePartsAre(values, station, features[1..]);
      FeatureIsSeen(values, station, features[0]);
      var blobs := Blobs(FeatureParts(values, station, features), 2);
      assert blobs[0] == FeaturePart(values, station, features[0]).bytes;
      assert blobs[1..] == Blobs(FeatureParts(values, station, features[1..]), 2);
    }
  }

  lemma OnlyBlobsOfTwo(values: seq<Words>, station: bool, features: seq<Feature>)
    requires AllHeld(values, station, features)
    ensures var parts := FeatureParts(values, station, features);
            && Blobs(parts, 1) == [] && Blobs(parts, 3) == [] && Blobs(parts, 4) == []
            && Numbers(parts, 5) == [] && Numbers(parts, 15) == []
  {
    FeaturePartsAreBlobs(values, station, features, 1);
    FeaturePartsAreBlobs(values, station, features, 3);
    FeaturePartsAreBlobs(values, station, features, 4);
    FeaturePartsAreBlobs(values, station, features, 5);
    FeaturePartsAreBlobs(values, station, features, 15);
  }

  lemma {:induction false} FeaturePartsAreBlobs(values: seq<Words>, station: bool, features: seq<Feature>, number: nat)
    requires AllHeld(values, station, features)
    ensures var parts := FeatureParts(values, station, features);
      (number != 2 ==> Blobs(parts, number) == []) && Numbers(parts, number) == []
  {
    if features != [] {
      FeaturePartsAreBlobs(values, station, features[1..], number);
    }
  }

  /** Reading an encoded layer back shows its name, every feature with its own properties under the
      right keys, and a table of values without duplicates. */
  lemma LayerReadsBack(name: Words, features: seq<Feature>)
    ensures var station := name == Ascii("stations");
            var table := TableOf([], station, features);
            && NoDuplicates(table)
            && ReadLayer(MessageBytes(LayerFields(name, features))) ==
               Some(SeenLayer(name, SeenAll(station, features), table, EXTENT, 2))
  {
    var station := name == Ascii("stations");
    var table := TableOf([], station, features);
    TableHolds([], station, features);
    ReadMessageInverts(LayerFields(name, features));
    ReadsParts(name, station, features, table);
  }

  lemma ReadsParts(name: Words, station: bool, features: seq<Feature>, table: seq<Words>)
    requires AllHeld(table, station, features)
    ensures ReadLayerFields([BytesField(1, Encode(name))] + FeatureParts(table, station, features) + KeyParts(KEYS())
                            + ValueParts(table)
                            + [NumberField(5, EXTENT), NumberField(15, 2)]) ==
            Some(SeenLayer(name, SeenAll(station, features), table, EXTENT, 2))
  {
    var head, tail := [BytesField(1, Encode(name))], [NumberField(5, EXTENT), NumberField(15, 2)];
    var parts, keys, values := FeatureParts(table, station, features), KeyParts(KEYS()), ValueParts(table);
    FeaturePartsAre(table, station, features);
    OnlyBlobsOfTwo(table, station, features);
    KeyPartsAre(KEYS());
    ValuePartsAre(table);
    Framed(Encode(name), parts, keys, values);
    DecodeInvertsEncode(name);
    OneText(name);
  }

  lemma OneText(name: Words)
    ensures ReadTexts([Encode(name)]) == Some([name])
  {
    DecodeInvertsEncode(name);
    var blobs := [Encode(name)];
    assert blobs[1..] == [] && ReadTexts(blobs[1..]) == Some([]);
    assert [name] + [] == [name];
  }

  /** What each field number collects from a layer whose inner parts keep to their own numbers. */
  lemma Framed(name: seq<Byte>, parts: seq<Field>, keys: seq<Field>, values: seq<Field>)
    requires Blobs(parts, 1) == [] && Blobs(parts, 3) == [] && Blobs(parts, 4) == []
    requires Blobs(keys, 1) == [] && Blobs(keys, 2) == [] && Blobs(keys, 4) == []
    requires Blobs(values, 1) == [] && Blobs(values, 2) == [] && Blobs(values, 3) == []
    requires Numbers(parts, 5) == [] && Numbers(keys, 5) == [] && Numbers(values, 5) == []
    requires Numbers(parts, 15) == [] && Numbers(keys, 15) == [] && Numbers(values, 15) == []
    ensures var all := [BytesField(1, name)] + parts + keys + values + [NumberField(5, EXTENT), NumberField(15, 2)];
            && Blobs(all, 1) == [name] && Blobs(all, 2) == Blobs(parts, 2)
            && Blobs(all, 3) == Blobs(keys, 3) && Blobs(all, 4) == Blobs(values, 4)
            && Numbers(all, 5) == [EXTENT] && Numbers(all, 15) == [2]
  {
    FramedBlobs(name, parts, keys, values, 1);
    FramedBlobs(name, parts, keys, values, 2);
    FramedBlobs(name, parts, keys, values, 3);
    FramedBlobs(name, parts, keys, values, 4);
    FramedNumbers(name, parts, keys, values, 5);
    FramedNumbers(name, parts, keys, values, 15);
    TwoFields(NumberField(5, EXTENT), NumberField(15, 2), 5);
    TwoFields(NumberField(5, EXTENT), NumberField(15, 2), 15);
  }

  lemma FramedBlobs(name: seq<Byte>, parts: seq<Field>, keys: seq<Field>, values: seq<Field>, k: nat)
    ensures var all := [BytesField(1, name)] + parts + keys + values + [NumberField(5, EXTENT), NumberField(15, 2)];
            Blobs(all, k) == (if k == 1 then [name] else []) + Blobs(parts, k) + Blobs(keys, k) + Blobs(values, k)
  {
    var head, tail := [BytesField(1, name)], [NumberField(5, EXTENT), NumberField(15, 2)];
    BlobsAppend(head, parts, k);
    BlobsAppend(head + parts, keys, k);
    BlobsAppend(head + parts + keys, values, k);
    BlobsAppend(head + parts + keys + values, tail, k);
    OneField(BytesField(1, name), k);
    TwoFields(NumberField(5, EXTENT), NumberField(15, 2), k);
  }

  lemma FramedNumbers(name: seq<Byte>, parts: seq<Field>, keys: seq<Field>, values: seq<Field>, k: nat)
    ensures var all := [BytesField(1, name)] + parts + keys + values + [NumberField(5, EXTENT), NumberField(15, 2)];
            Numbers(all, k) == Numbers(parts, k) + Numbers(keys, k) + Numbers(values, k)
                               + Numbers([NumberField(5, EXTENT), NumberField(15, 2)], k)
  {
    var head, tail := [BytesField(1, name)], [NumberField(5, EXTENT), NumberField(15, 2)];
    NumbersAppend(head, parts, k);
    NumbersAppend(head + parts, keys, k);
    NumbersAppend(head + parts + keys, values, k);
    NumbersAppend(head + parts + keys + values, tail, k);
    OneField(BytesField(1, name), k);
    assert Numbers(head + parts, k) == Numbers(parts, k);
  }
}
