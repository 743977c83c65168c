/** The PMTiles version 3 root directory of the synthetic map fixture and the tile data behind it
    (encodeDirectory and the concatenation in apps/game-api/src/demand-map-fixture.ts). */
module MapDirectory {
  import opened Outcomes
  import opened Utf8
  import opened Varints

  datatype Tile = Tile(id: nat, bytes: seq<Byte>)

  /** An entry of a directory as a reader sees it (section 4 of the PMTiles version 3 specification). */
  datatype Entry = Entry(tileId: nat, runLength: nat, length: nat, offset: nat)

  function Deltas(tiles: seq<Tile>, previousId: nat): seq<int> {
    if tiles == [] then [] else [tiles[0].id - previousId] + Deltas(tiles[1..], tiles[0].id)
  }

  function Lengths(tiles: seq<Tile>): (n: seq<nat>)
    ensures |n| == |tiles|
  {
    if tiles == [] then [] else [|tiles[0].bytes|] + Lengths(tiles[1..])
  }

  function Ones(count: nat): (n: seq<nat>)
    ensures |n| == count && forall i :: 0 <= i < count ==> n[i] == 1
  {
    seq(count, _ => 1)
  }

  /** 1 for the first tile, which lies at offset 0, and 0 for every tile that follows its predecessor. */
  function OffsetCodes(count: nat): (n: seq<nat>)
    ensures |n| == count && forall i :: 0 <= i < count ==> n[i] == if i == 0 then 1 else 0
  {
    seq(count, i => if i == 0 then 1 else 0)
  }

  predicate AllSafe(numbers: seq<int>) {
    forall i :: 0 <= i < |numbers| ==> Safe(numbers[i])
  }

  /** The tiles are in the order of their ids and every number fits. */
  predicate Encodable(tiles: seq<Tile>) {
    Safe(|tiles|) && AllSafe(Deltas(tiles, 0)) && AllSafe(Lengths(tiles))
  }

  function DirectoryBytes(tiles: seq<Tile>): seq<Byte>
    requires Encodable(tiles)
  {
    VarintBytes(|tiles|) + PackedBytes(Deltas(tiles, 0)) + PackedBytes(Ones(|tiles|)) + PackedBytes(Lengths(tiles))
    + PackedBytes(OffsetCodes(|tiles|))
  }

  /** One varint after the other; None where one of them throws. */
  method EncodeNumbers(numbers: seq<int>) returns (r: Option<seq<Byte>>)
    ensures r.Some? <==> AllSafe(numbers)
    ensures r.Some? ==> r.value == PackedBytes(numbers)
  {
    var bytes: seq<Byte> := [];
    for i := 0 to |numbers|
      invariant AllSafe(numbers[..i])
      invariant bytes == PackedBytes(numbers[..i])
    {
      var one := Varint(numbers[i]);
      if one.None? {
        return None;
      }
      PackedAppend(numbers[..i], numbers[i]);
      assert numbers[..i + 1] == numbers[..i] + [numbers[i]];
      bytes := bytes + one.value;
    }
    assert numbers[..|numbers|] == numbers;
    r := Some(bytes);
  }

  lemma InFront<T>(a: seq<T>, b: seq<T>, c: seq<T>)
    ensures a + (b + c) == (a + b) + c
  {
  }

  lemma {:induction false} PackedAppend(numbers: seq<nat>, n: nat)
    ensures PackedBytes(numbers + [n]) == PackedBytes(numbers) + VarintBytes(n)
  {
    if numbers == [] {
      assert PackedBytes([n]) == VarintBytes(n) + PackedBytes([]);
    } else {
      PackedAppend(numbers[1..], n);
      assert (numbers + [n])[1..] == numbers[1..] + [n];
      InFront(VarintBytes(numbers[0]), PackedBytes(numbers[1..]), VarintBytes(n));
    }
  }

  method EncodeDirectory(tiles: seq<Tile>) returns (r: Option<seq<Byte>>)
    ensures r.Some? <==> Encodable(tiles)
    ensures r.Some? ==> r.value == DirectoryBytes(tiles)
  {
    var previousId: nat := 0;
    var deltas: seq<int> := [];
    assert tiles[0..] == tiles;
    for i := 0 to |tiles|
      invariant Deltas(tiles, 0) == deltas + Deltas(tiles[i..], previousId)
    {
      assert tiles[i..][0] == tiles[i] && tiles[i..][1..] == tiles[i + 1..];
      deltas := deltas + [tiles[i].id - previousId];
      previousId := tiles[i].id;
    }
    assert deltas == Deltas(tiles, 0);
    var count := Varint(|tiles|);
    var ids := EncodeNumbers(deltas);
    var runs := EncodeNumbers(Ones(|tiles|));
    var lengths := EncodeNumbers(Lengths(tiles));
    var offsets := EncodeNumbers(OffsetCodes(|tiles|));
    if count.None? || ids.None? || lengths.None? {
      return None;
    }
    r := Some(count.value + ids.value + runs.value + lengths.value + offsets.value);
  }

  // ------------------------------------------------------------------ a reader of directories

  function TileIds(deltas: seq<nat>, previousId: nat): (ids: seq<nat>)
    ensures |ids| == |deltas|
  {
    if deltas == [] then [] else [previousId + deltas[0]] + TileIds(deltas[1..], previousId + deltas[0])
  }

  /** A code of 0 puts a tile right behind its predecessor, any other code gives the offset plus one. */
  function Offsets(codes: seq<nat>, lengths: seq<nat>, behind: nat, first: bool): (r: Option<seq<nat>>)
    requires |codes| == |lengths|
    ensures r.Some? ==> |r.value| == |codes|
  {
    if codes == [] then Some([])
    else if codes[0] == 0 && first then None
    else
      var offset := if codes[0] == 0 then behind else codes[0] - 1;
      var more := Offsets(codes[1..], lengths[1..], offset + lengths[0], false);
      if more.None? then None else Some([offset] + more.value)
  }

  datatype Columns = Columns(deltas: seq<nat>, runs: seq<nat>, lengths: seq<nat>, codes: seq<nat>)

  /** The four columns of a directory with `n` entries. */
  function ReadColumns(bytes: seq<Byte>, n: nat): (r: Option<Read<Columns>>)
    ensures r.Some? ==> var c := r.value.value; |c.deltas| == |c.runs| == |c.lengths| == |c.codes| == n
  {
    var deltas := ReadCount(bytes, n);
    if deltas.None? then None
    else
      var runs := ReadCount(deltas.value.rest, n);
      if runs.None? then None
      else
        var lengths := ReadCount(runs.value.rest, n);
        if lengths.None? then None
        else
          var codes := ReadCount(lengths.value.rest, n);
          if codes.None? then None
          else Some(Read(Columns(deltas.value.value, runs.value.value, lengths.value.value, codes.value.value),
                         codes.value.rest))
  }

  function EntriesOf(c: Columns): Option<seq<Entry>>
    requires |c.deltas| == |c.runs| == |c.lengths| == |c.codes|
  {
    var offsets := Offsets(c.codes, c.lengths, 0, true);
    if offsets.None? then None else Some(Entries(TileIds(c.deltas, 0), c.runs, c.lengths, offsets.value))
  }

  function ReadDirectory(bytes: seq<Byte>): Option<Read<seq<Entry>>> {
    var count := ReadVarint(bytes);
    if count.None? then None
    else
      var columns := ReadColumns(count.value.rest, count.value.value);
      if columns.None? || EntriesOf(columns.value.value).None? then None
      else Some(Read(EntriesOf(columns.value.value).value, columns.value.rest))
  }

  function Entries(ids: seq<nat>, runs: seq<nat>, lengths: seq<nat>, offsets: seq<nat>): (r: seq<Entry>)
    requires |ids| == |runs| == |lengths| == |offsets|
    ensures |r| == |ids|
    ensures forall i :: 0 <= i < |r| ==> r[i] == Entry(ids[i], runs[i], lengths[i], offsets[i])
  {
    seq(|ids|, i requires 0 <= i < |ids| => Entry(ids[i], runs[i], lengths[i], offsets[i]))
  }

  // ------------------------------------------------------------------ what the directory tells

  function TileData(tiles: seq<Tile>): seq<Byte> {
    if tiles == [] then [] else tiles[0].bytes + TileData(tiles[1..])
  }

  lemma {:induction false} DeltasInvert(tiles: seq<Tile>, previousId: nat)
    requires AllSafe(Deltas(tiles, previousId))
    ensures |Deltas(tiles, previousId)| == |tiles|
    ensures forall i :: 0 <= i < |tiles| ==> TileIds(Deltas(tiles, previousId), previousId)[i] == tiles[i].id
  {
    if tiles != [] {
      var deltas := Deltas(tiles, previousId);
      assert deltas[0] == tiles[0].id - previousId && deltas[1..] == Deltas(tiles[1..], tiles[0].id);
      assert forall i :: 0 <= i < |deltas[1..]| ==> deltas[1..][i] == deltas[i + 1];
      DeltasInvert(tiles[1..], tiles[0].id);
    }
  }

  lemma {:induction false} LengthsAre(tiles: seq<Tile>, i: nat)
    requires i < |tiles|
    ensures Lengths(tiles)[i] == |tiles[i].bytes|
  {
    if i != 0 {
      LengthsAre(tiles[1..], i - 1);
    }
  }

  function OffsetOf(tiles: seq<Tile>, i: nat): nat
    requires i <= |tiles|
  {
    |TileData(tiles[..i])|
  }

  lemma {:induction false} FollowingOffsets(tiles: seq<Tile>, codes: seq<nat>, behind: nat)
    requires |codes| == |tiles| && forall k :: 0 <= k < |codes| ==> codes[k] == 0
    ensures var offsets := Offsets(codes, Lengths(tiles), behind, false);
            offsets.Some? && forall i :: 0 <= i < |tiles| ==> offsets.value[i] == behind + OffsetOf(tiles, i)
  {
    if tiles != [] {
      FollowingOffsets(tiles[1..], codes[1..], behind + |tiles[0].bytes|);
      var offsets := Offsets(codes, Lengths(tiles), behind, false).value;
      forall i | 0 < i < |tiles|
        ensures offsets[i] == behind + OffsetOf(tiles, i)
      {
        assert tiles[..i][1..] == tiles[1..][..i - 1];
      }
    }
  }

  lemma OffsetsAre(tiles: seq<Tile>)
    ensures var offsets := Offsets(OffsetCodes(|tiles|), Lengths(tiles), 0, true);
            offsets.Some? && forall i :: 0 <= i < |tiles| ==> offsets.value[i] == OffsetOf(tiles, i)
  {
    if tiles != [] {
      FirstOffsets(tiles, OffsetCodes(|tiles|));
    }
  }

  lemma FirstOffsets(tiles: seq<Tile>, codes: seq<nat>)
    requires |codes| == |tiles| && codes != [] && codes[0] == 1
    requires forall k :: 0 < k < |codes| ==> codes[k] == 0
    ensures var offsets := Offsets(codes, Lengths(tiles), 0, true);
            offsets.Some? && forall i :: 0 <= i < |tiles| ==> offsets.value[i] == OffsetOf(tiles, i)
  {
    var size := |tiles[0].bytes|;
    assert Lengths(tiles)[0] == size && Lengths(tiles)[1..] == Lengths(tiles[1..]);
    FollowingOffsets(tiles[1..], codes[1..], size);
    var more := Offsets(codes[1..], Lengths(tiles[1..]), size, false).value;
    assert Offsets(codes, Lengths(tiles), 0, true) == Some([0] + more);
    forall i | 0 <= i < |tiles|
      ensures ([0] + more)[i] == OffsetOf(tiles, i)
    {
      NextOffset(tiles, i);
    }
  }

  lemma NextOffset(tiles: seq<Tile>, i: nat)
    requires i < |tiles|
    ensures OffsetOf(tiles, i) == if i == 0 then 0 else |tiles[0].bytes| + OffsetOf(tiles[1..], i - 1)
  {
    if i != 0 {
      assert tiles[..i][1..] == tiles[1..][..i - 1];
    }
  }

  lemma {:induction false} DataAt(tiles: seq<Tile>, i: nat)
    requires i < |tiles|
    ensures OffsetOf(tiles, i) + |tiles[i].bytes| <= |TileData(tiles)|
    ensures TileData(tiles)[OffsetOf(tiles, i)..][..|tiles[i].bytes|] == tiles[i].bytes
  {
    if i == 0 {
      assert TileData(tiles) == tiles[0].bytes + TileData(tiles[1..]);
    } else {
      DataAt(tiles[1..], i - 1);
      assert tiles[..i][1..] == tiles[1..][..i - 1];
      assert TileData(tiles)[OffsetOf(tiles, i)..] == TileData(tiles[1..])[OffsetOf(tiles[1..], i - 1)..];
    }
  }

  /** A reader gets back the ids and lengths of all tiles, each with run length 1, and the offset of each
      entry locates exactly the bytes of its tile in the concatenated data. */
  lemma DirectoryLocatesTiles(tiles: seq<Tile>, rest: seq<Byte>)
    requires Encodable(tiles)
    ensures var read := ReadDirectory(DirectoryBytes(tiles) + rest);
            && read.Some? && read.value.rest == rest && |read.value.value| == |tiles|
            && forall i :: 0 <= i < |tiles| ==>
                 var e := read.value.value[i];
                 && e.tileId == tiles[i].id && e.runLength == 1 && e.length == |tiles[i].bytes|
                 && e.offset + e.length <= |TileData(tiles)|
                 && TileData(tiles)[e.offset..][..e.length] == tiles[i].bytes
  {
    var lengths := Lengths(tiles);
    DeltasInvert(tiles, 0);
    ReadsParts(tiles, Columns(Deltas(tiles, 0), Ones(|tiles|), lengths, OffsetCodes(|tiles|)), rest);
    OffsetsAre(tiles);
    forall i | 0 <= i < |tiles|
      ensures lengths[i] == |tiles[i].bytes| && OffsetOf(tiles, i) + lengths[i] <= |TileData(tiles)|
      ensures TileData(tiles)[OffsetOf(tiles, i)..][..lengths[i]] == tiles[i].bytes
    {
      LengthsAre(tiles, i);
      DataAt(tiles, i);
    }
  }

  lemma ReadColumnsInverts(c: Columns, n: nat, rest: seq<Byte>)
    requires |c.deltas| == |c.runs| == |c.lengths| == |c.codes| == n
    ensures ReadColumns(ColumnBytes(c, rest), n) == Some(Read(c, rest))
  {
    ReadCountInverts(c.codes, rest);
    ReadCountInverts(c.lengths, PackedBytes(c.codes) + rest);
    ReadCountInverts(c.runs, PackedBytes(c.lengths) + (PackedBytes(c.codes) + rest));
    ReadCountInverts(c.deltas, PackedBytes(c.runs) + (PackedBytes(c.lengths) + (PackedBytes(c.codes) + rest)));
  }

  function ColumnBytes(c: Columns, rest: seq<Byte>): seq<Byte> {
    PackedBytes(c.deltas) + (PackedBytes(c.runs) + (PackedBytes(c.lengths) + (PackedBytes(c.codes) + rest)))
  }

  lemma Regroup(a: seq<Byte>, b: seq<Byte>, c: seq<Byte>, d: seq<Byte>, e: seq<Byte>, f: seq<Byte>)
    ensures a + b + c + d + e + f == a + (b + (c + (d + (e + f))))
  {
  }

  lemma ReadsParts(tiles: seq<Tile>, c: Columns, rest: seq<Byte>)
    requires Encodable(tiles) && c == Columns(Deltas(tiles, 0), Ones(|tiles|), Lengths(tiles), OffsetCodes(|tiles|))
    requires |c.deltas| == |tiles|
    ensures ReadDirectory(DirectoryBytes(tiles) + rest) ==
            if EntriesOf(c).None? then None else Some(Read(EntriesOf(c).value, rest))
  {
    Regroup(VarintBytes(|tiles|), PackedBytes(c.deltas), PackedBytes(c.runs), PackedBytes(c.lengths),
            PackedBytes(c.codes), rest);
    ReadVarintInverts(|tiles|, ColumnBytes(c, rest));
    ReadColumnsInverts(c, |tiles|, rest);
  }
}
