/** Shelf packing of sprites into the static atlas (the packing loop of main in tools/art-atlas/prepare.py). */
module ShelfPacking {
  import opened Outcomes

  datatype Size = Size(width: nat, height: nat)

  datatype Rect = Rect(x: nat, y: nat, width: nat, height: nat)

  const GAP := 2

  predicate InsideAtlas(r: Rect, atlas: Size) {
    r.x + r.width <= atlas.width && r.y + r.height <= atlas.height
  }

  /** At least two pixels lie between the rectangles, horizontally or vertically. */
  predicate Apart(a: Rect, b: Rect) {
    || a.x + a.width + GAP <= b.x || b.x + b.width + GAP <= a.x
    || a.y + a.height + GAP <= b.y || b.y + b.height + GAP <= a.y
  }

  /** Where the next sprite goes: the cursor on the current shelf and the height of that shelf. */
  datatype Shelf = Shelf(x: nat, y: nat, rowHeight: nat)

  /** The shelf a sprite is put on: the current one, or a new one below it when the width is used up. */
  function ShelfFor(shelf: Shelf, sprite: Size, atlas: Size): Shelf {
    if atlas.width < shelf.x + sprite.width then Shelf(0, shelf.y + shelf.rowHeight + GAP, 0) else shelf
  }

  function Max(a: nat, b: nat): nat {
    if a < b then b else a
  }

  function After(s: Shelf, sprite: Size): Shelf {
    Shelf(s.x + sprite.width + GAP, s.y, Max(s.rowHeight, sprite.height))
  }

  /** The rectangles of the sprites placed from `shelf` on; None when the atlas is full. */
  function Placed(shelf: Shelf, sprites: seq<Size>, atlas: Size): Option<seq<Rect>>
    decreases |sprites|
  {
    if sprites == [] then Some([])
    else
      var sprite := sprites[0];
      var s := ShelfFor(shelf, sprite, atlas);
      if atlas.height < s.y + sprite.height then None
      else
        var rest := Placed(After(s, sprite), sprites[1..], atlas);
        if rest.None? then None else Some([Rect(s.x, s.y, sprite.width, sprite.height)] + rest.value)
  }

  /** Every sprite got a rectangle of its size, in order; it lies inside the atlas exactly when the
      sprite is not wider than the atlas. */
  ghost predicate Fits(rects: seq<Rect>, sprites: seq<Size>, atlas: Size) {
    && |rects| == |sprites|
    && forall i :: 0 <= i < |rects| ==>
         && Size(rects[i].width, rects[i].height) == sprites[i]
         && (InsideAtlas(rects[i], atlas) <==> sprites[i].width <= atlas.width)
  }

  ghost predicate AllApart(rects: seq<Rect>) {
    forall i, j :: 0 <= i < j < |rects| ==> Apart(rects[i], rects[j])
  }

  /** What has been placed before: it ends above the current shelf or left of the cursor on it. */
  ghost predicate Behind(r: Rect, shelf: Shelf) {
    r.y + r.height + GAP <= shelf.y || (r.y == shelf.y && r.x + r.width + GAP <= shelf.x && r.height <= shelf.rowHeight)
  }

  /** Packing keeps the order and sizes of the sprites, stays inside the atlas and keeps every two
      sprites two pixels apart. */
  lemma {:induction false} PlacedApart(shelf: Shelf, sprites: seq<Size>, atlas: Size, before: seq<Rect>)
    requires Placed(shelf, sprites, atlas).Some?
    requires forall r :: r in before ==> Behind(r, shelf)
    ensures var rects := Placed(shelf, sprites, atlas).value;
            && Fits(rects, sprites, atlas) && AllApart(rects)
            && forall r, i :: r in before && 0 <= i < |rects| ==> Apart(r, rects[i])
    decreases |sprites|
  {
    if sprites != [] {
      var s := ShelfFor(shelf, sprites[0], atlas);
      var first := Rect(s.x, s.y, sprites[0].width, sprites[0].height);
      PlacedApart(After(s, sprites[0]), sprites[1..], atlas, before + [first]);
      var rest := Placed(After(s, sprites[0]), sprites[1..], atlas).value;
      assert first in before + [first];
      assert forall i :: 0 <= i < |rest| ==> Apart(first, rest[i]);
      assert forall r :: r in before ==> r in before + [first] && Apart(r, first);
    }
  }

  /** The rectangles `done` followed by those of `rest` are the whole packing. */
  ghost predicate Continues(whole: Option<seq<Rect>>, done: seq<Rect>, rest: Option<seq<Rect>>) {
    && (whole.Some? <==> rest.Some?)
    && (rest.Some? ==> whole.value == done + rest.value)
  }

  lemma ContinuesStep(whole: Option<seq<Rect>>, done: seq<Rect>, shelf: Shelf, sprites: seq<Size>, atlas: Size)
    requires sprites != [] && Continues(whole, done, Placed(shelf, sprites, atlas))
    ensures var s := ShelfFor(shelf, sprites[0], atlas);
            var rect := Rect(s.x, s.y, sprites[0].width, sprites[0].height);
            if atlas.height < s.y + sprites[0].height then whole.None?
            else Continues(whole, done + [rect], Placed(After(s, sprites[0]), sprites[1..], atlas))
  {
  }

  method Pack(sprites: seq<Size>, atlas: Size) returns (packed: Option<seq<Rect>>)
    ensures packed == Placed(Shelf(0, 0, 0), sprites, atlas)
    ensures packed.Some? ==> Fits(packed.value, sprites, atlas) && AllApart(packed.value)
  {
    var x: nat, y: nat, rowHeight: nat := 0, 0, 0;
    var rects: seq<Rect> := [];
    ghost var whole := Placed(Shelf(0, 0, 0), sprites, atlas);
    assert sprites[0..] == sprites;
    for i := 0 to |sprites|
      invariant Continues(whole, rects, Placed(Shelf(x, y, rowHeight), sprites[i..], atlas))
    {
      var sprite := sprites[i];
      ContinuesStep(whole, rects, Shelf(x, y, rowHeight), sprites[i..], atlas);
      assert sprites[i..][0] == sprite && sprites[i..][1..] == sprites[i + 1..];
      if atlas.width < x + sprite.width {
        x, y, rowHeight := 0, y + rowHeight + GAP, 0;
      }
      if atlas.height < y + sprite.height {
        return None;
      }
      rects := rects + [Rect(x, y, sprite.width, sprite.height)];
      x := x + sprite.width + GAP;
      rowHeight := Max(rowHeight, sprite.height);
    }
    assert sprites[|sprites|..] == [] && rects + [] == rects;
    packed := Some(rects);
    PlacedApart(Shelf(0, 0, 0), sprites, atlas, []);
  }
}
